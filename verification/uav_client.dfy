/**
 * The UAV's side of the handshake: its own copies of the derivations and the
 * rule that decides which message it sends next. Flight control and sockets
 * are outside this model.
 */
module UavClient {
  import opened Text
  import opened Primitives
  import opened Ledger
  import opened Epoh
  import opened Leader

  /** The identity and long-term key the UAV is provisioned with. */
  const UavSupi: Str := "UAV_A1"
  const LongTermKey: Str := "K_LongTerm_A1"

  /** KTx as the UAV computes it. */
  function CalculateSessionKey(c: Crypto, longTermKey: Str, rand: int): (ktx: Str)
    ensures var h := c.sha256(longTermKey + IntToStr(rand));
      ktx <= h && |ktx| == if |h| < 16 then |h| else 16
  {
    Take(c.sha256(longTermKey + IntToStr(rand)), 16)
  }

  /** RES* as the UAV computes it. */
  function CalculateResStar(c: Crypto, longTermKey: Str, rand: int): (res: Str)
    ensures var h := c.sha256(longTermKey + IntToStr(rand) + "Expected");
      res <= h && |res| == if |h| < 10 then |h| else 10
  {
    Take(c.sha256(longTermKey + IntToStr(rand) + "Expected"), 10)
  }

  /** For one key and challenge value the UAV's RES* is the leader's XRES* and both sides hold the same KTx. */
  lemma ClientAgreesWithLeader(c: Crypto, uavSupi: Str, longTermKey: Str, rand: int)
    ensures CalculateResStar(c, longTermKey, rand) == GenerateAuthVector(c, uavSupi, longTermKey, rand).xresStar
    ensures CalculateSessionKey(c, longTermKey, rand) == GenerateAuthVector(c, uavSupi, longTermKey, rand).ktx
    ensures CalculateSessionKey(c, longTermKey, rand) == SessionKey(c, longTermKey, rand)
  {
  }

  /** With 64-character digests the response has 10 characters and the session key 16, each a digest prefix. */
  lemma ClientValueLengths(c: Crypto, longTermKey: Str, rand: int)
    requires HexDigests(c)
    ensures |CalculateResStar(c, longTermKey, rand)| == 10
    ensures |CalculateSessionKey(c, longTermKey, rand)| == 16
    ensures CalculateResStar(c, longTermKey, rand) == c.sha256(longTermKey + IntToStr(rand) + "Expected")[..10]
    ensures CalculateSessionKey(c, longTermKey, rand) == c.sha256(longTermKey + IntToStr(rand))[..16]
  {
  }

  /** The first handshake message. */
  function FirstRequest(): Request {
    Request(Some(AuthRequest1), Some(UavSupi), None, None, JNull)
  }

  /** The second handshake message, sent only when the first reply issued a challenge. */
  function SecondRequest(c: Crypto, reply1: Response): Option<Request> {
    if reply1.ChallengeIssued? then
      Some(Request(Some(AuthResponse2), Some(UavSupi), Some(CalculateResStar(c, LongTermKey, reply1.rand)), None, JNull))
    else None
  }

  /** The session key kept after the handshake: only an AUTH_SUCCESS to the second message supplies one. */
  function AdoptedSessionKey(reply1: Response, reply2: Response): Option<Str> {
    if reply1.ChallengeIssued? && reply2.AuthSuccess? then Some(reply2.sessionKey) else None
  }

  /** Telemetry flows only under a kept, non-empty session key (`if session_key:`). */
  predicate SendsTelemetry(key: Option<Str>) {
    key.Some? && key.value != ""
  }

  /** A telemetry message carrying the kept session key. */
  function TelemetryRequest(sessionKey: Str, data: Json): Request {
    Request(Some(TelemetryTxType), Some(UavSupi), None, Some(sessionKey), data)
  }

  /** What the UAV sends for one telemetry reading: nothing unless it holds a session key. */
  function NextTelemetry(key: Option<Str>, data: Json): Option<Request> {
    if SendsTelemetry(key) then Some(TelemetryRequest(key.value, data)) else None
  }

  /**
   * The handshake rule: AUTH_RESPONSE_2 follows exactly a CHALLENGE_ISSUED reply and
   * answers that reply's challenge; telemetry follows only an AUTH_SUCCESS.
   */
  lemma HandshakeRule(c: Crypto, reply1: Response, reply2: Response)
    ensures SecondRequest(c, reply1).Some? <==> reply1.ChallengeIssued?
    ensures SecondRequest(c, reply1).Some? ==>
      && SecondRequest(c, reply1).value.rtype == Some(AuthResponse2)
      && SecondRequest(c, reply1).value.resStar == Some(CalculateResStar(c, LongTermKey, reply1.rand))
    ensures SendsTelemetry(AdoptedSessionKey(reply1, reply2)) ==>
      reply1.ChallengeIssued? && reply2.AuthSuccess? && reply2.sessionKey != ""
  {
  }

  /**
   * An honest UAV talking to a leader in any reachable state authenticates: it is
   * challenged, its response is accepted, one block is mined, and the key it keeps
   * is the leader's KTx for that challenge.
   */
  lemma HonestClientAuthenticates(c: Crypto, s: Node, base: nat, rand: int, rand2: int,
                                  now1: int, now2: int, clock: nat -> int)
    requires NodeInv(c, s, base)
    ensures var first := Handle(c, s, FirstRequest(), rand, now1, clock);
      && first.reply.ChallengeIssued? && first.reply.rand == rand
      && SecondRequest(c, first.reply).Some?
      && var second := Handle(c, first.node, SecondRequest(c, first.reply).value, rand2, now2, clock);
      && second.reply == AuthSuccess(SessionKey(c, LongTermKey, rand))
      && AdoptedSessionKey(first.reply, second.reply) == Some(CalculateSessionKey(c, LongTermKey, rand))
      && |second.node.chain| == |s.chain| + 1
      && UavSupi !in second.node.pending
      && (HexDigests(c) ==> SendsTelemetry(AdoptedSessionKey(first.reply, second.reply)))
  {
    var first := Handle(c, s, FirstRequest(), rand, now1, clock);
    AuthRequestIssuesChallenge(c, s, FirstRequest(), rand, now1, clock);
    HandlePreservesInv(c, s, base, FirstRequest(), rand, now1, clock);
    var req2 := SecondRequest(c, first.reply).value;
    ClientAgreesWithLeader(c, UavSupi, LongTermKey, rand);
    AuthResponseSucceeds(c, first.node, base, req2, rand2, now2, clock);
  }

  /** A response computed from any other key that yields a different RES* is refused and mines nothing. */
  lemma WrongKeyIsRefused(c: Crypto, s: Node, base: nat, otherKey: Str, rand: int, rand2: int,
                          now1: int, now2: int, clock: nat -> int)
    requires NodeInv(c, s, base)
    requires CalculateResStar(c, otherKey, rand) != CalculateResStar(c, LongTermKey, rand)
    ensures var first := Handle(c, s, FirstRequest(), rand, now1, clock);
      var forged := FirstRequest().(rtype := Some(AuthResponse2), resStar := Some(CalculateResStar(c, otherKey, rand)));
      var second := Handle(c, first.node, forged, rand2, now2, clock);
      && second.reply == AuthFailure(MismatchReason)
      && second.node == first.node && second.node.chain == s.chain
  {
    var first := Handle(c, s, FirstRequest(), rand, now1, clock);
    AuthRequestIssuesChallenge(c, s, FirstRequest(), rand, now1, clock);
    ClientAgreesWithLeader(c, UavSupi, LongTermKey, rand);
    var forged := FirstRequest().(rtype := Some(AuthResponse2), resStar := Some(CalculateResStar(c, otherKey, rand)));
    AuthResponseMismatchChangesNothing(c, first.node, forged, rand2, now2, clock);
  }

  /**
   * Telemetry is sent exactly under a kept session key, and the leader records each
   * reading: it joins the pool, or closes a batch and lands in the block just mined.
   */
  lemma AuthenticatedTelemetryIsRecorded(c: Crypto, s: Node, base: nat, key: Option<Str>, data: Json,
                                         rand: int, now: int, clock: nat -> int)
    requires NodeInv(c, s, base)
    ensures NextTelemetry(key, data).Some? <==> SendsTelemetry(key)
    ensures SendsTelemetry(key) ==>
      var st := Handle(c, s, NextTelemetry(key, data).value, rand, now, clock);
      var tx := TelemetryTx(TelemetryTxId(UavSupi, now), UavSupi, data);
      || (st.reply.TxReceived? && st.node.pool == s.pool + [tx] && st.node.chain == s.chain)
      || (st.reply.TxBlockAck? && st.node.pool == [] && Last(st.node.chain).transactions == s.pool + [tx])
  {
    if SendsTelemetry(key) {
      TelemetryIsPooledAndBatched(c, s, base, NextTelemetry(key, data).value, rand, now, clock);
    }
  }
}
