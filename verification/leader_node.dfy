/**
 * The leader node: the registry of UAV keys, the per-UAV pending challenges,
 * the transaction pool and the chain it mines. Each request is one atomic step
 * of the state abstracted as `Node`; `LeaderNode` is the object that performs
 * those steps in place.
 */
module Leader {
  import opened Text
  import opened Primitives
  import opened Ledger
  import opened Epoh

  /** The pre-registered UAVs and their long-term symmetric keys. */
  const UavDb: map<Str, Str> := map["UAV_A1" := "K_LongTerm_A1", "UAV_B2" := "K_LongTerm_B2"]

  const LeaderDifficulty: nat := 2
  /** Telemetry is mined once the pool holds this many transactions. */
  const BatchSize: nat := 3

  const AuthRequest1: Str := "AUTH_REQUEST_1"
  const AuthResponse2: Str := "AUTH_RESPONSE_2"
  const TelemetryTxType: Str := "TELEMETRY_TX"

  const UnknownSupiReason: Str := "Unknown SUPI/UAV ID"
  const MismatchReason: Str := "RES* mismatch or no pending challenge"
  const InvalidTypeReason: Str := "Invalid Request Type"

  /** A decoded request dictionary; a missing key reads as `None` (or `JNull` for `data`). */
  datatype Request = Request(
    rtype: Option<Str>,
    uavSupi: Option<Str>,
    resStar: Option<Str>,
    sessionKey: Option<Str>,
    data: Json)

  datatype Response =
    | ChallengeIssued(rand: int, autn: Str, pkNode: Str)
    | AuthSuccess(sessionKey: Str)
    | AuthFailure(reason: Str)
    | TxBlockAck(hash: Str, nextHash: Str)
    | TxReceived(hashSeed: Str)
    | Error(reason: Str)

  /** What is kept for a UAV between its two authentication messages. */
  datatype Challenge = Challenge(xresStar: Str, ktxSim: Str, rand: int, timestamp: int)

  /**
   * Everything a request can change: the chain, the pool, the challenge table,
   * the ledger file's contents, and the engine's digest and step counter.
   */
  datatype Node = Node(
    chain: seq<Block>,
    pool: seq<Tx>,
    pending: map<Str, Challenge>,
    ledger: seq<Block>,
    latestHash: Str,
    sequenceCount: nat)

  datatype Step = Step(node: Node, reply: Response)

  predicate KnownSupi(req: Request) {
    req.uavSupi.Some? && req.uavSupi.value in UavDb
  }

  function AuthTxId(supi: Str, now: int): Str {
    "AUTH_SUCCESS_" + supi + "_" + IntToStr(now)
  }

  function TelemetryTxId(supi: Str, now: int): Str {
    "TELEMETRY_" + supi + "_" + IntToStr(now)
  }

  /** The genesis block, finalised by one plain engine step from `seed`. */
  function GenesisBlock(c: Crypto, seed: Str, now: int): Block {
    Block(0, now, "0", [ChainStart], [GenesisTx], c.sha256(seed))
  }

  /** Whether the ledger read at start-up is adopted (present, parsed and non-empty). */
  predicate Adopts(stored: Option<seq<Block>>) {
    stored.Some? && stored.value != []
  }

  /** Start-up: adopt a usable ledger and resume from its last hash, or start a chain with a genesis block. */
  function Boot(c: Crypto, stored: Option<seq<Block>>, now: int): Node {
    if Adopts(stored) then
      Node(stored.value, [], map[], stored.value, Last(stored.value).currentHash, 0)
    else
      var genesis := GenesisBlock(c, Zeros64, now);
      Node([genesis], [], map[], [genesis], genesis.currentHash, 1)
  }

  /** The number of blocks the node did not mine itself. */
  function BootBase(stored: Option<seq<Block>>): nat {
    if Adopts(stored) then |stored.value| else 1
  }

  /** Mining: the whole pool becomes one block linked to the last block's hash; the chain is saved and the pool emptied. */
  function Mine(c: Crypto, s: Node, clock: nat -> int): Node
    requires s.pool != [] ==> s.chain != []
  {
    if s.pool == [] then s
    else
      var block := BuildBlock(c, LeaderDifficulty, s.pool, Last(s.chain).currentHash, |s.chain| + 1, clock);
      s.(chain := s.chain + [block], ledger := s.chain + [block], pool := [],
         latestHash := block.currentHash, sequenceCount := |s.pool| * (LeaderDifficulty + 1))
  }

  /**
   * One request. `rand` is the challenge value (`int(time.time() * 1000)`), `now`
   * the wall clock in seconds, `clock` the readings taken while mining.
   */
  function Handle(c: Crypto, s: Node, req: Request, rand: int, now: int, clock: nat -> int): Step
    requires s.chain != []
  {
    if !KnownSupi(req) then Step(s, AuthFailure(UnknownSupiReason))
    else
      var supi := req.uavSupi.value;
      var key := UavDb[supi];
      if req.rtype == Some(AuthRequest1) then
        var av := GenerateAuthVector(c, supi, key, rand);
        Step(s.(pending := s.pending[supi := Challenge(av.xresStar, av.ktx, av.rand, now)]),
             ChallengeIssued(av.rand, av.autn, NodePublicKey))
      else if req.rtype == Some(AuthResponse2) then
        if supi in s.pending && req.resStar == Some(s.pending[supi].xresStar) then
          var ch := s.pending[supi];
          var tx := AuthSuccessTx(AuthTxId(supi, now), supi, ch.ktxSim, ch.rand);
          Step(Mine(c, s.(pool := s.pool + [tx], pending := s.pending - {supi}), clock), AuthSuccess(ch.ktxSim))
        else Step(s, AuthFailure(MismatchReason))
      else if req.rtype == Some(TelemetryTxType) then
        var s1 := s.(pool := s.pool + [TelemetryTx(TelemetryTxId(supi, now), supi, req.data)]);
        if |s1.pool| >= BatchSize then
          var s2 := Mine(c, s1, clock);
          Step(s2, TxBlockAck(Take(Last(s2.chain).currentHash, 10), Last(s2.chain).currentHash))
        else Step(s1, TxReceived(Take(s1.latestHash, 10)))
      else Step(s, Error(InvalidTypeReason))
  }

  // ---------------------------------------------------------------------------
  // The invariant kept between requests

  /** A pending challenge holds what the derivations give for that UAV's key and the stored challenge value. */
  ghost predicate ChallengeDerived(c: Crypto, supi: Str, ch: Challenge) {
    && supi in UavDb
    && ch.xresStar == GenerateAuthVector(c, supi, UavDb[supi], ch.rand).xresStar
    && ch.ktxSim == SessionKey(c, UavDb[supi], ch.rand)
  }

  /** Block i was mined by this node: it links to its predecessor's PoH hash and replays from it. */
  ghost predicate MinedAt(c: Crypto, chain: seq<Block>, i: nat)
    requires 1 <= i < |chain|
  {
    && chain[i].previousHash == chain[i - 1].currentHash
    && chain[i].index == i + 1
    && chain[i].transactions != []
    && chain[i].currentHash == PohHash(c, chain[i].previousHash, LeaderDifficulty, chain[i].transactions)
  }

  ghost predicate ChainInv(c: Crypto, chain: seq<Block>, base: nat) {
    && 1 <= base <= |chain|
    && forall i :: base <= i < |chain| ==> MinedAt(c, chain, i)
  }

  ghost predicate NodeInv(c: Crypto, s: Node, base: nat) {
    && ChainInv(c, s.chain, base)
    && |s.pool| < BatchSize
    && s.ledger == s.chain
    && s.latestHash == Last(s.chain).currentHash
    && forall supi :: supi in s.pending ==> ChallengeDerived(c, supi, s.pending[supi])
  }

  // ---------------------------------------------------------------------------
  // Properties of start-up and mining

  /** A node that finds no usable ledger holds exactly the genesis block. */
  lemma FreshNodeHasOnlyGenesis(c: Crypto, stored: Option<seq<Block>>, now: int)
    requires !Adopts(stored)
    ensures var s := Boot(c, stored, now);
      && |s.chain| == 1
      && s.chain[0].index == 0 && s.chain[0].previousHash == "0"
      && s.chain[0].currentHash == c.sha256(Zeros64)
      && s.chain[0].transactions == [GenesisTx] && s.chain[0].eventLog == [ChainStart]
      && s.pool == [] && s.pending == map[] && s.ledger == s.chain
  {
  }

  /** A node that adopts a ledger resumes from it unchanged. */
  lemma AdoptedLedgerIsResumed(c: Crypto, stored: Option<seq<Block>>, now: int)
    requires Adopts(stored)
    ensures var s := Boot(c, stored, now);
      s.chain == stored.value && s.latestHash == stored.value[|stored.value| - 1].currentHash
      && s.pool == [] && s.pending == map[]
  {
  }

  lemma BootEstablishesInv(c: Crypto, stored: Option<seq<Block>>, now: int)
    ensures NodeInv(c, Boot(c, stored, now), BootBase(stored))
  {
  }

  /**
   * Mining an empty pool changes nothing; otherwise exactly one block is appended,
   * linked to the old last hash, with index old length + 1, holding the pool.
   */
  lemma MineAppendsOneBlock(c: Crypto, s: Node, clock: nat -> int)
    requires s.chain != []
    ensures var t := Mine(c, s, clock);
      && (s.pool == [] ==> t == s)
      && (s.pool != [] ==>
            && |t.chain| == |s.chain| + 1 && t.chain[..|s.chain|] == s.chain
            && Last(t.chain).previousHash == Last(s.chain).currentHash
            && Last(t.chain).index == |s.chain| + 1
            && Last(t.chain).transactions == s.pool
            && t.pool == [] && t.pending == s.pending
            && t.ledger == t.chain && t.latestHash == Last(t.chain).currentHash)
  {
    if s.pool != [] {
      var t := Mine(c, s, clock);
      assert t.chain[..|s.chain|] == s.chain;
    }
  }

  lemma {:induction false} MineKeepsChainInv(c: Crypto, s: Node, base: nat, clock: nat -> int)
    requires ChainInv(c, s.chain, base)
    requires s.pool != []
    ensures var t := Mine(c, s, clock);
      ChainInv(c, t.chain, base) && t.ledger == t.chain && t.latestHash == Last(t.chain).currentHash
      && t.pool == [] && t.pending == s.pending
  {
    var t := Mine(c, s, clock);
    var n := |s.chain|;
    forall i | base <= i < |t.chain|
      ensures MinedAt(c, t.chain, i)
    {
      if i < n {
        assert MinedAt(c, s.chain, i);
        assert t.chain[i] == s.chain[i] && t.chain[i - 1] == s.chain[i - 1];
      } else {
        assert t.chain[i - 1] == Last(s.chain);
      }
    }
  }

  // ---------------------------------------------------------------------------
  // Properties of one request

  /** An unregistered or missing SUPI is refused whatever the request type, and nothing changes. */
  lemma UnknownSupiIsRefused(c: Crypto, s: Node, req: Request, rand: int, now: int, clock: nat -> int)
    requires s.chain != []
    requires req.uavSupi.None? || req.uavSupi.value !in UavDb
    ensures Handle(c, s, req, rand, now, clock) == Step(s, AuthFailure(UnknownSupiReason))
  {
  }

  /** `ERROR` is the reply exactly when a registered UAV sends an unrecognised type, and it changes nothing. */
  lemma ErrorOnlyForUnrecognisedType(c: Crypto, s: Node, req: Request, rand: int, now: int, clock: nat -> int)
    requires s.chain != []
    ensures var st := Handle(c, s, req, rand, now, clock);
      && (st.reply.Error? <==>
            KnownSupi(req) && req.rtype !in {Some(AuthRequest1), Some(AuthResponse2), Some(TelemetryTxType)})
      && (st.reply.Error? ==> st.node == s)
  {
  }

  /** The token in the request's `session_key` field plays no part in any step. */
  lemma SessionKeyFieldIsIgnored(c: Crypto, s: Node, req: Request, other: Option<Str>, rand: int, now: int, clock: nat -> int)
    requires s.chain != []
    ensures Handle(c, s, req.(sessionKey := other), rand, now, clock) == Handle(c, s, req, rand, now, clock)
  {
  }

  /**
   * AUTH_REQUEST_1 sets or replaces only that UAV's challenge, derived from the returned
   * challenge value; chain, pool, ledger and engine are untouched.
   */
  lemma AuthRequestIssuesChallenge(c: Crypto, s: Node, req: Request, rand: int, now: int, clock: nat -> int)
    requires s.chain != []
    requires KnownSupi(req) && req.rtype == Some(AuthRequest1)
    ensures var st := Handle(c, s, req, rand, now, clock);
      var supi := req.uavSupi.value;
      && st.reply == ChallengeIssued(rand, c.sha256(UavDb[supi] + supi + IntToStr(rand)), NodePublicKey)
      && st.node.chain == s.chain && st.node.pool == s.pool && st.node.ledger == s.ledger
      && st.node.latestHash == s.latestHash && st.node.sequenceCount == s.sequenceCount
      && st.node.pending.Keys == s.pending.Keys + {supi}
      && st.node.pending[supi].rand == rand && st.node.pending[supi].timestamp == now
      && ChallengeDerived(c, supi, st.node.pending[supi])
      && (forall other :: other in s.pending && other != supi ==> st.node.pending[other] == s.pending[other])
  {
  }

  /**
   * A matching AUTH_RESPONSE_2 consumes the challenge, mines one block holding the
   * earlier pool followed by the success transaction, empties the pool and returns KTx.
   */
  lemma AuthResponseSucceeds(c: Crypto, s: Node, base: nat, req: Request, rand: int, now: int, clock: nat -> int)
    requires NodeInv(c, s, base)
    requires KnownSupi(req) && req.rtype == Some(AuthResponse2)
    requires req.uavSupi.value in s.pending && req.resStar == Some(s.pending[req.uavSupi.value].xresStar)
    ensures var st := Handle(c, s, req, rand, now, clock);
      var supi := req.uavSupi.value;
      var ch := s.pending[supi];
      && st.reply == AuthSuccess(SessionKey(c, UavDb[supi], ch.rand))
      && st.node.pending == s.pending - {supi}
      && |st.node.chain| == |s.chain| + 1 && st.node.chain[..|s.chain|] == s.chain
      && Last(st.node.chain).previousHash == Last(s.chain).currentHash
      && Last(st.node.chain).transactions == s.pool + [AuthSuccessTx(AuthTxId(supi, now), supi, ch.ktxSim, ch.rand)]
      && st.node.pool == []
  {
    var supi := req.uavSupi.value;
    var ch := s.pending[supi];
    var s1 := s.(pool := s.pool + [AuthSuccessTx(AuthTxId(supi, now), supi, ch.ktxSim, ch.rand)], pending := s.pending - {supi});
    MineAppendsOneBlock(c, s1, clock);
  }

  /** A wrong response, or one with no challenge outstanding, is refused and changes nothing: the challenge stays. */
  lemma AuthResponseMismatchChangesNothing(c: Crypto, s: Node, req: Request, rand: int, now: int, clock: nat -> int)
    requires s.chain != []
    requires KnownSupi(req) && req.rtype == Some(AuthResponse2)
    requires req.uavSupi.value !in s.pending || req.resStar != Some(s.pending[req.uavSupi.value].xresStar)
    ensures Handle(c, s, req, rand, now, clock) == Step(s, AuthFailure(MismatchReason))
  {
  }

  /**
   * TELEMETRY_TX always joins the pool. With two already waiting it mines all three into
   * one block and acknowledges with that block's hash; otherwise the chain is unchanged
   * and the reply carries the first 10 characters of the last block's hash.
   */
  lemma TelemetryIsPooledAndBatched(c: Crypto, s: Node, base: nat, req: Request, rand: int, now: int, clock: nat -> int)
    requires NodeInv(c, s, base)
    requires KnownSupi(req) && req.rtype == Some(TelemetryTxType)
    ensures var st := Handle(c, s, req, rand, now, clock);
      var supi := req.uavSupi.value;
      var tx := TelemetryTx(TelemetryTxId(supi, now), supi, req.data);
      && st.node.pending == s.pending
      && (|s.pool| == BatchSize - 1 ==>
            && |st.node.chain| == |s.chain| + 1 && st.node.chain[..|s.chain|] == s.chain
            && Last(st.node.chain).transactions == s.pool + [tx]
            && st.node.pool == []
            && st.reply == TxBlockAck(Take(Last(st.node.chain).currentHash, 10), Last(st.node.chain).currentHash))
      && (|s.pool| < BatchSize - 1 ==>
            && st.node == s.(pool := s.pool + [tx])
            && st.reply == TxReceived(Take(Last(s.chain).currentHash, 10)))
  {
    var supi := req.uavSupi.value;
    MineAppendsOneBlock(c, s.(pool := s.pool + [TelemetryTx(TelemetryTxId(supi, now), supi, req.data)]), clock);
  }

  /** Every request keeps the invariant: at most two waiting transactions, challenges of registered UAVs only, a linked chain. */
  lemma {:induction false} HandlePreservesInv(c: Crypto, s: Node, base: nat, req: Request, rand: int, now: int, clock: nat -> int)
    requires NodeInv(c, s, base)
    ensures NodeInv(c, Handle(c, s, req, rand, now, clock).node, base)
  {
    if KnownSupi(req) {
      var supi := req.uavSupi.value;
      if req.rtype == Some(AuthRequest1) {
        AuthRequestIssuesChallenge(c, s, req, rand, now, clock);
      } else if req.rtype == Some(AuthResponse2) {
        if supi in s.pending && req.resStar == Some(s.pending[supi].xresStar) {
          var ch := s.pending[supi];
          var s1 := s.(pool := s.pool + [AuthSuccessTx(AuthTxId(supi, now), supi, ch.ktxSim, ch.rand)], pending := s.pending - {supi});
          MineKeepsChainInv(c, s1, base, clock);
        }
      } else if req.rtype == Some(TelemetryTxType) {
        var s1 := s.(pool := s.pool + [TelemetryTx(TelemetryTxId(supi, now), supi, req.data)]);
        if |s1.pool| >= BatchSize {
          MineKeepsChainInv(c, s1, base, clock);
        }
      }
    }
  }

  /** After a refused response the same outstanding challenge still accepts the right one. */
  lemma RetryAfterMismatchSucceeds(c: Crypto, s: Node, base: nat, req: Request, guess: Option<Str>,
                                   rand: int, now: int, clock: nat -> int)
    requires NodeInv(c, s, base)
    requires KnownSupi(req) && req.rtype == Some(AuthResponse2) && req.uavSupi.value in s.pending
    requires guess != Some(s.pending[req.uavSupi.value].xresStar)
    ensures var ch := s.pending[req.uavSupi.value];
      var first := Handle(c, s, req.(resStar := guess), rand, now, clock);
      && first == Step(s, AuthFailure(MismatchReason))
      && Handle(c, first.node, req.(resStar := Some(ch.xresStar)), rand, now, clock).reply == AuthSuccess(ch.ktxSim)
  {
    var ch := s.pending[req.uavSupi.value];
    AuthResponseMismatchChangesNothing(c, s, req.(resStar := guess), rand, now, clock);
    AuthResponseSucceeds(c, s, base, req.(resStar := Some(ch.xresStar)), rand, now, clock);
  }

  /**
   * Starting from an empty pool, two telemetry transactions are only acknowledged as
   * received; the third mines exactly one block holding all three, in arrival order.
   */
  lemma ThirdTelemetryMinesBatch(c: Crypto, s: Node, base: nat, r1: Request, r2: Request, r3: Request,
                                 rand: int, now1: int, now2: int, now3: int, clock: nat -> int)
    requires NodeInv(c, s, base) && s.pool == []
    requires KnownSupi(r1) && r1.rtype == Some(TelemetryTxType)
    requires KnownSupi(r2) && r2.rtype == Some(TelemetryTxType)
    requires KnownSupi(r3) && r3.rtype == Some(TelemetryTxType)
    ensures var a := Handle(c, s, r1, rand, now1, clock);
      var b := Handle(c, a.node, r2, rand, now2, clock);
      var d := Handle(c, b.node, r3, rand, now3, clock);
      && a.reply.TxReceived? && b.reply.TxReceived? && d.reply.TxBlockAck?
      && a.node.chain == s.chain && b.node.chain == s.chain
      && |d.node.chain| == |s.chain| + 1 && d.node.chain[..|s.chain|] == s.chain
      && Last(d.node.chain).transactions
         == [TelemetryTx(TelemetryTxId(r1.uavSupi.value, now1), r1.uavSupi.value, r1.data),
             TelemetryTx(TelemetryTxId(r2.uavSupi.value, now2), r2.uavSupi.value, r2.data),
             TelemetryTx(TelemetryTxId(r3.uavSupi.value, now3), r3.uavSupi.value, r3.data)]
      && d.node.pool == []
  {
    var t1 := TelemetryTx(TelemetryTxId(r1.uavSupi.value, now1), r1.uavSupi.value, r1.data);
    var t2 := TelemetryTx(TelemetryTxId(r2.uavSupi.value, now2), r2.uavSupi.value, r2.data);
    var a := Handle(c, s, r1, rand, now1, clock);
    TelemetryIsPooledAndBatched(c, s, base, r1, rand, now1, clock);
    HandlePreservesInv(c, s, base, r1, rand, now1, clock);
    assert a.node == s.(pool := [t1]);
    var b := Handle(c, a.node, r2, rand, now2, clock);
    TelemetryIsPooledAndBatched(c, a.node, base, r2, rand, now2, clock);
    HandlePreservesInv(c, a.node, base, r2, rand, now2, clock);
    assert b.node == s.(pool := [t1, t2]);
    TelemetryIsPooledAndBatched(c, b.node, base, r3, rand, now3, clock);
  }

  // ---------------------------------------------------------------------------
  // The node object

  class LeaderNode {
    const epoh: EpohCore
    var chain: seq<Block>
    var transactionPool: seq<Tx>
    var pendingAuthChallenges: map<Str, Challenge>
    /** The contents of the ledger file as last written. */
    var ledger: seq<Block>
    /** How many blocks were adopted at start-up (1 for a fresh genesis). */
    ghost const base: nat

    ghost function State(): Node
      reads this, epoh
    {
      Node(chain, transactionPool, pendingAuthChallenges, ledger, epoh.latestHash, epoh.sequenceCount)
    }

    ghost predicate Valid()
      reads this, epoh
    {
      epoh.difficulty == LeaderDifficulty && NodeInv(epoh.crypto, State(), base)
    }

    /** `stored` is the ledger file as parsed at start-up: `None` when missing or not valid JSON. */
    constructor (crypto: Crypto, stored: Option<seq<Block>>, now: int)
      ensures fresh(epoh) && epoh.crypto == crypto
      ensures Valid() && base == BootBase(stored)
      ensures State() == Boot(crypto, stored, now)
    {
      epoh := new EpohCore(crypto, LeaderDifficulty);
      chain := [];
      transactionPool := [];
      pendingAuthChallenges := map[];
      ledger := if stored.Some? then stored.value else [];
      base := BootBase(stored);
      new;
      LoadChain(stored);
      if chain == [] {
        CreateGenesisBlock(now);
      }
      BootEstablishesInv(crypto, stored, now);
    }

    /** Adopts the parsed ledger; an empty one fails at `chain[-1]` and leaves an empty chain. */
    method LoadChain(stored: Option<seq<Block>>)
      modifies this`chain, epoh`latestHash
      ensures chain == if Adopts(stored) then stored.value else []
      ensures epoh.latestHash == if Adopts(stored) then Last(chain).currentHash else old(epoh.latestHash)
    {
      if stored.Some? {
        chain := stored.value;
        if chain == [] {
          chain := [];
        } else {
          epoh.latestHash := Last(chain).currentHash;
        }
      } else {
        chain := [];
      }
    }

    method SaveChain()
      modifies this`ledger
      ensures ledger == chain
    {
      ledger := chain;
    }

    /** Appends the genesis block, whose hash is one engine step from the current digest, and saves. */
    method CreateGenesisBlock(now: int)
      modifies this`chain, this`ledger, epoh
      ensures chain == old(chain) + [GenesisBlock(epoh.crypto, old(epoh.latestHash), now)]
      ensures ledger == chain
      ensures epoh.latestHash == epoh.crypto.sha256(old(epoh.latestHash))
      ensures epoh.sequenceCount == old(epoh.sequenceCount) + 1
    {
      var h := epoh.GenerateSequentialHash();
      epoh.latestHash := h;
      var genesisBlock := Block(0, now, "0", [ChainStart], [GenesisTx], epoh.latestHash);
      chain := chain + [genesisBlock];
      SaveChain();
    }

    method MineBlock(clock: nat -> int)
      requires epoh.difficulty == LeaderDifficulty
      requires transactionPool != [] ==> chain != []
      modifies this, epoh
      ensures State() == Mine(epoh.crypto, old(State()), clock)
    {
      if transactionPool == [] {
        return;
      }
      var lastHash := Last(chain).currentHash;
      var newBlock := epoh.CreateBlock(transactionPool, lastHash, |chain|, clock);
      chain := chain + [newBlock];
      SaveChain();
      transactionPool := [];
    }

    method HandleUavRequest(request: Request, rand: int, now: int, clock: nat -> int) returns (response: Response)
      requires Valid()
      modifies this, epoh
      ensures Valid()
      ensures Step(State(), response) == Handle(epoh.crypto, old(State()), request, rand, now, clock)
    {
      ghost var s0 := State();
      HandlePreservesInv(epoh.crypto, s0, base, request, rand, now, clock);
      var requestType := request.rtype;
      var uavSupi := request.uavSupi;
      if uavSupi.None? || uavSupi.value !in UavDb {
        return AuthFailure(UnknownSupiReason);
      }
      var supi := uavSupi.value;
      var longTermKey := UavDb[supi];

      if requestType == Some(AuthRequest1) {
        var av := GenerateAuthVector(epoh.crypto, supi, longTermKey, rand);
        pendingAuthChallenges := pendingAuthChallenges[supi := Challenge(av.xresStar, av.ktx, av.rand, now)];
        response := ChallengeIssued(av.rand, av.autn, NodePublicKey);
      } else if requestType == Some(AuthResponse2) {
        var resStarReceived := request.resStar;
        if supi in pendingAuthChallenges && resStarReceived == Some(pendingAuthChallenges[supi].xresStar) {
          var pendingChallenge := pendingAuthChallenges[supi];
          var sessionKey := pendingChallenge.ktxSim;
          var successTx := AuthSuccessTx(AuthTxId(supi, now), supi, sessionKey, pendingChallenge.rand);
          transactionPool := transactionPool + [successTx];
          pendingAuthChallenges := pendingAuthChallenges - {supi};
          MineBlock(clock);
          response := AuthSuccess(sessionKey);
        } else {
          response := AuthFailure(MismatchReason);
        }
      } else if requestType == Some(TelemetryTxType) {
        transactionPool := transactionPool + [TelemetryTx(TelemetryTxId(supi, now), supi, request.data)];
        if |transactionPool| >= BatchSize {
          MineBlock(clock);
          response := TxBlockAck(Take(Last(chain).currentHash, 10), Last(chain).currentHash);
        } else {
          response := TxReceived(Take(epoh.latestHash, 10));
        }
      } else {
        response := Error(InvalidTypeReason);
      }
    }
  }
}
