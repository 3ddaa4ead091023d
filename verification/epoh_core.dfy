/**
 * The proof-of-history engine and the authentication derivations it ships with.
 * The engine keeps a running digest and a step counter; a block is built by
 * resetting the digest to the previous block's hash and, per transaction,
 * re-hashing `difficulty` times and then hashing in the transaction.
 */
module Epoh {
  import opened Text
  import opened Primitives
  import opened Ledger

  // ---------------------------------------------------------------------------
  // The hash chain as functions of its inputs

  /** The digest after `n` plain steps from `h`. */
  function Advance(c: Crypto, h: Str, n: nat): Str
    decreases n
  {
    if n == 0 then h else c.sha256(Advance(c, h, n - 1))
  }

  /** The digest after the transaction `tx` is embedded into `h`. */
  function Embed(c: Crypto, h: Str, tx: Tx): Str {
    c.sha256(h + c.dumps(TxJson(tx)))
  }

  /** The digest a block build reaches from `previous` after processing `txs` in order. */
  function PohHash(c: Crypto, previous: Str, difficulty: nat, txs: seq<Tx>): Str
    decreases |txs|
  {
    if txs == [] then previous
    else Embed(c, Advance(c, PohHash(c, previous, difficulty, txs[..|txs| - 1]), difficulty), txs[|txs| - 1])
  }

  /** The event log a block build records: one entry per transaction, taken right after it is embedded. */
  function EventLog(c: Crypto, previous: Str, difficulty: nat, txs: seq<Tx>, clock: nat -> int): (log: seq<Event>)
    ensures |log| == |txs|
    decreases |txs|
  {
    if txs == [] then []
    else
      EventLog(c, previous, difficulty, txs[..|txs| - 1], clock)
        + [TxEmbedded(clock(|txs| - 1), PohHash(c, previous, difficulty, txs), TxId(txs[|txs| - 1]))]
  }

  /**
   * The block a build returns. `clock(k)` is the wall-clock reading taken when the
   * k-th transaction is embedded and `clock(|txs|)` the one stamped on the block.
   */
  function BuildBlock(c: Crypto, difficulty: nat, txs: seq<Tx>, previous: Str, index: int, clock: nat -> int): Block {
    Block(index, clock(|txs|), previous, EventLog(c, previous, difficulty, txs, clock), txs,
          PohHash(c, previous, difficulty, txs))
  }

  /** Extending the transaction list by one costs `difficulty` plain steps and one embedding. */
  lemma PohHashSnoc(c: Crypto, previous: Str, difficulty: nat, txs: seq<Tx>, tx: Tx)
    ensures PohHash(c, previous, difficulty, txs + [tx])
         == Embed(c, Advance(c, PohHash(c, previous, difficulty, txs), difficulty), tx)
  {
    assert (txs + [tx])[..|txs|] == txs;
  }

  /** Extending the transaction list by one appends exactly the entry for the new transaction. */
  lemma EventLogSnoc(c: Crypto, previous: Str, difficulty: nat, txs: seq<Tx>, tx: Tx, clock: nat -> int)
    ensures EventLog(c, previous, difficulty, txs + [tx], clock)
         == EventLog(c, previous, difficulty, txs, clock)
            + [TxEmbedded(clock(|txs|), PohHash(c, previous, difficulty, txs + [tx]), TxId(tx))]
  {
    assert (txs + [tx])[..|txs|] == txs;
  }

  /** Entry k of the event log carries transaction k's id and the digest right after its embedding. */
  lemma {:induction false} EventLogAt(c: Crypto, previous: Str, difficulty: nat, txs: seq<Tx>, clock: nat -> int, k: nat)
    requires k < |txs|
    ensures EventLog(c, previous, difficulty, txs, clock)[k]
         == TxEmbedded(clock(k), PohHash(c, previous, difficulty, txs[..k + 1]), TxId(txs[k]))
    decreases |txs|
  {
    var n := |txs|;
    if k < n - 1 {
      EventLogAt(c, previous, difficulty, txs[..n - 1], clock, k);
      assert txs[..n - 1][..k + 1] == txs[..k + 1];
    } else {
      assert txs[..k + 1] == txs;
    }
  }

  /**
   * The block's hash is the digest of its last event, or the previous hash when it
   * embeds nothing; neither depends on the clock readings or on the index.
   */
  lemma BlockHashIsLastEvent(c: Crypto, difficulty: nat, txs: seq<Tx>, previous: Str, index: int, clock: nat -> int)
    ensures var b := BuildBlock(c, difficulty, txs, previous, index, clock);
      && b.previousHash == previous && b.transactions == txs && b.index == index
      && |b.eventLog| == |txs|
      && (txs == [] ==> b.currentHash == previous)
      && (txs != [] ==> b.currentHash == b.eventLog[|txs| - 1].hashAtEvent)
  {
    if txs != [] {
      EventLogAt(c, previous, difficulty, txs, clock, |txs| - 1);
      assert txs[..|txs|] == txs;
    }
  }

  /** The block hash depends only on the previous hash, the transactions and the difficulty, not on the clock or the index. */
  lemma BlockHashIsDeterministic(c: Crypto, difficulty: nat, txs: seq<Tx>, previous: Str,
                                 index1: int, clock1: nat -> int, index2: int, clock2: nat -> int)
    ensures BuildBlock(c, difficulty, txs, previous, index1, clock1).currentHash
         == BuildBlock(c, difficulty, txs, previous, index2, clock2).currentHash
  {
  }

  /** Two builds over the same inputs record the same digest and transaction id in every event, whatever the clock. */
  lemma {:induction false} EventHashesAreDeterministic(c: Crypto, difficulty: nat, txs: seq<Tx>, previous: Str,
                                                       index1: int, clock1: nat -> int, index2: int, clock2: nat -> int, k: nat)
    requires k < |txs|
    ensures var e1 := BuildBlock(c, difficulty, txs, previous, index1, clock1).eventLog[k];
            var e2 := BuildBlock(c, difficulty, txs, previous, index2, clock2).eventLog[k];
            e1.TxEmbedded? && e2.TxEmbedded? && e1.hashAtEvent == e2.hashAtEvent && e1.txId == e2.txId
  {
    EventLogAt(c, previous, difficulty, txs, clock1, k);
    EventLogAt(c, previous, difficulty, txs, clock2, k);
  }

  /** One more round of `d` steps: the step counter's closed form for the next transaction. */
  lemma MulSucc(i: nat, d: nat)
    ensures (i + 1) * d == i * d + d
  {
  }

  // ---------------------------------------------------------------------------
  // The engine object

  class EpohCore {
    const crypto: Crypto
    const difficulty: nat
    var latestHash: Str
    var sequenceCount: nat

    constructor (crypto: Crypto, difficulty: nat)
      ensures this.crypto == crypto && this.difficulty == difficulty
      ensures latestHash == Zeros64 && sequenceCount == 0
    {
      this.crypto := crypto;
      this.difficulty := difficulty;
      latestHash := Zeros64;
      sequenceCount := 0;
    }

    /** One plain step: the digest is re-hashed and the counter advances by one. */
    method GenerateSequentialHash() returns (newHash: Str)
      modifies this
      ensures latestHash == crypto.sha256(old(latestHash)) && newHash == latestHash
      ensures sequenceCount == old(sequenceCount) + 1
    {
      newHash := crypto.sha256(latestHash);
      latestHash := newHash;
      sequenceCount := sequenceCount + 1;
    }

    /** Hashes the canonical form of `payload` onto the digest; `now` is the wall clock. */
    method EmbedTransaction(payload: Tx, now: int) returns (time: int, hash: Str)
      modifies this
      ensures latestHash == Embed(crypto, old(latestHash), payload) && hash == latestHash
      ensures sequenceCount == old(sequenceCount) + 1
      ensures time == now
    {
      var dataString := crypto.dumps(TxJson(payload));
      latestHash := crypto.sha256(latestHash + dataString);
      sequenceCount := sequenceCount + 1;
      return now, latestHash;
    }

    /** The loop both versions of `create_block` share: reset, then step and embed per transaction. */
    method RunPoh(transactions: seq<Tx>, previousHash: Str, clock: nat -> int) returns (eventLog: seq<Event>)
      modifies this
      ensures eventLog == EventLog(crypto, previousHash, difficulty, transactions, clock)
      ensures latestHash == PohHash(crypto, previousHash, difficulty, transactions)
      ensures sequenceCount == |transactions| * (difficulty + 1)
    {
      latestHash := previousHash;
      sequenceCount := 0;
      eventLog := [];
      for i := 0 to |transactions|
        invariant latestHash == PohHash(crypto, previousHash, difficulty, transactions[..i])
        invariant eventLog == EventLog(crypto, previousHash, difficulty, transactions[..i], clock)
        invariant sequenceCount == i * (difficulty + 1)
      {
        ghost var before := latestHash;
        ghost var count0 := sequenceCount;
        for j := 0 to difficulty
          invariant latestHash == Advance(crypto, before, j)
          invariant sequenceCount == count0 + j
        {
          var _ := GenerateSequentialHash();
        }
        var txTime, txHash := EmbedTransaction(transactions[i], clock(i));
        assert transactions[..i + 1] == transactions[..i] + [transactions[i]];
        PohHashSnoc(crypto, previousHash, difficulty, transactions[..i], transactions[i]);
        EventLogSnoc(crypto, previousHash, difficulty, transactions[..i], transactions[i], clock);
        MulSucc(i, difficulty + 1);
        eventLog := eventLog + [TxEmbedded(txTime, txHash, TxId(transactions[i]))];
      }
      assert transactions[..|transactions|] == transactions;
    }

    /** `create_block` of the leader's copy: the index is the chain length it is given plus one. */
    method CreateBlock(transactions: seq<Tx>, previousHash: Str, currentChainLength: int, clock: nat -> int)
      returns (block: Block)
      modifies this
      ensures block == BuildBlock(crypto, difficulty, transactions, previousHash, currentChainLength + 1, clock)
      ensures latestHash == block.currentHash
      ensures sequenceCount == |transactions| * (difficulty + 1)
    {
      var eventLog := RunPoh(transactions, previousHash, clock);
      block := Block(currentChainLength + 1, clock(|transactions|), previousHash, eventLog, transactions, latestHash);
    }

    /** `create_block` of the standalone engine, which has no `chain` attribute: the index is always 1. */
    method CreateStandaloneBlock(transactions: seq<Tx>, previousHash: Str, clock: nat -> int) returns (block: Block)
      modifies this
      ensures block == BuildBlock(crypto, difficulty, transactions, previousHash, 1, clock)
      ensures latestHash == block.currentHash
      ensures sequenceCount == |transactions| * (difficulty + 1)
    {
      var eventLog := RunPoh(transactions, previousHash, clock);
      block := Block(1, clock(|transactions|), previousHash, eventLog, transactions, latestHash);
    }
  }

  // ---------------------------------------------------------------------------
  // Authentication derivations

  const NodePublicKey: Str := "NodePubKey_Sim"

  /** KTx: the first 16 characters of H(K ‖ str(rand)). */
  function SessionKey(c: Crypto, longTermKey: Str, rand: int): (ktx: Str)
    ensures var h := c.sha256(longTermKey + IntToStr(rand));
      ktx <= h && |ktx| == if |h| < 16 then |h| else 16
  {
    Take(c.sha256(longTermKey + IntToStr(rand)), 16)
  }

  /** The authentication vector (RAND, AUTN, XRES*, KTx) issued for one challenge. */
  datatype AuthVector = AuthVector(rand: int, autn: Str, xresStar: Str, ktx: Str)

  /** `rand` is the challenge value, `int(time.time() * 1000)` at issuance. */
  function GenerateAuthVector(c: Crypto, uavSupi: Str, longTermKey: Str, rand: int): (av: AuthVector)
    ensures av.rand == rand
    ensures av.autn == c.sha256(longTermKey + uavSupi + IntToStr(rand))
    ensures var h := c.sha256(longTermKey + IntToStr(rand) + "Expected");
      av.xresStar <= h && |av.xresStar| == if |h| < 10 then |h| else 10
    ensures av.ktx == SessionKey(c, longTermKey, rand)
  {
    var autn := c.sha256(longTermKey + uavSupi + IntToStr(rand));
    var xresStar := Take(c.sha256(longTermKey + IntToStr(rand) + "Expected"), 10);
    AuthVector(rand, autn, xresStar, SessionKey(c, longTermKey, rand))
  }

  /** With 64-character digests the truncations are exact: 10 characters of XRES*, 16 of KTx. */
  lemma AuthVectorShape(c: Crypto, uavSupi: Str, longTermKey: Str, rand: int)
    requires HexDigests(c)
    ensures var av := GenerateAuthVector(c, uavSupi, longTermKey, rand);
      && |av.autn| == 64 && |av.xresStar| == 10 && |av.ktx| == 16
      && av.ktx == c.sha256(longTermKey + IntToStr(rand))[..16]
  {
  }

  /** For one key, different challenge values give different preimages for KTx, XRES* and AUTN. */
  lemma DistinctChallengesDistinctPreimages(uavSupi: Str, longTermKey: Str, rand1: int, rand2: int)
    requires rand1 != rand2
    ensures longTermKey + IntToStr(rand1) != longTermKey + IntToStr(rand2)
    ensures longTermKey + IntToStr(rand1) + "Expected" != longTermKey + IntToStr(rand2) + "Expected"
    ensures longTermKey + uavSupi + IntToStr(rand1) != longTermKey + uavSupi + IntToStr(rand2)
  {
    var s1, s2 := IntToStr(rand1), IntToStr(rand2);
    IntToStrInjective(rand1, rand2);
    CancelPrefix(longTermKey, s1, s2);
    CancelSuffix(longTermKey + s1, longTermKey + s2, "Expected");
    CancelPrefix(longTermKey + uavSupi, s1, s2);
  }
}
