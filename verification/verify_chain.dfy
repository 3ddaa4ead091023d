/**
 * The independent ledger auditor: recomputes each block's canonical hash and
 * checks the links and the chronology, failing fast at the first bad block.
 */
module ChainVerifier {
  import opened Text
  import opened Primitives
  import opened Ledger

  /** The canonical hash of a block: its dictionary without `current_hash`, serialised with sorted keys, hashed. */
  function HashBlock(c: Crypto, block: Block): Str {
    c.sha256(c.dumps(JObject(HashedFields(block))))
  }

  /** What is hashed is exactly the stored dictionary with its `current_hash` key removed. */
  lemma HashedFieldsDropCurrentHash(block: Block)
    ensures HashedFields(block) == BlockJson(block) - {"current_hash"}
    ensures BlockJson(block).Keys == HashedFields(block).Keys + {"current_hash"}
  {
    assert "current_hash" !in HashedFields(block);
  }

  /** The stored `current_hash` takes no part in the canonical hash. */
  lemma HashBlockIgnoresCurrentHash(c: Crypto, block: Block, other: Str)
    ensures HashBlock(c, block.(currentHash := other)) == HashBlock(c, block)
  {
  }

  /** What the audit reports: success, or the reason and the first offending index. */
  datatype Verdict =
    | Pass
    | EmptyChain
    | BadGenesis
    | BrokenLink(at: nat, stored: Str, recalculated: Str)
    | ChronologyFailure(at: nat)

  predicate LinkOk(c: Crypto, chain: seq<Block>, i: nat)
    requires 1 <= i < |chain|
  {
    chain[i].previousHash == HashBlock(c, chain[i - 1])
  }

  predicate ChronoOk(chain: seq<Block>, i: nat)
    requires 1 <= i < |chain|
  {
    chain[i].timestamp > chain[i - 1].timestamp
  }

  predicate BlockOk(c: Crypto, chain: seq<Block>, i: nat)
    requires 1 <= i < |chain|
  {
    LinkOk(c, chain, i) && ChronoOk(chain, i)
  }

  /** The three conditions of a valid ledger, stated independently of the scan order. */
  ghost predicate WellFormedChain(c: Crypto, chain: seq<Block>) {
    && |chain| > 0
    && chain[0].previousHash == "0"
    && forall i :: 1 <= i < |chain| ==> BlockOk(c, chain, i)
  }

  /** The scan of indices `i`, `i + 1`, ...: the first failing index, link checked before chronology. */
  function CheckFrom(c: Crypto, chain: seq<Block>, i: nat): (v: Verdict)
    requires 1 <= i <= |chain|
    ensures v.Pass? || v.BrokenLink? || v.ChronologyFailure?
    ensures !v.Pass? ==> i <= v.at < |chain|
    decreases |chain| - i
  {
    if i == |chain| then Pass
    else if !LinkOk(c, chain, i) then BrokenLink(i, chain[i].previousHash, HashBlock(c, chain[i - 1]))
    else if !ChronoOk(chain, i) then ChronologyFailure(i)
    else CheckFrom(c, chain, i + 1)
  }

  /** The scan from `i` passes exactly when every block from `i` on links and advances. */
  lemma {:induction false} CheckFromPassIff(c: Crypto, chain: seq<Block>, i: nat)
    requires 1 <= i <= |chain|
    ensures CheckFrom(c, chain, i).Pass? <==> forall j :: i <= j < |chain| ==> BlockOk(c, chain, j)
    decreases |chain| - i
  {
    if i < |chain| && BlockOk(c, chain, i) {
      assert CheckFrom(c, chain, i) == CheckFrom(c, chain, i + 1);
      CheckFromPassIff(c, chain, i + 1);
    }
  }

  /**
   * A broken link reported by the scan from `i` is the first offending index: every
   * block between `i` and it passes, and it carries the stored and the recomputed hash.
   */
  lemma {:induction false} CheckFromBrokenLinkIsFirst(c: Crypto, chain: seq<Block>, i: nat)
    requires 1 <= i <= |chain|
    ensures var v := CheckFrom(c, chain, i);
      v.BrokenLink? ==>
        && !LinkOk(c, chain, v.at)
        && v.stored == chain[v.at].previousHash && v.recalculated == HashBlock(c, chain[v.at - 1])
        && forall j :: i <= j < v.at ==> BlockOk(c, chain, j)
    decreases |chain| - i
  {
    if i < |chain| && BlockOk(c, chain, i) {
      assert CheckFrom(c, chain, i) == CheckFrom(c, chain, i + 1);
      CheckFromBrokenLinkIsFirst(c, chain, i + 1);
    }
  }

  /**
   * A chronology failure reported by the scan from `i` is the first offending index,
   * and it is reported only where the link holds.
   */
  lemma {:induction false} CheckFromChronologyFailureIsFirst(c: Crypto, chain: seq<Block>, i: nat)
    requires 1 <= i <= |chain|
    ensures var v := CheckFrom(c, chain, i);
      v.ChronologyFailure? ==>
        && LinkOk(c, chain, v.at) && !ChronoOk(chain, v.at)
        && forall j :: i <= j < v.at ==> BlockOk(c, chain, j)
    decreases |chain| - i
  {
    if i < |chain| && BlockOk(c, chain, i) {
      assert CheckFrom(c, chain, i) == CheckFrom(c, chain, i + 1);
      CheckFromChronologyFailureIsFirst(c, chain, i + 1);
    }
  }

  /** The audit of a whole ledger snapshot. */
  function Verify(c: Crypto, chain: seq<Block>): Verdict {
    if chain == [] then EmptyChain
    else if chain[0].previousHash != "0" then BadGenesis
    else CheckFrom(c, chain, 1)
  }

  /** `is_valid_chain` on a ledger already read from disk: a scan from index 1 with early returns. */
  method IsValidChain(c: Crypto, chain: seq<Block>) returns (v: Verdict)
    ensures v == Verify(c, chain)
  {
    if chain == [] {
      return EmptyChain;
    }
    if chain[0].previousHash != "0" {
      return BadGenesis;
    }
    for i := 1 to |chain|
      invariant CheckFrom(c, chain, i) == CheckFrom(c, chain, 1)
    {
      var currentBlock := chain[i];
      var previousBlock := chain[i - 1];
      var recalculatedHash := HashBlock(c, previousBlock);
      if currentBlock.previousHash != recalculatedHash {
        return BrokenLink(i, currentBlock.previousHash, recalculatedHash);
      }
      if currentBlock.timestamp <= previousBlock.timestamp {
        return ChronologyFailure(i);
      }
    }
    return Pass;
  }

  /** A ledger passes exactly when it is non-empty, starts from the sentinel and every later block links and advances. */
  lemma VerifyPassIff(c: Crypto, chain: seq<Block>)
    ensures Verify(c, chain) == Pass <==> WellFormedChain(c, chain)
  {
    if chain != [] && chain[0].previousHash == "0" {
      CheckFromPassIff(c, chain, 1);
    }
  }

  /** An empty ledger and a ledger whose genesis does not point at '0' are rejected before any scan. */
  lemma VerifyRejectsBadStart(c: Crypto, chain: seq<Block>)
    ensures chain == [] ==> Verify(c, chain) == EmptyChain
    ensures chain != [] && chain[0].previousHash != "0" ==> Verify(c, chain) == BadGenesis
  {
  }

  /**
   * A failure names the smallest offending index: every block before it passes both checks,
   * and a chronology failure is only reported where the link holds.
   */
  lemma VerifyReportsFirstFailure(c: Crypto, chain: seq<Block>)
    ensures var v := Verify(c, chain);
      && (v.BrokenLink? ==>
            && 1 <= v.at < |chain| && chain[0].previousHash == "0" && !LinkOk(c, chain, v.at)
            && forall j :: 1 <= j < v.at ==> BlockOk(c, chain, j))
      && (v.ChronologyFailure? ==>
            && 1 <= v.at < |chain| && chain[0].previousHash == "0"
            && LinkOk(c, chain, v.at) && !ChronoOk(chain, v.at)
            && forall j :: 1 <= j < v.at ==> BlockOk(c, chain, j))
  {
    if chain != [] && chain[0].previousHash == "0" {
      CheckFromBrokenLinkIsFirst(c, chain, 1);
      CheckFromChronologyFailureIsFirst(c, chain, 1);
    }
  }

  /** A lone block whose previous hash is the sentinel is a valid ledger. */
  lemma SingleGenesisPasses(c: Crypto, genesis: Block)
    requires genesis.previousHash == "0"
    ensures Verify(c, [genesis]) == Pass
  {
  }

  /** Every non-empty prefix of a valid ledger is valid. */
  lemma PrefixOfValidPasses(c: Crypto, chain: seq<Block>, n: nat)
    requires Verify(c, chain) == Pass
    requires 1 <= n <= |chain|
    ensures Verify(c, chain[..n]) == Pass
  {
    VerifyPassIff(c, chain);
    var prefix := chain[..n];
    forall i | 1 <= i < n
      ensures BlockOk(c, prefix, i)
    {
      assert BlockOk(c, chain, i);
    }
    VerifyPassIff(c, prefix);
  }

  /**
   * Replacing block i - 1 of a valid ledger by one whose canonical hash differs is
   * reported, at index i at the latest.
   */
  lemma TamperingIsDetected(c: Crypto, chain: seq<Block>, i: nat, forged: Block)
    requires Verify(c, chain) == Pass
    requires 1 <= i < |chain|
    requires HashBlock(c, forged) != HashBlock(c, chain[i - 1])
    ensures var v := Verify(c, chain[i - 1 := forged]);
      (v.BadGenesis? && i == 1) || (v.BrokenLink? && v.at <= i) || (v.ChronologyFailure? && v.at < i)
  {
    var tampered := chain[i - 1 := forged];
    VerifyPassIff(c, chain);
    assert BlockOk(c, chain, i);
    assert !LinkOk(c, tampered, i) && !BlockOk(c, tampered, i);
    assert i > 1 ==> tampered[0] == chain[0];
    VerifyPassIff(c, tampered);
    VerifyReportsFirstFailure(c, tampered);
  }
}
