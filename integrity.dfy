/** The hash-linkage check the test suite performs by hand over a chain. */
module Integrity {
  import opened JsonValues

  /** `curr` records the hash of `prev` under "previous_hash". */
  predicate LinksTo(hash: Json -> string, prev: Json, curr: Json)
  {
    curr.JObj? && "previous_hash" in curr.fields && curr.fields["previous_hash"] == JStr(hash(prev))
  }

  /** Every block after the first records the hash of the block before it. */
  predicate Linked(hash: Json -> string, chain: seq<Json>)
  {
    forall k :: 1 <= k < |chain| ==> LinksTo(hash, chain[k - 1], chain[k])
  }

  /** The integrity loop of the tampering test: walk the chain keeping the
      previous block, and stop at the first block whose "previous_hash" is
      not the hash of its predecessor. */
  method CheckLinkage(hash: Json -> string, chain: seq<Json>) returns (isValid: bool)
    requires |chain| > 0
    ensures isValid <==> Linked(hash, chain)
  {
    isValid := true;
    var prev := chain[0];
    var i := 1;
    while i < |chain|
      invariant 1 <= i <= |chain|
      invariant prev == chain[i - 1]
      invariant forall k :: 1 <= k < i ==> LinksTo(hash, chain[k - 1], chain[k])
    {
      var curr := chain[i];
      if !LinksTo(hash, prev, curr) {
        isValid := false;
        break;
      }
      prev := curr;
      i := i + 1;
    }
  }

  /** Replacing a block that has a successor by one with a different hash,
      without touching the successor, breaks the successor's link. */
  lemma TamperingBreaksLink(hash: Json -> string, chain: seq<Json>, k: nat, forged: Json)
    requires Linked(hash, chain)
    requires k + 1 < |chain|
    requires hash(forged) != hash(chain[k])
    ensures !Linked(hash, chain[k := forged])
  {
    var tampered := chain[k := forged];
    assert tampered[k + 1] == chain[k + 1];
    assert !LinksTo(hash, tampered[k], tampered[k + 1]);
  }

  /** Replacing the last block by any dict that keeps its "previous_hash"
      leaves the chain linked: no block records the hash of the last one,
      so the linkage check cannot see the change. */
  lemma TamperingLastBlockUndetected(hash: Json -> string, chain: seq<Json>, forged: Json)
    requires 2 <= |chain| && Linked(hash, chain)
    requires forged.JObj? && chain[|chain| - 1].JObj?
    requires Get(forged.fields, "previous_hash") == Get(chain[|chain| - 1].fields, "previous_hash")
    ensures Linked(hash, chain[|chain| - 1 := forged])
  {
    var last := |chain| - 1;
    var tampered := chain[last := forged];
    assert LinksTo(hash, chain[last - 1], chain[last]);
    forall k | 1 <= k < |tampered|
      ensures LinksTo(hash, tampered[k - 1], tampered[k])
    {
      if k == last {
        assert tampered[k - 1] == chain[k - 1];
      } else {
        assert LinksTo(hash, chain[k - 1], chain[k]);
      }
    }
  }

  /** The tampering test's own chain: a genesis block and one block linked
      to it. Editing the second block's transactions, which leaves its
      "previous_hash" alone, keeps the chain linked, so the test's loop
      reports it valid. */
  lemma TamperingTestChainStaysLinked(hash: Json -> string, genesis: Json, block: Json, edited: Json)
    requires LinksTo(hash, genesis, block)
    ensures Linked(hash, [genesis, JObj(block.fields["transactions" := edited])])
  {
    TamperingLastBlockUndetected(hash, [genesis, block], JObj(block.fields["transactions" := edited]));
    assert [genesis, block][1 := JObj(block.fields["transactions" := edited])] == [genesis, JObj(block.fields["transactions" := edited])];
  }
}
