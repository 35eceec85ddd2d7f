/** fix_chain.py's repair routine as the loops it runs: clean_transaction
    rewrites one transaction, clean_chain walks the chain once and builds the
    repaired list. Each is proved to compute its specification in CleanSpec. */
module FixChain {
  import opened JsonValues
  import opened Text
  import opened Integrity
  import opened CleanSpec

  /** clean_transaction: the items value is read (None when missing),
      serialised unless it is a string, replaced by the marker when it shows
      a leaked representation, and written back. */
  method CleanTransaction(serialize: Json -> string, tx: Json) returns (r: Result<Json>)
    ensures r == CleanTx(serialize, tx)
    ensures r.Ok? <==> tx.JObj?
    ensures r.Ok? ==> CleanedTx(r.value)
    ensures r.Ok? ==> forall key :: key in tx.fields && key != "items" ==> r.value.fields[key] == tx.fields[key]
  {
    if !tx.JObj? {
      return Err(NotAnObject);
    }
    var items := Get(tx.fields, "items");
    var text: string;
    if items.JStr? {
      text := items.s;
    } else {
      text := serialize(items);
    }
    if Contains(text, BuiltInArtifact) || Contains(text, AddressArtifact) {
      text := Marker;
    }
    r := Ok(JObj(tx.fields["items" := JStr(text)]));
    CleanTxChangesOnlyItems(serialize, tx);
  }

  /** The body of clean_chain's loop for the block at position |cleaned|
      (0-based): fix its index, relink it to the repaired block before it,
      and replace its transactions by their cleaned versions. */
  method RepairOne(hash: Json -> string, serialize: Json -> string, cleaned: seq<Json>, block: Json) returns (r: Result<Json>)
    ensures r == RepairBlock(hash, serialize, cleaned, block)
    ensures r.Ok? <==> WellFormedBlock(block)
  {
    if !block.JObj? {
      return Err(NotAnObject);
    }
    var i := |cleaned|;
    var fields := block.fields;

    var blockIndex := if "index" in fields then fields["index"] else JInt(i + 1);
    if !PyEqualsInt(blockIndex, i + 1) {
      fields := fields["index" := JInt(i + 1)];
    }

    if i > 0 {
      var expectedPrev := hash(cleaned[i - 1]);
      if Get(fields, "previous_hash") != JStr(expectedPrev) {
        fields := fields["previous_hash" := JStr(expectedPrev)];
      }
    }
    assert fields == Relink(hash, cleaned, Renumber(block.fields, i + 1));

    var txs := TxSource(fields);
    if txs.Err? {
      return Err(txs.fault);
    }
    var fixedTxs := CleanTransactions(serialize, txs.value);
    if fixedTxs.Err? {
      return Err(fixedTxs.fault);
    }
    r := Ok(JObj(fields["transactions" := JArr(fixedTxs.value)]));
  }

  /** fix_chain.py:82-85, in clean_chain: clean each transaction of a block in
      order, collecting the results in `fixed`. */
  method CleanTransactions(serialize: Json -> string, txs: seq<Json>) returns (r: Result<seq<Json>>)
    ensures r == CleanTxs(serialize, txs)
    ensures r.Ok? <==> forall k :: 0 <= k < |txs| ==> txs[k].JObj?
    ensures r.Ok? ==> |r.value| == |txs| && forall k :: 0 <= k < |txs| ==> CleanedTx(r.value[k])
  {
    var fixed: seq<Json> := [];
    var j := 0;
    while j < |txs|
      invariant 0 <= j <= |txs|
      invariant |fixed| == j
      invariant forall k :: 0 <= k < j ==> CleanTx(serialize, txs[k]) == Ok(fixed[k])
    {
      var tx := CleanTransaction(serialize, txs[j]);
      if tx.Err? {
        assert !txs[j].JObj?;
        return Err(tx.fault);
      }
      fixed := fixed + [tx.value];
      j := j + 1;
    }
    CleanTxsElementwise(serialize, txs, fixed);
    r := Ok(fixed);
  }

  /** clean_chain: repair each block in order against the blocks repaired
      before it, collecting the results in `cleaned`. */
  method CleanChain(hash: Json -> string, serialize: Json -> string, chain: seq<Json>) returns (r: Result<seq<Json>>)
    ensures r == CleanBlocks(hash, serialize, chain)
    ensures r.Ok? <==> forall k :: 0 <= k < |chain| ==> WellFormedBlock(chain[k])
    ensures r.Ok? ==> |r.value| == |chain| && Linked(hash, r.value)
    ensures r.Ok? ==> CleanBlocks(hash, serialize, r.value) == r
  {
    var cleaned: seq<Json> := [];
    var i := 0;
    while i < |chain|
      invariant 0 <= i <= |chain|
      invariant CleanUpTo(hash, serialize, chain, i) == Ok(cleaned)
    {
      var block := RepairOne(hash, serialize, cleaned, chain[i]);
      CleanUpToExtend(hash, serialize, chain, i, cleaned);
      if block.Err? {
        r := Err(block.fault);
        assert CleanBlocks(hash, serialize, chain) == r by {
          FaultPersists(hash, serialize, chain, i + 1, |chain|);
        }
        assert !WellFormedBlock(chain[i]);
        return;
      }
      cleaned := cleaned + [block.value];
      i := i + 1;
    }
    r := Ok(cleaned);
    assert CleanBlocks(hash, serialize, chain) == r;
    assert forall k :: 0 <= k < |chain| ==> WellFormedBlock(chain[k]) by {
      CleanSucceedsIff(hash, serialize, chain);
    }
    assert Linked(hash, cleaned) by {
      CleanLinksChain(hash, serialize, chain, cleaned);
    }
    assert CleanBlocks(hash, serialize, cleaned) == r by {
      CleanIdempotent(hash, serialize, chain, cleaned);
    }
  }
}
