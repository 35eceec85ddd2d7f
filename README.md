# Blockchain cleaner: a Dafny model

This project models the offline chain repair routine of the storefront's
transaction ledger (`fix_chain.py`). The routine takes a chain decoded from
`blockchain.json` and repairs it in one pass:

- **clean_transaction** turns a transaction's `items` value into a display
  string. A non-string value is serialised. A text that shows a leaked
  Python object representation (`<built-in` or `at 0x`) is replaced by
  the marker `CORRUPTED_ITEM_REMOVED`.
- **clean_chain** walks the chain in order. It renumbers each block's
  `index` to its 1-based position. From the second block on, it sets
  `previous_hash` to the hash of the repaired block before it. It cleans
  every transaction.

The model works on decoded JSON values (`JsonValues.Json`). A block or a
transaction is a `JObj` map, so a key can be missing, as it can in the
Python dicts. The content hash `sha256` and the serialisation `json.dumps`
are library calls. Both are parameters `hash, serialize: Json -> string`:
deterministic, and otherwise unknown. A dict is a map here, so neither
function can see key order. For the hash this is what the source does:
`sha256` dumps with `sort_keys=True`. For `json.dumps` on `items` it is
not (see "## Left out").

Modules:

- `JsonValues` (json_values.dfy): decoded values, Python's `==` between a
  value and an int, and the exceptions the cleaner raises (`Fault`,
  `Result`).
- `Text` (text.dfy): Python's `in` on strings.
- `Integrity` (integrity.dfy): the hash-linkage check that the test suite
  runs by hand.
- `CleanSpec` (clean_spec.dfy): the repair as functions, and its
  properties as lemmas.
- `FixChain` (fix_chain.dfy): `clean_transaction` and `clean_chain` as
  methods with loops. Each is proved to compute its `CleanSpec` function.

Malformed input raises an exception in the source. The model returns
`Err(fault)` for it:

- a block or a transaction that is not a dict has no `.get`;
- a `transactions` value that cannot be iterated;
- a non-empty string or dict as `transactions`, which iterates to strings.

## Model

| member | source | states |
|---|---|---|
| `JsonValues.PyEqualsIntCases` | fix_chain.py:68-69 | Python's `!=` between the read index and the position: the int the repair writes equals the position, as do `True` for 1 and a float of equal value; a string, None, a list or a dict never equals an int |
| `JsonValues.PyEqualsIntUnique` | fix_chain.py:69 | a stored index equals at most one position |
| `Text.ContainsMeansOccurs` | fix_chain.py:52 | `pat in s` holds exactly when some window of `s` spells `pat` |
| `Text.ContainsOccurrence` | fix_chain.py:52 | a pattern placed anywhere in a string is found by `in` |
| `Text.AbsentFirstChar` | fix_chain.py:52 | a pattern whose first character is absent from the string is not found |
| `CleanSpec.MarkerIsClean` | fix_chain.py:52-53 | the replacement marker itself shows neither leak pattern, so the replacement is final |
| `CleanSpec.SanitizeItems` | fix_chain.py:42-53 | the stored text never shows a leak pattern; a clean string is kept as it is; a leaking string becomes the marker; a non-string (a missing key reads as None) is serialised and then checked the same way |
| `CleanSpec.CleanTx` | fix_chain.py:41-56 | clean_transaction succeeds exactly on dicts, and then leaves a string `items` free of leak patterns; otherwise it raises AttributeError |
| `CleanSpec.CleanTxChangesOnlyItems` | fix_chain.py:55-56 | afterwards the keys are the old ones plus `items`, `items` holds the sanitised text, and every other field is unchanged |
| `CleanSpec.CleanTxKeepsClean` | fix_chain.py:42-55 | a transaction whose items is already a clean string is returned unchanged |
| `CleanSpec.CleanTxIdempotent` | fix_chain.py:41-56 | cleaning a transaction twice gives the same result as cleaning it once |
| `CleanSpec.CleanTxs` | fix_chain.py:81-87 | the inner loop succeeds exactly when every transaction is a dict; the result has the same length, and each element is the cleaned transaction at the same place |
| `CleanSpec.CleanTxsKeepsClean` | fix_chain.py:84-87 | a list of clean transactions comes back unchanged |
| `CleanSpec.TxSourceFacts` | fix_chain.py:81-84 | what `for tx in block.get("transactions", [])` walks: nothing for a missing key, an empty string or an empty dict; a list's elements; it raises TypeError exactly for None, a bool or a number, and AttributeError for a non-empty string or dict |
| `CleanSpec.RenumberFacts` | fix_chain.py:68-71 | the key set and every other field are kept; an existing index equals the position afterwards under Python `==`; one that already did is kept as it is, so renumbering twice changes nothing |
| `CleanSpec.RelinkFacts` | fix_chain.py:74-78 | from the second block on, `previous_hash` is present and is the hash of the repaired predecessor; the first block is left alone; no other field changes; relinking again changes nothing |
| `CleanSpec.RecleanTxsFacts` | fix_chain.py:81-87 | replacing the transactions succeeds exactly when the walk yields dicts only; the block then has the old keys plus `transactions`, a list whose element `k` is clean_transaction of walked element `k`, each clean, and no other field changed |
| `CleanSpec.RepairBlock` | fix_chain.py:65-89 | (corrected step) one loop iteration succeeds exactly on a well-formed block; the only faults are AttributeError and TypeError |
| `CleanSpec.RepairBlockFacts` | fix_chain.py:67-87 | a repaired block has the input's keys plus `transactions` (and `previous_hash` from position 1 on); an index equal to the position is kept and any other becomes the position; `previous_hash` is the hash of the repaired predecessor, or untouched on the first block; the transactions are cleaned in order; every other field is unchanged |
| `CleanSpec.RepairBlockAsWritten` | fix_chain.py:67-87 | the iteration with the warning of line 77 as written: when it succeeds it agrees with the intended repair, and it can also raise KeyError on `index` |
| `CleanSpec.CleanUpToAsWritten` | fix_chain.py:62-89 | clean_chain's loop as written: after `n` iterations of the as-written step, the collected list has exactly `n` blocks |
| `CleanSpec.AsWrittenLoopAgrees` | fix_chain.py:59-92 | whenever clean_chain as written returns, it returns what the corrected loop returns, so length, order, numbering, linkage and sanitising hold of it; when it raises, it raises the corrected loop's exception or KeyError on `index` |
| `CleanSpec.IndexlessChainCrashes` | fix_chain.py:59-92 | a chain of two empty dicts: clean_chain as written raises KeyError, while the corrected loop repairs it |
| `CleanSpec.AsWrittenOnCleanedUpTo` | fix_chain.py:65-89 | run as written over a repaired chain, the first `n` iterations raise nothing and give back the first `n` blocks unchanged: each block after the first already records its predecessor's hash, so the warning that reads `index` is never reached |
| `CleanSpec.AsWrittenOnCleaned` | fix_chain.py:59-92 | clean_chain as written, run on a chain the corrected loop repaired, returns it unchanged |
| `CleanSpec.AsWrittenIdempotent` | fix_chain.py:59-92 | clean_chain as written is idempotent: when it returns, running it again on its output returns that output, without raising |
| `CleanSpec.AsWrittenDiffersOnlyByKeyError` | fix_chain.py:74-78 | the source raises KeyError exactly for a block after the first that has no `index` and a wrong `previous_hash`; in every other case it matches the intended repair |
| `CleanSpec.IndexlessBlockCrashes` | fix_chain.py:77 | an empty dict as the second block: the source raises KeyError, while the intended repair links it and gives it an empty transaction list |
| `CleanSpec.CleanUpTo` | fix_chain.py:62-89 | after `n` iterations, the collected list has exactly `n` blocks |
| `CleanSpec.CleanBlocks` | fix_chain.py:59-92 | a successful clean_chain returns as many blocks as it was given |
| `CleanSpec.CleanUpToStep` | fix_chain.py:65-89 | read backwards: when `n + 1` iterations succeed, so did the first `n`, and the last one appended the repair of block `n` |
| `CleanSpec.CleanUpToExtend` | fix_chain.py:65-89 | an iteration that succeeds appends the repaired block to the list; one that raises makes the loop's result that exception |
| `CleanSpec.CleanUpToFaults` | fix_chain.py:65-89 | (corrected step) the loop can raise only AttributeError or TypeError |
| `CleanSpec.CleanUpToSucceedsIff` | fix_chain.py:65-89 | (corrected step) the first `n` iterations complete exactly when the first `n` blocks are well formed |
| `CleanSpec.CleanUpToPrefix` | fix_chain.py:65-89 | blocks already repaired are never revisited: the first `n` iterations give the prefix of what the first `m` give |
| `CleanSpec.CleanBlockAt` | fix_chain.py:65-89 | output block `k` is the repair of input block `k` against output blocks `0..k-1` |
| `CleanSpec.FaultPersists` | fix_chain.py:65-89 | once an iteration raises, the call ends with that exception |
| `CleanSpec.CleanSucceedsIff` | fix_chain.py:59-92 | (corrected step) clean_chain completes exactly when every block is well formed; it can raise only AttributeError or TypeError |
| `CleanSpec.CleanKeepsOrder` | fix_chain.py:62-65 | same length and order: each output block is the repair of the input block at the same position |
| `CleanSpec.CleanNumbersBlocks` | fix_chain.py:68-71 | every block is a dict; a block has an `index` afterwards exactly when it had one before, and that index equals its 1-based position |
| `CleanSpec.CleanLinksChain` | fix_chain.py:74-78 | the output passes the linkage check: each block after the first records the hash of the block before it |
| `CleanSpec.CleanKeepsGenesisLink` | fix_chain.py:74 | the first block's `previous_hash` is neither added, removed nor changed |
| `CleanSpec.CleanSanitizesTransactions` | fix_chain.py:81-87 | every output block has a `transactions` list; it is as long as the input's (empty when the key was missing); each element is the cleaned transaction at the same place and is clean |
| `CleanSpec.CleanKeepsOtherFields` | fix_chain.py:65-89 | every field other than `index`, `previous_hash` and `transactions` is unchanged |
| `CleanSpec.RepairKeepsRepaired` | fix_chain.py:68-87 | a block already in repaired shape meets every repair condition and is returned unchanged |
| `CleanSpec.CleanIdempotent` | fix_chain.py:59-92 | cleaning the cleaned chain returns it unchanged |
| `FixChain.CleanTransaction` | fix_chain.py:41-56 | the method computes clean_transaction: it succeeds exactly on dicts, leaves a clean `items`, and changes no other field |
| `FixChain.RepairOne` | fix_chain.py:67-87 | (corrected step) the loop body computes the repair of one block, and succeeds exactly on a well-formed block |
| `FixChain.CleanTransactions` | fix_chain.py:81-87 | the inner loop computes the cleaned transaction list; it succeeds exactly when every transaction is a dict, and every element it returns is clean |
| `FixChain.CleanChain` | fix_chain.py:59-92 | (corrected step) the loop computes clean_chain; it succeeds exactly when every block is well formed; the result has the input's length, passes the linkage check, and cleaning it again changes nothing |
| `Integrity.CheckLinkage` | test_blockchain.py:36-45 | the test's integrity loop reports a valid chain exactly when every block after the first records the hash of its predecessor |
| `Integrity.TamperingBreaksLink` | test_blockchain.py:36-45 | for a block that has a successor: replacing it by one with a different hash, without touching the successor, makes the linkage check fail |
| `Integrity.TamperingLastBlockUndetected` | test_blockchain.py:36-45 | replacing the last block by any dict that keeps its `previous_hash` leaves the chain linked, so the linkage check passes |
| `Integrity.TamperingTestChainStaysLinked` | test_blockchain.py:28-48 | the tampering test's chain on a freshly constructed `Blockchain()`, a genesis block and one block linked to it, stays linked after the second block's transactions are edited, so the test's loop reports it valid |

## Findings

| source | as written | input that shows it | evidently intended | confidence | as-written member | corrected member |
|---|---|---|---|---|---|---|
| fix_chain.py:76-77 | the warning message reads `block['index']`, which raises KeyError when the block has no `index` key; that key is exactly the case the `get` default at line 68 lets through | a chain whose second block is `{}`: no `index`, and `previous_hash` missing so it needs fixing | print the warning and set `previous_hash`, as for any other block | high; not executed | `CleanSpec.RepairBlockAsWritten` and the loop over it `CleanSpec.CleanUpToAsWritten` (with `CleanSpec.IndexlessBlockCrashes`, `CleanSpec.IndexlessChainCrashes`, `CleanSpec.AsWrittenDiffersOnlyByKeyError`, `CleanSpec.AsWrittenLoopAgrees`, `CleanSpec.AsWrittenIdempotent`) | `CleanSpec.RepairBlock` (with `CleanSpec.RepairBlockFacts`, `CleanSpec.CleanLinksChain`) |
| test_blockchain.py:33-48 | on a freshly constructed `Blockchain()`, the test tampers with `chain[1]`, the last block of a chain of two (the genesis block and the one `create_block` of line 29); the loop of lines 38-45 only compares `chain[1]['previous_hash']` with the hash of the untouched `chain[0]`, so `is_valid` stays True and the `assertFalse` of line 48 fails | the test's own chain: a genesis block and one block linked to it, with the second block's transactions edited | tamper with a block that has a successor (create a second block before tampering with `chain[1]`), so the successor's link breaks | medium; it rests on two assumptions about the `Blockchain` class, which is not part of this model and which the app.py shown does not define (so `from app import Blockchain` at line 2 would fail first): `Blockchain()` in `setUp` (line 7) starts with the genesis block only, not a persisted longer chain, and `create_block` records the `previous_hash` it is passed; not executed | `Integrity.TamperingLastBlockUndetected` (with `Integrity.TamperingTestChainStaysLinked`) | `Integrity.TamperingBreaksLink` |

The rest of the model (`CleanUpTo`, `CleanBlocks`, `FixChain.CleanChain`)
uses the corrected step of the first row. `AsWrittenDiffersOnlyByKeyError` says exactly
where one iteration of the source differs from it. `AsWrittenLoopAgrees` lifts this to the
whole loop: whenever clean_chain as written returns, its result is the corrected one.
`AsWrittenIdempotent` shows that a second run of the source on that result
never reaches the KeyError and returns the result unchanged.

## Left out

- `backup_chain`, `load_chain`, `save_chain` and `main` (fix_chain.py:15-38, 95-113): file existence checks, directory creation, copying, JSON reading and writing, and wall-clock timestamps are I/O.
- The real SHA-256 and `json.dumps` / `str`: they are library code. They are the parameters `hash` and `serialize`. The `except` fallback to `str(items)` is part of `serialize`. Both are assumed deterministic and blind to dict key order, and nothing else is assumed of them, so no collision-freedom is used. Key order is sound for `hash`, which dumps with `sort_keys=True`; for `serialize` see the next line.
- `CleanSpec.SanitizeItems`: dict key order inside `items` is lost. `json.dumps` at fix_chain.py:47 has no `sort_keys`, so for a dict, or a list that holds dicts, the stored text follows the key order of the file, and that text feeds every later `previous_hash`. A `JObj` is a map without order, so the model's `serialize` cannot depend on it.
- The `print` logging in `clean_chain`: it does not affect the data. The one print that raises is modelled (see Findings).
- Update in place and aliasing: the source mutates the caller's block and transaction dicts and returns a list holding those same objects. The model uses values and returns the repaired blocks. JSON-loaded data never shares a dict between two places.
- A top-level document that is not a list: `chain` is a sequence of decoded values.
- Iterating a non-empty string or dict as `transactions` yields strings; the model goes straight to the AttributeError that the first of them causes.
- Python floats: a float is modelled as the exact real it denotes. NaN and infinities, which `json.load` accepts, are not modelled.
- `Integrity.CheckLinkage`: a block without `previous_hash` counts as unlinked, where the test would raise KeyError. `Blockchain.hash`, which the test calls, is not part of this model; it is the same `hash` parameter.
- app.py (web routes and a login form) is not part of this model.
