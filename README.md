# ethereum-tx-parser: the scan-and-index engine in Dafny

This project models the engine of ethereum-tx-parser. The engine watches an Ethereum ledger for transactions to or from subscribed addresses. It covers three parts.

**The stores** (`storage.go`, module `Storage`). One class, `InmemoryStorage`, holds the three in-memory storages:
- the cursor, which is the last processed block height;
- the set of subscribed addresses;
- the transaction index, which keeps a bucket of handles per address and a map from handle to transaction record.

The source keys the records by a `*big.Int` pointer that is allocated afresh on every save. The model gives each save a fresh natural number from a counter, so two saves of the same transaction make two records and two bucket entries. `Valid()` states that:
- every handle in a bucket has its record;
- no handle is shared between buckets;
- every record was allocated.

`Index()` resolves the buckets into the transaction lists that callers see.

**The parser** (`txparser.go`, modules `TxParser` and `Scan`).
- The class `TXParser` implements `RunWorker`, `GetCurrentBlock`, `Subscribe`, `GetTransactions`, `parseProcess` and `singleBlockProcess` as imperative methods over the stores.
- Each method is proved equal to a function of module `Scan` on the stores' observable state, a `View`: the cursor, the subscriptions and the index.
- The lemmas of `Scan` state what the scan loop guarantees: cursor progress, ascending block order, which sides of a transaction are saved, and the effect of a failure part-way through a block.
- The ledger client is a `Ledger` value: its reported height (or an error) and its answer to each block request, a block or an error (a decoding error, a transport error). A height it holds no answer for fails with "invalid block", as the test client does.
- A worker's run is a sequence of ticks, each with the `Ledger` the client answers with during that tick.

**The client's decoding** (`client.go`, modules `Hex` and `Client`).
- `Hex` covers the `0x` hex quantities: `convertHexToNum` and `convertNumToHex`, with round trips in both directions. Go's `len(s)` counts UTF-8 bytes, so the length check is made on the byte length, and `big.Int.SetString` accepts an optional sign before the digits, so a signed string decodes to a signed value.
- `Client` covers `convertMapRawToTransaction`, the block decoding of `GetBlockByNumber` (an appending loop over a `Json` datatype) and the height decoding of `CurrentBlockNumber`.

Module `Scenarios` replays the repository's two tests as sequential method calls.

Three properties one might expect of such an engine do not hold in the code, and the model follows the code:
- **No deduplication.** SaveTransactions stores each record under a `*big.Int` freshly allocated by `convertHexToNum` (storage.go:109-114), so two saves of the same hash make two records. It then appends the new handles to the bucket without looking at what is there (storage.go:128). A retried block therefore lists its earlier copies again: `Scan.RetryDuplicates` proves it, and `Scenarios.RepeatedAndRejectedSaves` shows one transaction listed twice.
- **No cursor check on save.** SaveBlockID stores whatever value it is given (storage.go:19-22). The cursor never decreases over ticks (`Scan.RunTicksMonotonic`), but `RunWorker`'s seeding may move it anywhere.
- **The cursor can pass the client's height.** A tick whose reported height is at most the cursor returns at once (txparser.go:116-118). So the cursor ends at the reported height only on a tick whose height is above it. A later tick that reports a lower height leaves the cursor above that height.

## Model

| member | source | states |
|---|---|---|
| Hex.Utf8Width | client.go:159 | a character takes one to four UTF-8 bytes, exactly one for ASCII |
| Hex.ByteLength | client.go:159 | the UTF-8 byte length of a string, which is at least its character count |
| Hex.CheckHex | client.go:158-164 | the conversion fails exactly when the string has at most two characters or does not start with exactly "0x" (so "0X" is refused); "invalid hex length" when its UTF-8 byte length is at most 2, "invalid hex" otherwise |
| Hex.ConvertHexToNum | client.go:158-170 | fails iff the length or prefix check fails, with "invalid hex length" for a byte length of at most 2 and "invalid hex" for a bad prefix; otherwise yields the signed base-16 value of what follows "0x" (an optional sign, then digits), which is the plain base-16 value for unsigned digits and negative only after a '-' |
| Hex.SignsAndBytes | client.go:158-170 | "0x-1a" converts to -26 and "0x+1a" to 26; the one-character, two-byte "é" fails with "invalid hex length" while "éa" fails with "invalid hex" |
| Hex.HexDigits | client.go:172-174 | the "%x" digits of n are non-empty, lower-case hex digits, start with '0' exactly when n is 0, and are "0" for 0 |
| Hex.ConvertNumToHex | client.go:172-174 | the result is "0x" followed by lower-case hex digits with no leading zero, "0x0" for 0 |
| Hex.NumToHexToNum | client.go:158-174 | for every n >= 0, convertHexToNum(convertNumToHex(n)) = n |
| Hex.HexToNumToHex | client.go:158-174 | a "0x" string with canonical digits (lower case, no leading zero) is accepted, and printing its value gives back the same string |
| Client.ConvertMapRawToTransaction | client.go:176-215 | succeeds iff all six fields are strings; on success every field is copied unchanged; on failure the error names the first field, in checking order, that is missing or not a string |
| Client.DecodeTransactionsOk | client.go:91-103 | decoding a transaction array succeeds iff every object entry converts; the result is then those conversions in array order, non-object entries skipped |
| Client.DecodeTransactionsErr | client.go:91-103 | a failed decoding reports the error of the first object entry that does not convert |
| Client.BlockResultAccepts | client.go:68-105 | a block decodes iff the result is an object with a string number, a string hash and a transactions array whose objects all convert; number and hash are copied, and the transactions are the converted objects in order |
| Client.DecodeBlock | client.go:68-105 | the appending loop (skip a non-object, abort on a malformed object) computes exactly the block decoding above |
| Client.DecodeBlockNumber | client.go:48-57 | succeeds iff the result is a string that convertHexToNum accepts; any other shape gives "invalid response from api", a refused string convertHexToNum's own error; the height is the string's signed hex value, never negative unless a '-' follows "0x" |
| Client.BlockNumberRoundTrip | client.go:48-57 | a height the node reports as convertNumToHex(n) decodes to n |
| Types.BlockAt | txparser_test.go:108-183 | a block request for a height the client holds returns its answer, a block or an error; any other height fails with "invalid block" |
| Storage.HashError | storage.go:108-112 | a list of transactions has no error iff every hash passes convertHexToNum's checks; otherwise the error is that of the first failing hash |
| Storage.InmemoryStorage.constructor | storage.go:11-26 | the stores start valid and empty, and the cursor reads 0 before any save |
| Storage.InmemoryStorage.SaveBlockID | storage.go:19-22 | never fails; the cursor becomes the given value (last write wins, no check) and nothing else changes |
| Storage.InmemoryStorage.GetBlockID | storage.go:24-26 | returns the stored cursor |
| Storage.InmemoryStorage.PutAddress | storage.go:41-44 | never fails; the address is added (re-adding is a no-op), other memberships and the cursor and index stay |
| Storage.InmemoryStorage.IsAddressExists | storage.go:46-49 | true iff the address is subscribed |
| Storage.InmemoryStorage.GetTransactionsByAddress | storage.go:67-96 | returns the address's bucket resolved in append order; an address without a bucket gives an empty list; the missing-record early return cannot happen under Valid() |
| Storage.InmemoryStorage.SaveTransactions | storage.go:98-132 | keeps Valid(); the error is that of the first rejected hash; on success the address's list becomes the old list followed by the new transactions, every other address unchanged, a bucket created if missing and no deduplication; on error every bucket is unchanged; existing records are never altered |
| Storage.InmemoryStorage.StoreRecords | storage.go:106-115 | stores each transaction under a fresh consecutive handle, in order, until a hash is rejected; buckets and the resolved index do not change |
| Storage.InmemoryStorage.AppendFreshHandles | storage.go:117-129 | appending fresh handles to one bucket keeps handles distinct and resolvable, and appends exactly the saved transactions to that address's list |
| Storage.InmemoryStorage.DeleteTransactionsByAddress | storage.go:134-155 | never fails; removes the address's bucket and exactly the records its handles point to; other buckets, their records and their lists stay; an address without a bucket is a no-op |
| Scan.SaveSidesMeaning | txparser.go:138-151 | one transaction is appended to its sender's list iff the sender is subscribed and to its receiver's list iff the receiver is subscribed (twice if it sends to itself); a rejected hash fails before any change |
| Scan.SaveMatchesMeaning | txparser.go:136-153 | the block's loop appends, in block order, the copies of every transaction before the first one with a subscribed side and a rejected hash; it fails iff there is such a transaction, with that hash's error |
| Scan.UnsubscribedNeverMatched | txparser.go:139-150 | nothing is ever saved under an unsubscribed address |
| Scan.ProcessBlockMeaning | txparser.go:130-161 | after a fetched block the cursor becomes the block's height iff every save succeeded and otherwise stays; saves made before a failure are kept; subscriptions are unchanged |
| Scan.ScanFromMeaning | txparser.go:120-127 | heights are requested in strictly ascending consecutive order from cursor + 1 and never beyond the client's height; on success the cursor is that height; on failure at h, h is the last height requested and the cursor is h - 1; lists only grow at their end; unsubscribed lists never change |
| Scan.SingleBlockAt | txparser.go:130-161 | one block adds its copies to an address's list when every save succeeds, and only the copies of the transactions before the first failing one when a save fails; nothing when the request fails |
| Scan.ScanFromGains | txparser.go:120-125 | what a scan from one height to another adds to an address's list: on success the copies of all those blocks in ascending height order; on failure at h, the copies of the blocks before h followed by what block h kept |
| Scan.ParseProcessMeaning | txparser.go:105-128 | a tick never moves the cursor back; with a client error or a height at most the cursor it changes nothing; otherwise it requests exactly the heights above the old cursor in ascending order, ends at the client's height on success and at the failed height minus one on failure |
| Scan.ParseProcessGains | txparser.go:105-128 | when the client reports a height above the cursor, each address's list gains, on success, the copies of every block after the cursor up to that height in ascending order; on failure at h, the copies of the blocks between the cursor and h, then what block h kept |
| Scan.RetryDuplicates | txparser.go:136-160 | when a save fails in the block above the cursor, the tick keeps the copies saved before the failure and leaves the cursor; a retry over the same ledger saves those copies again |
| Scan.RunTicksMonotonic | worker.go:17-37 | over any sequence of ticks, errors included, the cursor never decreases and the subscriptions do not change |
| Scan.RunWorkerSeeds | txparser.go:59-73 | with a client error nothing changes and no tick runs; otherwise the cursor is seeded with the client's height, stays at or above it, and the first tick never requests a block at or below it |
| Scan.DrainMeaning | txparser.go:89-103 | retrieval returns the address's list, and a second retrieval returns nothing; the cursor, subscriptions and every other list are unchanged |
| TxParser.TXParser.constructor | txparser.go:36-53 | the parser works on the given stores |
| TxParser.TXParser.RunWorker | txparser.go:59-73 | the new state is the seeding followed by one parseProcess per tick, exactly as Scan.RunWorker |
| TxParser.TXParser.GetCurrentBlock | txparser.go:75-77 | returns the cursor |
| TxParser.TXParser.Subscribe | txparser.go:79-87 | always returns true and adds the address to the subscriptions, leaving the rest of the state |
| TxParser.TXParser.GetTransactions | txparser.go:89-103 | returns the address's list and removes it, exactly as Scan.Drain |
| TxParser.TXParser.ParseProcess | txparser.go:105-128 | the new state, the heights requested and the error are exactly those of Scan.ParseProcess |
| TxParser.TXParser.ScanBlocks | txparser.go:120-125 | the loop over the heights leaves the state, the heights requested and the error of Scan.ScanFrom: each block in turn, stopping at the first error |
| TxParser.TXParser.SingleBlockProcess | txparser.go:130-161 | the new state and the error are exactly those of Scan.SingleBlock: fetch, save each transaction's subscribed sides in block order, then move the cursor |
| Scenarios.SequentialSaves | storage_test.go:13-59 | one save of one transaction and then 100 saves of two leave 201 transactions, the first one first |
| Scenarios.RepeatedAndRejectedSaves | storage.go:106-129 | saving one transaction twice lists it twice; a list with a hash lacking "0x" is refused with "invalid hex" and the list stays as it was |
| Scenarios.SeedAtHeightOne | txparser_test.go:17-30 | the worker seeds the cursor at 1 and its first tick has nothing to scan |
| Scenarios.TickAtHeightTwo | txparser_test.go:123-141 | the tick at height 2 requests block 2 only and saves 0xabc20 under 0x123 |
| Scenarios.IdleTick | txparser_test.go:98-105 | while the client still reports the cursor's height a tick changes nothing |
| Scenarios.TickAtHeightFour | txparser_test.go:143-181 | the tick at height 4 requests blocks 3 and 4 and saves 0xabc30, 0xabc32 and 0xabc40 under 0x123 in that order |
| Scenarios.ParserScenario | txparser_test.go:16-88 | the first retrieval is the 0xabc20 transaction, the second the 0xabc30, 0xabc32 and 0xabc40 transactions, and the blocks requested are 2, 3 and 4 (block 1 is never scanned) |
| Scenarios.UntilFirstRetrieval | txparser_test.go:32-51 | from the subscription, one tick at height 2 and a retrieval return the 0xabc20 transaction and leave the cursor at 2 with an empty index |
| Scenarios.UntilSecondRetrieval | txparser_test.go:53-88 | two idle ticks, a tick at height 4 and a retrieval return the three transactions of blocks 3 and 4 and leave the cursor at 4 |
| Scenarios.DualTick | txparser.go:138-151 | with both sides subscribed, the tick at height 1 saves block 1's transaction under its sender and under its receiver |
| Scenarios.DualSidedScenario | txparser.go:89-103 | a transaction between two subscribed addresses is saved under both; draining the sender's list leaves the receiver's copy, and a second drain is empty |

## Left out

- worker.go's ticker, goroutine and cancellation are not modelled. A run is a finite sequence of ticks, each with the ledger answer of that moment (`Scan.RunTicks`, `TxParser.TXParser.RunWorker`). A failed tick's error is logged and the next tick still runs.
- `doRequest` and `randomID` are not modelled: HTTP, JSON encoding of the request, the status check and the response-ID check. The client is the `Ledger` value, and only the decoding of a response's `result` is modelled.
- `sync.Map`, `sync.Mutex` and `atomic.Int64` are not modelled: every operation runs sequentially, and storage_test.go's 100 goroutines become 100 saves in a row.
- `SetContext`, the context arguments and `log.Print` change no modelled state and are left out.
- examples/simple/main.go, examples/web/main.go and client_test.go (a test against a live node) are not part of this model.
- The "invalid storage data" type-assertion errors of storage.go cannot occur in the typed model, because buckets always hold handles and records always hold transactions.
- `WithDBTransaction` of both storages is a pass-through in the source. Its body runs inline in `TxParser.TXParser.SingleBlockProcess`, and nothing is rolled back.
- Hex.ConvertHexToNum: requires that what follows an accepted "0x" is what `big.Int.SetString` parses in base 16, an optional '+' or '-' followed by at least one hex digit. On anything else SetString fails, the source ignores that failure and returns an unspecified value, which the model does not represent. The storage and the scan only use the length and prefix checks (`Hex.CheckHex`), which are total.
- Client.DecodeBlockNumber: has the same digit requirement, and returns the unbounded signed value without modelling the `int(bi.Int64())` truncation of heights beyond 64 bits.
- Hex.ConvertNumToHex: takes n >= 0 only; "%x" of a negative int is not modelled.
- Scenarios.SequentialSaves: the test's random hashes are replaced by fixed ones. The index does not deduplicate, so their values do not matter.
- Scenarios.ParserScenario: the test sorts the second retrieval by hash; the model returns it in ledger order, which is the same order.
