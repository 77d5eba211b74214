/** The repository's tests, run sequentially on the model: the storage test
    of storage_test.go and the end-to-end parser test of txparser_test.go,
    plus the drain of a transaction saved under both of its sides. */
module Scenarios {
  import opened Results
  import opened Types
  import opened Storage
  import opened TxParser
  import Hex
  import Scan

  /** A transaction as the tests write it: no block hash, no value. */
  function TestTx(blockNumber: string, hash: string, from: string, to: string): Transaction {
    Transaction(blockNumber, "", hash, from, to, "")
  }

  /** storage_test.go with its 100 concurrent saves run one after another:
      one transaction, then 100 saves of two, leave 201 transactions in the
      bucket, the first one first. The test's random hashes are replaced by
      fixed ones; the index does not deduplicate, so their values do not
      matter. */
  method SequentialSaves() returns (count: nat, first: Transaction)
    ensures count == 201
    ensures first == TestTx("0x1", "0xabcd0", "0x123", "0x234")
  {
    var storage := new InmemoryStorage();
    var seed := TestTx("0x1", "0xabcd0", "0x123", "0x234");
    var pair := [TestTx("0x1", "0xabcd1", "0x123", "0x345"), TestTx("0x1", "0xabcd2", "0x123", "0x456")];
    SequentialHashes(seed, pair);
    var _ := storage.SaveTransactions("0x123", [seed]);
    var i := 0;
    while i < 100
      invariant 0 <= i <= 100 && storage.Valid()
      invariant |Lookup(storage.Index(), "0x123")| == 1 + 2 * i
      invariant Lookup(storage.Index(), "0x123")[0] == seed
    {
      var _ := storage.SaveTransactions("0x123", pair);
      i := i + 1;
    }
    var transactions := storage.GetTransactionsByAddress("0x123");
    count := |transactions|;
    first := transactions[0];
  }

  /** SequentialSaves' hashes all pass convertHexToNum's checks. */
  lemma SequentialHashes(seed: Transaction, pair: seq<Transaction>)
    requires seed == TestTx("0x1", "0xabcd0", "0x123", "0x234")
    requires pair == [TestTx("0x1", "0xabcd1", "0x123", "0x345"), TestTx("0x1", "0xabcd2", "0x123", "0x456")]
    ensures HashError([seed]) == None && HashError(pair) == None
  {
    assert Hex.CheckHex(pair[0].hash).None? && Hex.CheckHex(pair[1].hash).None?;
  }

  /** RepeatedAndRejectedSaves' hashes: the prefixed one passes, the list
      with the unprefixed one fails with the prefix error. */
  lemma RejectedHashes(tx: Transaction, bad: Transaction)
    requires tx == TestTx("0x1", "0xabcd0", "0x123", "0x234")
    requires bad == TestTx("0x1", "abcd1", "0x123", "0x345")
    ensures HashError([tx]) == None && HashError([tx, bad]) == Some(Hex.InvalidPrefix)
  {
    assert Hex.CheckHex(tx.hash).None?;
    assert [tx, bad][1..] == [bad];
  }

  /** The index keeps one entry per save, not per hash: saving the same
      transaction twice lists it twice. A list holding a hash without the
      "0x" prefix is refused with the prefix error and leaves the bucket as
      it was, although the transaction before it was already recorded. */
  method RepeatedAndRejectedSaves() returns (bucket: seq<Transaction>, err: Option<string>)
    ensures bucket == [TestTx("0x1", "0xabcd0", "0x123", "0x234"), TestTx("0x1", "0xabcd0", "0x123", "0x234")]
    ensures err == Some(Hex.InvalidPrefix)
  {
    var storage := new InmemoryStorage();
    var tx := TestTx("0x1", "0xabcd0", "0x123", "0x234");
    var bad := TestTx("0x1", "abcd1", "0x123", "0x345");
    RejectedHashes(tx, bad);
    var _ := storage.SaveTransactions("0x123", [tx]);
    var _ := storage.SaveTransactions("0x123", [tx]);
    assert [] + [tx] + [tx] == [tx, tx];
    err := storage.SaveTransactions("0x123", [tx, bad]);
    bucket := storage.GetTransactionsByAddress("0x123");
  }

  /** The blocks of txparser_test.go's client. */
  function TestBlocks(): map<int, Result<Block>> {
    map[
      1 := Ok(Block("0x1", "", [TestTx("0x1", "0xabc10", "0x123", "0x321")])),
      2 := Ok(Block("0x2", "", [TestTx("0x2", "0xabc20", "0x123", "0x321"),
                                TestTx("0x2", "0xabc21", "0x321", "0x1337")])),
      3 := Ok(Block("0x3", "", [TestTx("0x3", "0xabc30", "0x456", "0x123"),
                                TestTx("0x3", "0xabc31", "0x321", "0x1337"),
                                TestTx("0x3", "0xabc32", "0x123", "0x678")])),
      4 := Ok(Block("0x4", "", [TestTx("0x4", "0xabc40", "0x789", "0x123")]))]
  }

  /** The test client while it reports `height`. */
  function TestClient(height: int): Ledger {
    Ledger(Ok(height), TestBlocks())
  }

  const Watched: set<string> := {"0x123"}

  /** The facts about the test's literals that the ticks need: every hash
      passes convertHexToNum's checks, and only "0x123" is watched. */
  lemma TestLiterals()
    ensures forall h | h in ["0xabc20", "0xabc21", "0xabc30", "0xabc31", "0xabc32", "0xabc40"] ::
      Hex.CheckHex(h).None?
    ensures forall a | a in ["0x321", "0x1337", "0x456", "0x678", "0x789"] :: a !in Watched
  {
    assert "0x321"[2] != "0x123"[2];
    assert "0x456"[2] != "0x123"[2];
    assert "0x678"[2] != "0x123"[2];
    assert "0x789"[2] != "0x123"[2];
    assert |"0x1337"| != |"0x123"|;
  }

  /** The tick at 1s: block 2 is scanned and its first transaction saved
      under its sender. */
  lemma TickAtHeightTwo()
    ensures Scan.ParseProcess(View(1, Watched, map[]), TestClient(2)) ==
      Scan.Tick(View(2, Watched, map["0x123" := [TestTx("0x2", "0xabc20", "0x123", "0x321")]]), [2], None)
  {
    var txs := TestBlocks()[2].value.transactions;
    var ix := map["0x123" := [TestTx("0x2", "0xabc20", "0x123", "0x321")]];
    TestLiterals();
    assert "0xabc20" in ["0xabc20", "0xabc21", "0xabc30", "0xabc31", "0xabc32", "0xabc40"];
    assert "0x321" in ["0x321", "0x1337", "0x456", "0x678", "0x789"];
    assert "0x1337" in ["0x321", "0x1337", "0x456", "0x678", "0x789"];
    assert [] + [txs[0]] == [txs[0]];
    assert Scan.SaveSides(Watched, map[], txs[0]) == Scan.Saved(ix, None);
    assert Scan.SaveSides(Watched, ix, txs[1]) == Scan.Saved(ix, None);
    assert Scan.SaveMatches(Watched, ix, txs[1..]) == Scan.Saved(ix, None);
    assert Scan.SaveMatches(Watched, map[], txs) == Scan.Saved(ix, None);
  }

  /** The tick at 4s: blocks 3 and 4 are scanned, saving block 3's first
      transaction under its receiver, its third under its sender and block
      4's transaction under its receiver. */
  lemma TickAtHeightFour()
    ensures Scan.ParseProcess(View(2, Watched, map[]), TestClient(4)) ==
      Scan.Tick(View(4, Watched, map["0x123" := [TestTx("0x3", "0xabc30", "0x456", "0x123"),
                                                 TestTx("0x3", "0xabc32", "0x123", "0x678"),
                                                 TestTx("0x4", "0xabc40", "0x789", "0x123")]]), [3, 4], None)
  {
    var txs := TestBlocks()[3].value.transactions;
    var ix1 := map["0x123" := [txs[0]]];
    var ix2 := map["0x123" := [txs[0], txs[2]]];
    var txs4 := TestBlocks()[4].value.transactions;
    var ix3 := map["0x123" := [txs[0], txs[2], txs4[0]]];
    TestLiterals();
    assert "0xabc30" in ["0xabc20", "0xabc21", "0xabc30", "0xabc31", "0xabc32", "0xabc40"];
    assert "0xabc32" in ["0xabc20", "0xabc21", "0xabc30", "0xabc31", "0xabc32", "0xabc40"];
    assert "0xabc40" in ["0xabc20", "0xabc21", "0xabc30", "0xabc31", "0xabc32", "0xabc40"];
    assert "0x456" in ["0x321", "0x1337", "0x456", "0x678", "0x789"];
    assert "0x678" in ["0x321", "0x1337", "0x456", "0x678", "0x789"];
    assert "0x789" in ["0x321", "0x1337", "0x456", "0x678", "0x789"];
    assert "0x321" in ["0x321", "0x1337", "0x456", "0x678", "0x789"];
    assert "0x1337" in ["0x321", "0x1337", "0x456", "0x678", "0x789"];
    assert [] + [txs[0]] == [txs[0]];
    assert [txs[0]] + [txs[2]] == [txs[0], txs[2]];
    assert [txs[0], txs[2]] + [txs4[0]] == [txs[0], txs[2], txs4[0]];
    assert Scan.SaveSides(Watched, ix1, txs[2]) == Scan.Saved(ix2, None);
    assert Scan.SaveMatches(Watched, ix2, txs[2..][1..]) == Scan.Saved(ix2, None);
    assert Scan.SaveMatches(Watched, ix1, txs[2..]) == Scan.Saved(ix2, None);
    assert Scan.SaveSides(Watched, ix1, txs[1]) == Scan.Saved(ix1, None);
    assert Scan.SaveMatches(Watched, ix1, txs[1..]) == Scan.Saved(ix2, None);
    assert Scan.SaveSides(Watched, map[], txs[0]) == Scan.Saved(ix1, None);
    assert Scan.SaveMatches(Watched, map[], txs) == Scan.Saved(ix2, None);
    var v3 := View(3, Watched, ix2);
    assert Scan.SingleBlock(View(2, Watched, map[]), 3, TestClient(4)) == (v3, None);
    assert Scan.SaveSides(Watched, ix2, txs4[0]) == Scan.Saved(ix3, None);
    assert Scan.SaveMatches(Watched, ix2, txs4) == Scan.Saved(ix3, None);
    assert Scan.SingleBlock(v3, 4, TestClient(4)) == (View(4, Watched, ix3), None);
    assert Scan.ScanFrom(View(4, Watched, ix3), 5, 4, TestClient(4)) == Scan.Tick(View(4, Watched, ix3), [], None);
    assert Scan.ScanFrom(v3, 4, 4, TestClient(4)) == Scan.Tick(View(4, Watched, ix3), [4], None);
  }

  /** RunWorker with the client at height 1 and its immediate tick: the
      cursor is seeded at 1 and the tick has nothing to scan. */
  lemma SeedAtHeightOne()
    ensures Scan.RunWorker(View(0, {}, map[]), TestClient(1), [TestClient(1)]) == View(1, {}, map[])
  {
    assert Scan.ParseProcess(View(1, {}, map[]), TestClient(1)).view == View(1, {}, map[]);
  }

  /** The ticks at 2s and 3s: the client still reports height 2, which the
      cursor has reached, so nothing happens. */
  lemma IdleTick()
    ensures Scan.ParseProcess(View(2, Watched, map[]), TestClient(2)) == Scan.Tick(View(2, Watched, map[]), [], None)
  {
  }

  /** A retrieval of a bucket that is the index's only one. */
  lemma DrainOnly(cursor: int, txs: seq<Transaction>)
    ensures Scan.Drain(View(cursor, Watched, map["0x123" := txs]), "0x123") == (txs, View(cursor, Watched, map[]))
  {
    assert map["0x123" := txs] - {"0x123"} == map[];
  }

  /** txparser_test.go with the worker's ticks placed where the timings put
      them (a period of one second; the client reports height 1 until 0.5s,
      2 until 4s, then 4): the worker seeds the cursor at 1 and ticks at
      once; "0x123" is subscribed; a tick at 1s; the first retrieval at 2s;
      ticks at 2s, 3s and 4s; the second retrieval at 5s. The first
      retrieval is block 2's transaction, the second those of blocks 3 and 4
      (the test sorts them by hash; here they come in ledger order, which is
      the same order). The blocks requested are 2, 3 and 4, each once:
      block 1 is never scanned. */
  method ParserScenario() returns (first: seq<Transaction>, second: seq<Transaction>, ghost requested: seq<int>)
    ensures first == [TestTx("0x2", "0xabc20", "0x123", "0x321")]
    ensures second == [TestTx("0x3", "0xabc30", "0x456", "0x123"),
                       TestTx("0x3", "0xabc32", "0x123", "0x678"),
                       TestTx("0x4", "0xabc40", "0x789", "0x123")]
    ensures requested == [2, 3, 4]
  {
    var storage := new InmemoryStorage();
    var parser := new TXParser(storage);
    SeedAtHeightOne();
    parser.RunWorker(TestClient(1), [TestClient(1)]);
    var _ := parser.Subscribe("0x123");
    assert storage.Snapshot() == View(1, Watched, map[]);
    ghost var f1, f2;
    first, f1 := UntilFirstRetrieval(parser);
    second, f2 := UntilSecondRetrieval(parser);
    requested := f1 + f2;
  }

  /** From the subscription to the retrieval at 2s. */
  method UntilFirstRetrieval(parser: TXParser) returns (first: seq<Transaction>, ghost requested: seq<int>)
    requires parser.Valid() && parser.storage.Snapshot() == View(1, Watched, map[])
    modifies parser.storage
    ensures parser.Valid() && parser.storage.Snapshot() == View(2, Watched, map[])
    ensures first == [TestTx("0x2", "0xabc20", "0x123", "0x321")]
    ensures requested == [2]
  {
    TickAtHeightTwo();
    var _, f1 := parser.ParseProcess(TestClient(2));
    DrainOnly(2, [TestTx("0x2", "0xabc20", "0x123", "0x321")]);
    first := parser.GetTransactions("0x123");
    requested := f1;
  }

  /** From the retrieval at 2s to the retrieval at 5s. */
  method UntilSecondRetrieval(parser: TXParser) returns (second: seq<Transaction>, ghost requested: seq<int>)
    requires parser.Valid() && parser.storage.Snapshot() == View(2, Watched, map[])
    modifies parser.storage
    ensures parser.Valid() && parser.storage.Snapshot() == View(4, Watched, map[])
    ensures second == [TestTx("0x3", "0xabc30", "0x456", "0x123"),
                       TestTx("0x3", "0xabc32", "0x123", "0x678"),
                       TestTx("0x4", "0xabc40", "0x789", "0x123")]
    ensures requested == [3, 4]
  {
    IdleTick();
    var _, f2 := parser.ParseProcess(TestClient(2));
    var _, f3 := parser.ParseProcess(TestClient(2));
    TickAtHeightFour();
    var _, f4 := parser.ParseProcess(TestClient(4));
    DrainOnly(4, [TestTx("0x3", "0xabc30", "0x456", "0x123"),
                  TestTx("0x3", "0xabc32", "0x123", "0x678"),
                  TestTx("0x4", "0xabc40", "0x789", "0x123")]);
    second := parser.GetTransactions("0x123");
    requested := f2 + f3 + f4;
    assert [] + [] + [3, 4] == [3, 4];
  }

  /** A transaction from one subscribed address to another is saved under
      both; the sender's retrieval drains only the sender's copy (a second
      retrieval is empty), and the receiver still gets its own. */
  method DualSidedScenario() returns (senderFirst: seq<Transaction>, senderSecond: seq<Transaction>,
                                      receiver: seq<Transaction>)
    ensures senderFirst == [TestTx("0x1", "0xabc10", "0x123", "0x321")]
    ensures senderSecond == []
    ensures receiver == [TestTx("0x1", "0xabc10", "0x123", "0x321")]
  {
    var storage := new InmemoryStorage();
    var parser := new TXParser(storage);
    SeedAtHeightZero();
    parser.RunWorker(TestClient(0), []);
    var _ := parser.Subscribe("0x123");
    var _ := parser.Subscribe("0x321");
    assert storage.Snapshot() == View(0, BothSides, map[]);
    DualTick();
    var _, _ := parser.ParseProcess(TestClient(1));
    DualDrains();
    senderFirst := parser.GetTransactions("0x123");
    senderSecond := parser.GetTransactions("0x123");
    receiver := parser.GetTransactions("0x321");
  }

  const BothSides: set<string> := {"0x123", "0x321"}

  /** RunWorker with the client at height 0 and no ticks: the cursor is
      seeded at 0. */
  lemma SeedAtHeightZero()
    ensures Scan.RunWorker(View(0, {}, map[]), TestClient(0), []) == View(0, {}, map[])
  {
  }

  /** The tick at height 1 with both sides watched: block 1's transaction is
      saved under its sender and under its receiver. */
  lemma DualTick()
    ensures var tx := TestTx("0x1", "0xabc10", "0x123", "0x321");
      Scan.ParseProcess(View(0, BothSides, map[]), TestClient(1)) ==
      Scan.Tick(View(1, BothSides, map["0x123" := [tx], "0x321" := [tx]]), [1], None)
  {
    var txs := TestBlocks()[1].value.transactions;
    var tx := txs[0];
    var ix := map["0x123" := [tx], "0x321" := [tx]];
    assert Hex.CheckHex(tx.hash).None?;
    assert [] + [tx] == [tx];
    assert Scan.SaveSides(BothSides, map[], tx) == Scan.Saved(ix, None);
    assert Scan.SaveMatches(BothSides, ix, txs[1..]) == Scan.Saved(ix, None);
    assert Scan.SaveMatches(BothSides, map[], txs) == Scan.Saved(ix, None);
    assert Scan.SingleBlock(View(0, BothSides, map[]), 1, TestClient(1)) == (View(1, BothSides, ix), None);
    assert Scan.ScanFrom(View(1, BothSides, ix), 2, 1, TestClient(1)) == Scan.Tick(View(1, BothSides, ix), [], None);
  }

  /** The three retrievals after DualTick. */
  lemma DualDrains()
    ensures var tx := TestTx("0x1", "0xabc10", "0x123", "0x321");
      var v := View(1, BothSides, map["0x123" := [tx], "0x321" := [tx]]);
      var v1 := View(1, BothSides, map["0x321" := [tx]]);
      && Scan.Drain(v, "0x123") == ([tx], v1)
      && Scan.Drain(v1, "0x123") == ([], v1)
      && Scan.Drain(v1, "0x321") == ([tx], View(1, BothSides, map[]))
  {
    var tx := TestTx("0x1", "0xabc10", "0x123", "0x321");
    assert "0x123" != "0x321" by { assert "0x123"[2] != "0x321"[2]; }
    assert map["0x123" := [tx], "0x321" := [tx]] - {"0x123"} == map["0x321" := [tx]];
    assert map["0x321" := [tx]] - {"0x123"} == map["0x321" := [tx]];
    assert map["0x321" := [tx]] - {"0x321"} == map[];
  }
}
