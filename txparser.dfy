/** TXParser of txparser.go: the facade (GetCurrentBlock, Subscribe,
    GetTransactions), RunWorker and the scan loop (parseProcess,
    singleBlockProcess), each proved to do what module Scan specifies. The
    ledger client is passed in as the `Ledger` it answers with during a call
    or tick. */
module TxParser {
  import opened Results
  import opened Types
  import opened Storage
  import Scan

  class TXParser {
    /** The block, transaction and subscription storages. */
    const storage: InmemoryStorage

    ghost predicate Valid()
      reads this, storage
    {
      storage.Valid()
    }

    constructor (storage: InmemoryStorage)
      ensures this.storage == storage
    {
      this.storage := storage;
    }

    /** RunWorker: the cursor is seeded with the client's current height, so
        earlier blocks are never scanned; a client error ends it before any
        change. Then the worker runs one parseProcess per tick; a tick's
        error is only logged. */
    method RunWorker(seed: Ledger, ticks: seq<Ledger>)
      requires Valid()
      modifies storage
      ensures Valid()
      ensures storage.Snapshot() == Scan.RunWorker(old(storage.Snapshot()), seed, ticks)
    {
      if seed.height.Err? {
        return;
      }
      var _ := storage.SaveBlockID(seed.height.value);
      var i := 0;
      while i < |ticks|
        invariant 0 <= i <= |ticks| && Valid()
        invariant Scan.RunWorker(old(storage.Snapshot()), seed, ticks) == Scan.RunTicks(storage.Snapshot(), ticks[i..])
      {
        assert ticks[i..][0] == ticks[i] && ticks[i..][1..] == ticks[i + 1..];
        var _, _ := ParseProcess(ticks[i]);
        i := i + 1;
      }
    }

    /** GetCurrentBlock: the cursor. */
    method GetCurrentBlock() returns (id: int)
      ensures id == storage.blockID
    {
      id := storage.GetBlockID();
    }

    /** Subscribe: true iff PutAddress succeeds, which it always does. */
    method Subscribe(address: string) returns (ok: bool)
      requires Valid()
      modifies storage
      ensures Valid() && ok
      ensures storage.Snapshot() == old(storage.Snapshot()).(subscriptions := old(storage.addresses) + {address})
    {
      var err := storage.PutAddress(address);
      ok := err.None?;
    }

    /** GetTransactions: a destructive read, the bucket is returned and then
        deleted. */
    method GetTransactions(address: string) returns (txs: seq<Transaction>)
      requires Valid()
      modifies storage
      ensures Valid()
      ensures (txs, storage.Snapshot()) == Scan.Drain(old(storage.Snapshot()), address)
    {
      txs := storage.GetTransactionsByAddress(address);
      var _ := storage.DeleteTransactionsByAddress(address);
    }

    /** parseProcess: one tick of the worker. `fetched` records the heights
        whose blocks were requested. */
    method ParseProcess(ledger: Ledger) returns (err: Option<string>, ghost fetched: seq<int>)
      requires Valid()
      modifies storage
      ensures Valid()
      ensures Scan.ParseProcess(old(storage.Snapshot()), ledger) == Scan.Tick(storage.Snapshot(), fetched, err)
    {
      fetched := [];
      if ledger.height.Err? {
        return Some(ledger.height.msg), fetched;
      }
      var currentBlockNumber := ledger.height.value;
      var lastSavedBlockNumber := storage.GetBlockID();
      if currentBlockNumber <= lastSavedBlockNumber {
        return None, fetched;
      }
      err, fetched := ScanBlocks(ledger, lastSavedBlockNumber + 1, currentBlockNumber);
    }

    /** parseProcess's loop over the heights `first` .. `top`: each block is
        processed in turn and the first error ends the tick. */
    method ScanBlocks(ledger: Ledger, first: int, top: int) returns (err: Option<string>, ghost fetched: seq<int>)
      requires Valid()
      modifies storage
      ensures Valid()
      ensures Scan.ScanFrom(old(storage.Snapshot()), first, top, ledger) == Scan.Tick(storage.Snapshot(), fetched, err)
    {
      fetched := [];
      var blockID := first;
      while blockID <= top
        invariant Valid()
        invariant var t := Scan.ScanFrom(storage.Snapshot(), blockID, top, ledger);
          Scan.ScanFrom(old(storage.Snapshot()), first, top, ledger) == Scan.Tick(t.view, fetched + t.fetched, t.err)
        decreases top - blockID
      {
        Scan.ScanFromStep(storage.Snapshot(), blockID, top, ledger);
        err := SingleBlockProcess(ledger, blockID);
        fetched := fetched + [blockID];
        if err.Some? {
          return;
        }
        blockID := blockID + 1;
      }
      assert fetched + [] == fetched;
      return None, fetched;
    }

    /** singleBlockProcess: fetch the block, save each transaction under each
        subscribed side, in block order, and only then move the cursor to
        the block. WithDBTransaction is a pass-through in memory, so the body
        runs directly and a failed save rolls nothing back. */
    method SingleBlockProcess(ledger: Ledger, blockID: int) returns (err: Option<string>)
      requires Valid()
      modifies storage
      ensures Valid()
      ensures (storage.Snapshot(), err) == Scan.SingleBlock(old(storage.Snapshot()), blockID, ledger)
    {
      var block := BlockAt(ledger, blockID);
      if block.Err? {
        return Some(block.msg);
      }
      var txs := block.value.transactions;
      var i := 0;
      while i < |txs|
        invariant 0 <= i <= |txs| && Valid()
        invariant storage.blockID == old(storage.blockID) && storage.addresses == old(storage.addresses)
        invariant Scan.SaveMatches(storage.addresses, old(storage.Index()), txs) ==
                  Scan.SaveMatches(storage.addresses, storage.Index(), txs[i..])
      {
        var transaction := txs[i];
        assert txs[i..][0] == transaction && txs[i..][1..] == txs[i + 1..];
        ghost var before := storage.Index();
        var fromSubscribed := storage.IsAddressExists(transaction.from);
        if fromSubscribed {
          err := storage.SaveTransactions(transaction.from, [transaction]);
          if err.Some? {
            return;
          }
        }
        var toSubscribed := storage.IsAddressExists(transaction.to);
        if toSubscribed {
          err := storage.SaveTransactions(transaction.to, [transaction]);
          if err.Some? {
            return;
          }
        }
        assert Scan.SaveSides(storage.addresses, before, transaction) == Scan.Saved(storage.Index(), None);
        i := i + 1;
      }
      assert txs[i..] == [];
      err := storage.SaveBlockID(blockID);
    }
  }
}
