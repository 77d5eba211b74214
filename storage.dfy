/** The in-memory storages of storage.go, held by one object: the cursor
    (InmemoryBlockStorage), the subscribed addresses
    (InmemorySubscriptionsStorage) and the transaction index
    (InmemoryTransactionsStorage).

    The index keeps, per address, a bucket of handles, and a map from handle
    to transaction record. In the source a handle is a `*big.Int` freshly
    allocated by every conversion of a hash, and the record map is keyed by
    that pointer, not by the number it holds: two saves of the same
    transaction make two records with two handles. Here a handle is a fresh
    natural number drawn from a counter. */
module Storage {
  import opened Results
  import opened Types
  import Hex

  type Handle = nat

  /** The index as callers see it: each address's bucket resolved to its
      transactions, in append order. */
  type Index = map<string, seq<Transaction>>

  /** What GetTransactionsByAddress returns for `a`: its bucket, or nothing
      for an address without one. */
  function Lookup(ix: Index, a: string): seq<Transaction> {
    if a in ix then ix[a] else []
  }

  /** The observable state of the three storages. */
  datatype View = View(cursor: int, subscriptions: set<string>, index: Index)

  predicate Resolvable(hs: seq<Handle>, records: map<Handle, Transaction>) {
    forall i | 0 <= i < |hs| :: hs[i] in records
  }

  function Resolve(hs: seq<Handle>, records: map<Handle, Transaction>): seq<Transaction>
    requires Resolvable(hs, records)
  {
    seq(|hs|, i requires 0 <= i < |hs| => records[hs[i]])
  }

  /** No handle occurs twice, neither in one bucket nor in two. */
  predicate HandlesDistinct(buckets: map<string, seq<Handle>>) {
    forall a, i, b, j | a in buckets && b in buckets && 0 <= i < |buckets[a]| && 0 <= j < |buckets[b]| ::
      buckets[a][i] == buckets[b][j] ==> a == b && i == j
  }

  /** The error SaveTransactions reports for a list: that of the first hash
      convertHexToNum rejects. */
  function HashError(txs: seq<Transaction>): (e: Option<string>)
    ensures e.None? <==> forall k | 0 <= k < |txs| :: Hex.CheckHex(txs[k].hash).None?
  {
    if txs == [] then None
    else if Hex.CheckHex(txs[0].hash).Some? then Hex.CheckHex(txs[0].hash)
    else HashError(txs[1..])
  }

  /** Resolving handles only needs their records, so adding or removing
      other records does not change the result. */
  lemma ResolveStable(hs: seq<Handle>, records: map<Handle, Transaction>, records': map<Handle, Transaction>)
    requires Resolvable(hs, records)
    requires forall i | 0 <= i < |hs| :: hs[i] in records' && records'[hs[i]] == records[hs[i]]
    ensures Resolvable(hs, records') && Resolve(hs, records') == Resolve(hs, records)
  {
  }

  class InmemoryStorage {
    /** InmemoryBlockStorage: the last processed block height. */
    var blockID: int
    /** InmemorySubscriptionsStorage: the watched addresses. */
    var addresses: set<string>
    /** InmemoryTransactionsStorage: per-address buckets of handles ... */
    var transactionsByAddress: map<string, seq<Handle>>
    /** ... and the records the handles point to. */
    var transactions: map<Handle, Transaction>
    /** The next handle to allocate; no record uses it or any larger one. */
    var nextHandle: Handle

    /** Every handle in a bucket has its record (so the lookup failure that
        GetTransactionsByAddress guards against cannot happen), every record
        was allocated, and no handle is shared. */
    ghost predicate Valid()
      reads this
    {
      && (forall h | h in transactions :: h < nextHandle)
      && (forall a | a in transactionsByAddress :: Resolvable(transactionsByAddress[a], transactions))
      && HandlesDistinct(transactionsByAddress)
    }

    function Index(): Index
      reads this
      requires Valid()
    {
      map a | a in transactionsByAddress :: Resolve(transactionsByAddress[a], transactions)
    }

    function Snapshot(): View
      reads this
      requires Valid()
    {
      View(blockID, addresses, Index())
    }

    /** All three storages start empty; the cursor reads 0 before it is
        first saved. */
    constructor ()
      ensures Valid() && Snapshot() == View(0, {}, map[])
    {
      blockID := 0;
      addresses := {};
      transactionsByAddress := map[];
      transactions := map[];
      nextHandle := 0;
    }

    /** SaveBlockID: last write wins, no check that the cursor grows. */
    method SaveBlockID(id: int) returns (err: Option<string>)
      requires Valid()
      modifies this
      ensures Valid() && err.None?
      ensures Snapshot() == old(Snapshot()).(cursor := id)
    {
      blockID := id;
      return None;
    }

    method GetBlockID() returns (id: int)
      ensures id == blockID
    {
      return blockID;
    }

    /** PutAddress: adding is idempotent and never fails. */
    method PutAddress(address: string) returns (err: Option<string>)
      requires Valid()
      modifies this
      ensures Valid() && err.None?
      ensures Snapshot() == old(Snapshot()).(subscriptions := old(addresses) + {address})
    {
      addresses := addresses + {address};
      return None;
    }

    method IsAddressExists(address: string) returns (ok: bool)
      ensures ok <==> address in addresses
    {
      return address in addresses;
    }

    /** GetTransactionsByAddress: the bucket's handles resolved in order; an
        address without a bucket gives the empty list. */
    method GetTransactionsByAddress(address: string) returns (result: seq<Transaction>)
      requires Valid()
      ensures result == Lookup(Index(), address)
      ensures address !in transactionsByAddress ==> result == []
      ensures address in transactionsByAddress ==> |result| == |transactionsByAddress[address]|
    {
      if address !in transactionsByAddress {
        return [];
      }
      var hashes := transactionsByAddress[address];
      result := [];
      var i := 0;
      while i < |hashes|
        invariant 0 <= i <= |hashes|
        invariant result == Resolve(hashes[..i], transactions)
      {
        // Valid() rules out the source's early return for a missing record.
        assert hashes[i] in transactions;
        result := result + [transactions[hashes[i]]];
        i := i + 1;
      }
      assert hashes[..i] == hashes;
    }

    /** SaveTransactions: each transaction gets a fresh handle and a record;
        the handles are appended to the address's bucket, which is created
        if missing. There is no deduplication. If a hash is rejected, the
        call stops there with that error and the bucket is left as it was,
        while the records already stored for earlier transactions stay (as
        orphans no bucket refers to). */
    method SaveTransactions(address: string, newTransactions: seq<Transaction>) returns (err: Option<string>)
      requires Valid()
      modifies this
      ensures Valid()
      ensures err == HashError(newTransactions)
      ensures blockID == old(blockID) && addresses == old(addresses)
      ensures err.None? ==>
        Index() == old(Index())[address := Lookup(old(Index()), address) + newTransactions]
      ensures err.Some? ==> transactionsByAddress == old(transactionsByAddress) && Index() == old(Index())
      ensures forall h | h in old(transactions) :: h in transactions && transactions[h] == old(transactions)[h]
    {
      var hashes;
      hashes, err := StoreRecords(newTransactions);
      if err.Some? {
        return;
      }
      var bucket := if address in transactionsByAddress then transactionsByAddress[address] else [];
      AppendFreshHandles(address, bucket, hashes, newTransactions, old(nextHandle));
      transactionsByAddress := transactionsByAddress[address := bucket + hashes];
    }

    /** The loop of SaveTransactions: a record under a fresh handle for each
        transaction, in order, until a hash is rejected. Buckets are not
        touched. */
    method StoreRecords(newTransactions: seq<Transaction>) returns (hashes: seq<Handle>, err: Option<string>)
      requires Valid()
      modifies this`transactions, this`nextHandle
      ensures Valid() && Index() == old(Index())
      ensures err == HashError(newTransactions)
      ensures nextHandle >= old(nextHandle)
      ensures forall h | h in old(transactions) :: h in transactions && transactions[h] == old(transactions)[h]
      ensures err.None? ==> |hashes| == |newTransactions|
      ensures err.None? ==> forall k | 0 <= k < |hashes| ::
        hashes[k] == old(nextHandle) + k && hashes[k] in transactions && transactions[hashes[k]] == newTransactions[k]
    {
      hashes := [];
      var i := 0;
      while i < |newTransactions|
        invariant 0 <= i <= |newTransactions|
        invariant HashError(newTransactions) == HashError(newTransactions[i..])
        invariant nextHandle == old(nextHandle) + i && |hashes| == i
        invariant forall k | 0 <= k < i :: hashes[k] == old(nextHandle) + k
        invariant forall k | 0 <= k < i :: hashes[k] in transactions && transactions[hashes[k]] == newTransactions[k]
        invariant forall h | h in old(transactions) :: h in transactions && transactions[h] == old(transactions)[h]
        invariant forall h | h in transactions :: h < nextHandle
      {
        assert newTransactions[i..][0] == newTransactions[i] && newTransactions[i..][1..] == newTransactions[i + 1..];
        var e := Hex.CheckHex(newTransactions[i].hash);
        if e.Some? {
          ResolveAllStable(old(transactions));
          return hashes, e;
        }
        transactions := transactions[nextHandle := newTransactions[i]];
        hashes := hashes + [nextHandle];
        nextHandle := nextHandle + 1;
        i := i + 1;
      }
      assert newTransactions[i..] == [];
      ResolveAllStable(old(transactions));
      return hashes, None;
    }

    /** Appending freshly allocated handles to one bucket keeps Valid() and
        appends their transactions to that address's entry of the index. */
    lemma AppendFreshHandles(address: string, bucket: seq<Handle>, hashes: seq<Handle>,
                             txs: seq<Transaction>, firstFresh: Handle)
      requires HandlesDistinct(transactionsByAddress)
      requires forall a | a in transactionsByAddress :: Resolvable(transactionsByAddress[a], transactions)
      requires forall h | h in transactions :: h < nextHandle
      requires bucket == if address in transactionsByAddress then transactionsByAddress[address] else []
      requires forall a, i | a in transactionsByAddress && 0 <= i < |transactionsByAddress[a]| ::
        transactionsByAddress[a][i] < firstFresh
      requires |hashes| == |txs|
      requires forall k | 0 <= k < |hashes| ::
        hashes[k] == firstFresh + k && hashes[k] in transactions && transactions[hashes[k]] == txs[k]
      ensures var buckets := transactionsByAddress[address := bucket + hashes];
        && HandlesDistinct(buckets)
        && (forall a | a in buckets :: Resolvable(buckets[a], transactions))
        && (map a | a in buckets :: Resolve(buckets[a], transactions)) ==
           (map a | a in transactionsByAddress :: Resolve(transactionsByAddress[a], transactions))[
             address := Resolve(bucket, transactions) + txs]
    {
      var buckets := transactionsByAddress[address := bucket + hashes];
      assert Resolve(bucket + hashes, transactions) == Resolve(bucket, transactions) + txs;
    }

    /** The buckets are unchanged and the records they use survive with the
        same values, so the resolved index is unchanged. */
    lemma ResolveAllStable(before: map<Handle, Transaction>)
      requires forall a | a in transactionsByAddress :: Resolvable(transactionsByAddress[a], before)
      requires forall h | h in before :: h in transactions && transactions[h] == before[h]
      ensures forall a | a in transactionsByAddress ::
        Resolvable(transactionsByAddress[a], transactions) &&
        Resolve(transactionsByAddress[a], transactions) == Resolve(transactionsByAddress[a], before)
      ensures (map a | a in transactionsByAddress :: Resolve(transactionsByAddress[a], transactions)) ==
              (map a | a in transactionsByAddress :: Resolve(transactionsByAddress[a], before))
    {
      forall a | a in transactionsByAddress
        ensures Resolvable(transactionsByAddress[a], transactions)
        ensures Resolve(transactionsByAddress[a], transactions) == Resolve(transactionsByAddress[a], before)
      {
        ResolveStable(transactionsByAddress[a], before, transactions);
      }
    }

    /** DeleteTransactionsByAddress: the bucket and exactly its records go;
        other buckets and their records stay. Deleting an address without a
        bucket is a successful no-op. */
    method DeleteTransactionsByAddress(address: string) returns (err: Option<string>)
      requires Valid()
      modifies this
      ensures Valid() && err.None?
      ensures blockID == old(blockID) && addresses == old(addresses)
      ensures transactionsByAddress == old(transactionsByAddress) - {address}
      ensures Index() == old(Index()) - {address}
      ensures forall h :: h in transactions <==>
        h in old(transactions) && (address in old(transactionsByAddress) ==> h !in old(transactionsByAddress)[address])
    {
      if address !in transactionsByAddress {
        return None;
      }
      var hashes := transactionsByAddress[address];
      var i := 0;
      while i < |hashes|
        invariant 0 <= i <= |hashes|
        invariant forall h :: h in transactions <==> h in old(transactions) && h !in hashes[..i]
        invariant forall h | h in transactions :: transactions[h] == old(transactions)[h]
        invariant blockID == old(blockID) && addresses == old(addresses) && nextHandle == old(nextHandle)
        invariant transactionsByAddress == old(transactionsByAddress)
      {
        assert hashes[..i + 1] == hashes[..i] + [hashes[i]];
        transactions := transactions - {hashes[i]};
        i := i + 1;
      }
      assert hashes[..i] == hashes;
      transactionsByAddress := transactionsByAddress - {address};
      forall b | b in transactionsByAddress
        ensures Resolvable(transactionsByAddress[b], transactions)
        ensures Resolve(transactionsByAddress[b], transactions) == Resolve(transactionsByAddress[b], old(transactions))
      {
        var hb := transactionsByAddress[b];
        ResolveStable(hb, old(transactions), transactions);
      }
      return None;
    }
  }
}
