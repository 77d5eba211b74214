/** The scan loop of txparser.go specified on the storages' observable state
    (a `View`): what one singleBlockProcess, one parseProcess (a tick) and a
    run of the worker do to the cursor, the subscriptions and the index. The
    imperative TXParser is proved to do exactly this; the lemmas below state
    what the scan loop guarantees. */
module Scan {
  import opened Results
  import opened Types
  import opened Storage
  import Hex

  /** The index after a run of saves, and the error that stopped it. */
  datatype Saved = Saved(index: Index, err: Option<string>)

  /** SaveTransactions(a, [tx]). */
  function SaveOne(ix: Index, a: string, tx: Transaction): Saved {
    match Hex.CheckHex(tx.hash)
    case Some(e) => Saved(ix, Some(e))
    case None => Saved(ix[a := Lookup(ix, a) + [tx]], None)
  }

  /** One transaction of a block: saved under its sender if subscribed, then
      under its receiver if subscribed; the first failing save stops. */
  function SaveSides(subs: set<string>, ix: Index, tx: Transaction): Saved {
    var s := if tx.from in subs then SaveOne(ix, tx.from, tx) else Saved(ix, None);
    if s.err.Some? || tx.to !in subs then s else SaveOne(s.index, tx.to, tx)
  }

  /** The transactions of a block, in block order, until a save fails. */
  function SaveMatches(subs: set<string>, ix: Index, txs: seq<Transaction>): Saved
    decreases |txs|
  {
    if txs == [] then Saved(ix, None)
    else
      var s := SaveSides(subs, ix, txs[0]);
      if s.err.Some? then s else SaveMatches(subs, s.index, txs[1..])
  }

  /** The copies of `tx` that belong in `a`'s bucket: one per subscribed side
      that is `a` (two if a subscribed address sends to itself). */
  function Copies(subs: set<string>, a: string, tx: Transaction): seq<Transaction> {
    (if tx.from == a && a in subs then [tx] else []) + (if tx.to == a && a in subs then [tx] else [])
  }

  /** The copies of `txs` that belong in `a`'s bucket, in block order. */
  function Matching(subs: set<string>, a: string, txs: seq<Transaction>): seq<Transaction> {
    if txs == [] then [] else Copies(subs, a, txs[0]) + Matching(subs, a, txs[1..])
  }

  /** A transaction with a subscribed side whose hash convertHexToNum
      rejects: its first save fails. */
  predicate Blocking(subs: set<string>, tx: Transaction) {
    (tx.from in subs || tx.to in subs) && Hex.CheckHex(tx.hash).Some?
  }

  /** The position of the first blocking transaction, |txs| if none. */
  function FirstBlocking(subs: set<string>, txs: seq<Transaction>): (k: nat)
    ensures k <= |txs|
    ensures forall j | 0 <= j < k :: !Blocking(subs, txs[j])
    ensures k < |txs| ==> Blocking(subs, txs[k])
  {
    if txs == [] then 0
    else if Blocking(subs, txs[0]) then 0
    else 1 + FirstBlocking(subs, txs[1..])
  }

  /** Saving one transaction appends its copies to every bucket, or, if it
      is blocking, fails before changing anything. */
  lemma SaveSidesMeaning(subs: set<string>, ix: Index, tx: Transaction)
    ensures var s := SaveSides(subs, ix, tx);
      && (Blocking(subs, tx) ==> s == Saved(ix, Hex.CheckHex(tx.hash)))
      && (!Blocking(subs, tx) ==> s.err.None? && forall a :: Lookup(s.index, a) == Lookup(ix, a) + Copies(subs, a, tx))
  {
  }

  /** singleBlockProcess's loop: every address's bucket gets, in block order,
      exactly the copies of the transactions before the first blocking one;
      the loop fails iff there is a blocking transaction, with the error of
      its hash. */
  lemma SaveMatchesMeaning(subs: set<string>, ix: Index, txs: seq<Transaction>)
    ensures var k := FirstBlocking(subs, txs);
      var s := SaveMatches(subs, ix, txs);
      && (forall a :: Lookup(s.index, a) == Lookup(ix, a) + Matching(subs, a, txs[..k]))
      && (s.err.None? <==> k == |txs|)
      && (k < |txs| ==> s.err == Hex.CheckHex(txs[k].hash))
  {
    SaveMatchesIndex(subs, ix, txs);
    SaveMatchesError(subs, ix, txs);
  }

  /** The index half of SaveMatchesMeaning. */
  lemma SaveMatchesIndex(subs: set<string>, ix: Index, txs: seq<Transaction>)
    ensures var k := FirstBlocking(subs, txs);
      forall a :: Lookup(SaveMatches(subs, ix, txs).index, a) == Lookup(ix, a) + Matching(subs, a, txs[..k])
  {
    forall a ensures Lookup(SaveMatches(subs, ix, txs).index, a) ==
      Lookup(ix, a) + Matching(subs, a, txs[..FirstBlocking(subs, txs)])
    {
      SaveMatchesAt(subs, ix, txs, a);
    }
  }

  /** SaveSidesMeaning for one address. */
  lemma SaveSidesAt(subs: set<string>, ix: Index, tx: Transaction, a: string)
    requires !Blocking(subs, tx)
    ensures SaveSides(subs, ix, tx).err.None?
    ensures Lookup(SaveSides(subs, ix, tx).index, a) == Lookup(ix, a) + Copies(subs, a, tx)
  {
  }

  /** The index half of SaveMatchesMeaning for one address. */
  lemma {:induction false} SaveMatchesAt(subs: set<string>, ix: Index, txs: seq<Transaction>, a: string)
    ensures Lookup(SaveMatches(subs, ix, txs).index, a) ==
      Lookup(ix, a) + Matching(subs, a, txs[..FirstBlocking(subs, txs)])
    decreases |txs|
  {
    if txs == [] || Blocking(subs, txs[0]) {
      SaveMatchesStop(subs, ix, txs, a);
    } else {
      var k := FirstBlocking(subs, txs);
      var s0 := SaveSides(subs, ix, txs[0]);
      SaveMatchesStep(subs, ix, txs);
      SaveSidesAt(subs, ix, txs[0], a);
      SaveMatchesAt(subs, s0.index, txs[1..], a);
      MatchingPrefix(subs, a, txs, k);
      ConcatAssoc(Lookup(ix, a), Copies(subs, a, txs[0]), Matching(subs, a, txs[1..][..k - 1]));
    }
  }

  /** The loop ends at once on an empty list or a blocking transaction. */
  lemma SaveMatchesStop(subs: set<string>, ix: Index, txs: seq<Transaction>, a: string)
    requires txs == [] || Blocking(subs, txs[0])
    ensures SaveMatches(subs, ix, txs).index == ix && FirstBlocking(subs, txs) == 0
    ensures Lookup(SaveMatches(subs, ix, txs).index, a) ==
      Lookup(ix, a) + Matching(subs, a, txs[..FirstBlocking(subs, txs)])
  {
    assert txs[..0] == [];
    assert Lookup(ix, a) + [] == Lookup(ix, a);
  }

  /** A non-blocking first transaction is saved and the loop goes on. */
  lemma SaveMatchesStep(subs: set<string>, ix: Index, txs: seq<Transaction>)
    requires txs != [] && !Blocking(subs, txs[0])
    ensures SaveMatches(subs, ix, txs) == SaveMatches(subs, SaveSides(subs, ix, txs[0]).index, txs[1..])
    ensures FirstBlocking(subs, txs) == 1 + FirstBlocking(subs, txs[1..])
  {
    SaveSidesAt(subs, ix, txs[0], txs[0].from);
  }

  lemma ConcatAssoc(b: seq<Transaction>, c: seq<Transaction>, m: seq<Transaction>)
    ensures (b + c) + m == b + (c + m)
  {
  }

  /** The error half of SaveMatchesMeaning. */
  lemma {:induction false} SaveMatchesError(subs: set<string>, ix: Index, txs: seq<Transaction>)
    ensures var k := FirstBlocking(subs, txs);
      var s := SaveMatches(subs, ix, txs);
      && (s.err.None? <==> k == |txs|)
      && (k < |txs| ==> s.err == Hex.CheckHex(txs[k].hash))
    decreases |txs|
  {
    if txs != [] {
      SaveSidesMeaning(subs, ix, txs[0]);
      if !Blocking(subs, txs[0]) {
        var s0 := SaveSides(subs, ix, txs[0]);
        SaveMatchesError(subs, s0.index, txs[1..]);
        var k := FirstBlocking(subs, txs);
        if k < |txs| {
          assert txs[k] == txs[1..][k - 1];
        }
      }
    }
  }

  /** The copies of the first k transactions are those of the first one
      followed by those of the next k - 1. */
  lemma MatchingPrefix(subs: set<string>, a: string, txs: seq<Transaction>, k: nat)
    requires 1 <= k <= |txs|
    ensures Matching(subs, a, txs[..k]) == Copies(subs, a, txs[0]) + Matching(subs, a, txs[1..][..k - 1])
  {
    assert txs[..k][0] == txs[0] && txs[..k][1..] == txs[1..][..k - 1];
  }

  /** Nothing is ever saved under an address that is not subscribed. */
  lemma {:induction false} UnsubscribedNeverMatched(subs: set<string>, a: string, txs: seq<Transaction>)
    requires a !in subs
    ensures Matching(subs, a, txs) == []
  {
    if txs != [] {
      UnsubscribedNeverMatched(subs, a, txs[1..]);
    }
  }

  /** singleBlockProcess once the block has been fetched: save the block's
      matches, then set the cursor to the block's height. A failed save
      leaves the cursor where it was, and keeps what was saved before it. */
  function ProcessBlock(v: View, id: int, block: Block): (View, Option<string>) {
    var s := SaveMatches(v.subscriptions, v.index, block.transactions);
    if s.err.Some? then (v.(index := s.index), s.err)
    else (v.(index := s.index, cursor := id), None)
  }

  /** singleBlockProcess: fetch block `id`, then process it. */
  function SingleBlock(v: View, id: int, ledger: Ledger): (View, Option<string>) {
    match BlockAt(ledger, id)
    case Err(e) => (v, Some(e))
    case Ok(block) => ProcessBlock(v, id, block)
  }

  /** The outcome of a tick: the new state, the heights whose blocks were
      requested (in request order), and the error that ended it. */
  datatype Tick = Tick(view: View, fetched: seq<int>, err: Option<string>)

  /** The `for blockID` loop of parseProcess from height `id` up to `top`,
      stopping at the first error. */
  function ScanFrom(v: View, id: int, top: int, ledger: Ledger): Tick
    decreases top - id
  {
    if id > top then Tick(v, [], None)
    else
      var (v', e) := SingleBlock(v, id, ledger);
      if e.Some? then Tick(v', [id], e)
      else
        var t := ScanFrom(v', id + 1, top, ledger);
        Tick(t.view, [id] + t.fetched, t.err)
  }

  /** parseProcess: nothing to do unless the client's height is above the
      cursor; otherwise scan every height from cursor + 1 to that height. */
  function ParseProcess(v: View, ledger: Ledger): Tick {
    match ledger.height
    case Err(e) => Tick(v, [], Some(e))
    case Ok(current) =>
      if current <= v.cursor then Tick(v, [], None)
      else ScanFrom(v, v.cursor + 1, current, ledger)
  }

  /** The ticks of a worker; a failed tick is logged and the next one
      starts from whatever the failed one left. */
  function RunTicks(v: View, ticks: seq<Ledger>): View
    decreases |ticks|
  {
    if ticks == [] then v else RunTicks(ParseProcess(v, ticks[0]).view, ticks[1..])
  }

  /** RunWorker: seed the cursor with the client's height, then run the
      ticks; if the client fails, nothing happens at all. */
  function RunWorker(v: View, seed: Ledger, ticks: seq<Ledger>): View {
    match seed.height
    case Err(_) => v
    case Ok(h) => RunTicks(v.(cursor := h), ticks)
  }

  /** `p` is a prefix of `s`. */
  predicate Extends(s: seq<Transaction>, p: seq<Transaction>) {
    |p| <= |s| && s[..|p|] == p
  }

  /** One block: subscriptions unchanged, every bucket only grows at its end,
      and the cursor either stays or becomes `id`, the latter exactly when
      the block succeeds. */
  lemma ProcessBlockMeaning(v: View, id: int, block: Block)
    ensures var (v', e) := ProcessBlock(v, id, block);
      var k := FirstBlocking(v.subscriptions, block.transactions);
      && v'.subscriptions == v.subscriptions
      && (e.None? <==> k == |block.transactions|)
      && v'.cursor == (if e.None? then id else v.cursor)
      && (forall a :: Lookup(v'.index, a) == Lookup(v.index, a) + Matching(v.subscriptions, a, block.transactions[..k]))
  {
    SaveMatchesMeaning(v.subscriptions, v.index, block.transactions);
  }

  /** The scan from `id` (just above the cursor) to `top`: the heights
      requested are id, id + 1, ... in strictly ascending order, never beyond
      `top`; on success the cursor is `top` and every height was requested
      once; on failure at height h (the last one requested) the cursor is
      h - 1. Subscriptions never change, and buckets only grow at their end
      (so a failed block keeps what it had saved), except those of
      unsubscribed addresses, which do not change. */
  lemma {:induction false} ScanFromMeaning(v: View, id: int, top: int, ledger: Ledger)
    requires v.cursor == id - 1 && id <= top + 1
    ensures var t := ScanFrom(v, id, top, ledger);
      && (forall k | 0 <= k < |t.fetched| :: t.fetched[k] == id + k)
      && |t.fetched| <= top - id + 1
      && (t.err.None? ==> t.view.cursor == top && |t.fetched| == top - id + 1)
      && (t.err.Some? ==> |t.fetched| >= 1 && t.view.cursor == t.fetched[|t.fetched| - 1] - 1)
      && id - 1 <= t.view.cursor <= top
      && t.view.subscriptions == v.subscriptions
      && (forall a :: Extends(Lookup(t.view.index, a), Lookup(v.index, a)))
      && (forall a | a !in v.subscriptions :: Lookup(t.view.index, a) == Lookup(v.index, a))
    decreases top - id
  {
    if id <= top {
      var (v', e) := SingleBlock(v, id, ledger);
      if BlockAt(ledger, id).Ok? {
        var block := BlockAt(ledger, id).value;
        ProcessBlockMeaning(v, id, block);
        var k := FirstBlocking(v.subscriptions, block.transactions);
        forall a | a !in v.subscriptions ensures Lookup(v'.index, a) == Lookup(v.index, a) {
          UnsubscribedNeverMatched(v.subscriptions, a, block.transactions[..k]);
        }
      }
      assert forall a :: Extends(Lookup(v'.index, a), Lookup(v.index, a));
      if e.None? {
        ScanFromMeaning(v', id + 1, top, ledger);
        var t := ScanFrom(v', id + 1, top, ledger);
        forall a ensures Extends(Lookup(t.view.index, a), Lookup(v.index, a)) {
          assert Lookup(t.view.index, a)[..|Lookup(v'.index, a)|] == Lookup(v'.index, a);
        }
      }
    }
  }

  /** The copies block `h` adds to `a`'s list when it is saved in full;
      none if the block cannot be fetched. */
  function BlockCopies(subs: set<string>, a: string, ledger: Ledger, h: int): seq<Transaction> {
    match BlockAt(ledger, h)
    case Err(_) => []
    case Ok(b) => Matching(subs, a, b.transactions)
  }

  /** The copies blocks lo .. hi - 1 add to `a`'s list, in ascending height
      order. */
  function Gained(subs: set<string>, a: string, ledger: Ledger, lo: int, hi: int): seq<Transaction>
    decreases hi - lo
  {
    if lo >= hi then [] else BlockCopies(subs, a, ledger, lo) + Gained(subs, a, ledger, lo + 1, hi)
  }

  /** What a failing block `h` leaves in `a`'s list: the copies of its
      transactions before the first blocking one; none if it cannot be
      fetched. */
  function Kept(subs: set<string>, a: string, ledger: Ledger, h: int): seq<Transaction> {
    match BlockAt(ledger, h)
    case Err(_) => []
    case Ok(b) => Matching(subs, a, b.transactions[..FirstBlocking(subs, b.transactions)])
  }

  /** One block's request and saves add its copies to `a`'s list when they
      succeed, and what it kept when they fail. */
  lemma SingleBlockAt(v: View, id: int, ledger: Ledger, a: string)
    ensures var (v', e) := SingleBlock(v, id, ledger);
      && v'.subscriptions == v.subscriptions
      && (e.None? ==> Lookup(v'.index, a) == Lookup(v.index, a) + BlockCopies(v.subscriptions, a, ledger, id))
      && (e.Some? ==> Lookup(v'.index, a) == Lookup(v.index, a) + Kept(v.subscriptions, a, ledger, id))
  {
    if BlockAt(ledger, id).Ok? {
      var txs := BlockAt(ledger, id).value.transactions;
      SaveMatchesAt(v.subscriptions, v.index, txs, a);
      SaveMatchesError(v.subscriptions, v.index, txs);
      assert txs[..|txs|] == txs;
    } else {
      assert Lookup(v.index, a) + [] == Lookup(v.index, a);
    }
  }

  /** One step of the scan: block `id` is processed, and the scan stops on
      its error or goes on from the next height. */
  lemma ScanFromStep(v: View, id: int, top: int, ledger: Ledger)
    requires id <= top
    ensures var (v', e) := SingleBlock(v, id, ledger);
      var rest := ScanFrom(v', id + 1, top, ledger);
      && (e.Some? ==> ScanFrom(v, id, top, ledger) == Tick(v', [id], e))
      && (e.None? ==> ScanFrom(v, id, top, ledger) == Tick(rest.view, [id] + rest.fetched, rest.err))
  {
  }

  /** What the scan from `id` to `top` adds to `a`'s list: on success the
      copies of blocks id .. top in ascending height order; on failure at
      height h, the last one it requested, the copies of blocks id .. h - 1
      followed by what block h kept. */
  predicate ScanFromGainsHolds(v: View, id: int, top: int, ledger: Ledger, a: string) {
    var t := ScanFrom(v, id, top, ledger);
    && (t.err.Some? ==> |t.fetched| >= 1)
    && (t.err.None? ==>
          Lookup(t.view.index, a) == Lookup(v.index, a) + Gained(v.subscriptions, a, ledger, id, top + 1))
    && (t.err.Some? ==>
          Lookup(t.view.index, a) == Lookup(v.index, a) + Gained(v.subscriptions, a, ledger, id, id + |t.fetched| - 1)
                                       + Kept(v.subscriptions, a, ledger, id + |t.fetched| - 1))
  }

  /** The scan from `id` to `top` adds to `a`'s list exactly what
      ScanFromGainsHolds says, whatever the ledger answers. */
  lemma {:induction false} ScanFromGains(v: View, id: int, top: int, ledger: Ledger, a: string)
    ensures ScanFromGainsHolds(v, id, top, ledger, a)
    decreases top - id
  {
    var b := Lookup(v.index, a);
    if id > top {
      assert b + [] == b;
    } else if SingleBlock(v, id, ledger).1.Some? {
      SingleBlockAt(v, id, ledger, a);
      assert b + [] == b;
    } else {
      ScanFromGains(SingleBlock(v, id, ledger).0, id + 1, top, ledger, a);
      ScanFromGainsStep(v, id, top, ledger, a);
    }
  }

  /** The inductive step of ScanFromGains: block `id` is saved whole and
      the rest of the scan continues from the updated view. */
  lemma ScanFromGainsStep(v: View, id: int, top: int, ledger: Ledger, a: string)
    requires id <= top && SingleBlock(v, id, ledger).1.None?
    requires ScanFromGainsHolds(SingleBlock(v, id, ledger).0, id + 1, top, ledger, a)
    ensures ScanFromGainsHolds(v, id, top, ledger, a)
  {
    var subs := v.subscriptions;
    var v' := SingleBlock(v, id, ledger).0;
    SingleBlockAt(v, id, ledger, a);
    var t' := ScanFrom(v', id + 1, top, ledger);
    assert ScanFrom(v, id, top, ledger) == Tick(t'.view, [id] + t'.fetched, t'.err);
    var b := Lookup(v.index, a);
    var c := BlockCopies(subs, a, ledger, id);
    if t'.err.None? {
      ConcatAssoc(b, c, Gained(subs, a, ledger, id + 1, top + 1));
    } else {
      var h := id + |t'.fetched|;
      assert Gained(subs, a, ledger, id, h) == c + Gained(subs, a, ledger, id + 1, h);
      ConcatAssoc(b, c, Gained(subs, a, ledger, id + 1, h));
    }
  }

  /** One tick: the cursor never moves back and never passes the height the
      client reported; a successful tick leaves it at least at that height
      (exactly there if it was below); the blocks requested are exactly the
      ones above the old cursor, in ascending order, so no block at or below
      the cursor is ever scanned again. If the client's height is at most
      the cursor, the tick changes nothing and succeeds. */
  lemma ParseProcessMeaning(v: View, ledger: Ledger)
    ensures var t := ParseProcess(v, ledger);
      && t.view.cursor >= v.cursor
      && t.view.subscriptions == v.subscriptions
      && (forall a :: Extends(Lookup(t.view.index, a), Lookup(v.index, a)))
      && (forall k | 0 <= k < |t.fetched| :: t.fetched[k] == v.cursor + 1 + k)
      && (ledger.height.Err? ==> t == Tick(v, [], Some(ledger.height.msg)))
      && (ledger.height.Ok? && ledger.height.value <= v.cursor ==> t == Tick(v, [], None))
      && (ledger.height.Ok? && ledger.height.value > v.cursor ==>
            && t.view.cursor <= ledger.height.value
            && |t.fetched| <= ledger.height.value - v.cursor
            && (t.err.None? ==> t.view.cursor == ledger.height.value &&
                                |t.fetched| == ledger.height.value - v.cursor)
            && (t.err.Some? ==> |t.fetched| >= 1 && t.view.cursor == t.fetched[|t.fetched| - 1] - 1))
  {
    if ledger.height.Ok? && ledger.height.value > v.cursor {
      ScanFromMeaning(v, v.cursor + 1, ledger.height.value, ledger);
    }
  }

  /** What one tick adds to `a`'s list: when the node reports a height
      above the cursor, the copies of every block after the cursor up to
      that height; when a request or a save fails, the copies of the blocks
      before the failing one, then what the failing block kept (none when
      its request failed). Ticks that fetch nothing leave the index alone
      (ParseProcessMeaning). */
  lemma ParseProcessGains(v: View, ledger: Ledger, a: string)
    ensures var t := ParseProcess(v, ledger);
      && (ledger.height.Ok? && ledger.height.value > v.cursor && t.err.None? ==>
            Lookup(t.view.index, a) == Lookup(v.index, a)
                                       + Gained(v.subscriptions, a, ledger, v.cursor + 1, ledger.height.value + 1))
      && (ledger.height.Ok? && ledger.height.value > v.cursor && t.err.Some? ==>
            Lookup(t.view.index, a) == Lookup(v.index, a)
                                       + Gained(v.subscriptions, a, ledger, v.cursor + 1, v.cursor + |t.fetched|)
                                       + Kept(v.subscriptions, a, ledger, v.cursor + |t.fetched|))
  {
    if ledger.height.Ok? && ledger.height.value > v.cursor {
      assert ParseProcess(v, ledger) == ScanFrom(v, v.cursor + 1, ledger.height.value, ledger);
      ScanFromGains(v, v.cursor + 1, ledger.height.value, ledger, a);
    }
  }

  /** A tick that fails while saving the block just above the cursor leaves
      the copies saved before the failing transaction in place, with the
      cursor unchanged; the next tick over the same ledger processes the
      same block again and saves those copies a second time. */
  lemma RetryDuplicates(v: View, ledger: Ledger)
    requires ledger.height.Ok? && ledger.height.value > v.cursor
    requires BlockAt(ledger, v.cursor + 1).Ok?
    requires var txs := BlockAt(ledger, v.cursor + 1).value.transactions;
      FirstBlocking(v.subscriptions, txs) < |txs|
    ensures var txs := BlockAt(ledger, v.cursor + 1).value.transactions;
      var done := txs[..FirstBlocking(v.subscriptions, txs)];
      var t1 := ParseProcess(v, ledger);
      var t2 := ParseProcess(t1.view, ledger);
      && t1.err.Some? && t2.err.Some?
      && t1.view.cursor == v.cursor && t2.view.cursor == v.cursor
      && t1.fetched == [v.cursor + 1] && t2.fetched == [v.cursor + 1]
      && forall a :: Lookup(t2.view.index, a) ==
           Lookup(v.index, a) + Matching(v.subscriptions, a, done) + Matching(v.subscriptions, a, done)
  {
    var block := BlockAt(ledger, v.cursor + 1).value;
    ProcessBlockMeaning(v, v.cursor + 1, block);
    var t1 := ParseProcess(v, ledger);
    ProcessBlockMeaning(t1.view, v.cursor + 1, block);
  }

  /** Over any sequence of ticks the cursor never moves back and the
      subscriptions do not change. */
  lemma {:induction false} RunTicksMonotonic(v: View, ticks: seq<Ledger>)
    ensures RunTicks(v, ticks).cursor >= v.cursor
    ensures RunTicks(v, ticks).subscriptions == v.subscriptions
    decreases |ticks|
  {
    if ticks != [] {
      ParseProcessMeaning(v, ticks[0]);
      RunTicksMonotonic(ParseProcess(v, ticks[0]).view, ticks[1..]);
    }
  }

  /** RunWorker: with a failing client nothing changes; otherwise the cursor
      is seeded with the client's height before any tick, so the ticks never
      request a block at or below that height. */
  lemma RunWorkerSeeds(v: View, seed: Ledger, ticks: seq<Ledger>)
    ensures seed.height.Err? ==> RunWorker(v, seed, ticks) == v
    ensures seed.height.Ok? ==> RunWorker(v, seed, ticks).cursor >= seed.height.value
    ensures seed.height.Ok? && ticks != [] ==>
      forall k | 0 <= k < |ParseProcess(v.(cursor := seed.height.value), ticks[0]).fetched| ::
        ParseProcess(v.(cursor := seed.height.value), ticks[0]).fetched[k] > seed.height.value
  {
    if seed.height.Ok? {
      RunTicksMonotonic(v.(cursor := seed.height.value), ticks);
      if ticks != [] {
        ParseProcessMeaning(v.(cursor := seed.height.value), ticks[0]);
      }
    }
  }

  /** getTransactions on the abstract state: the bucket, and the state with
      the bucket drained. */
  function Drain(v: View, a: string): (seq<Transaction>, View) {
    (Lookup(v.index, a), v.(index := v.index - {a}))
  }

  /** Draining returns the bucket once: a second drain returns nothing, and
      every other address keeps its bucket, so a transaction saved under
      both its sender and its receiver stays available to the other side. */
  lemma DrainMeaning(v: View, a: string)
    ensures var (txs, v') := Drain(v, a);
      && txs == Lookup(v.index, a)
      && Drain(v', a).0 == []
      && v'.cursor == v.cursor && v'.subscriptions == v.subscriptions
      && forall b | b != a :: Lookup(v'.index, b) == Lookup(v.index, b)
  {
  }
}
