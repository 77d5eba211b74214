/** The result-decoding half of the JSON-RPC ledger client (client.go): the
    loosely typed JSON value of a response is validated into a block height,
    a Block or a Transaction. Sending the request (doRequest) is not part of
    this model. */
module Client {
  import opened Results
  import opened Types
  import Hex

  /** A decoded JSON value as Go's encoding/json delivers it into `any`:
      strings, objects, arrays, and everything else (numbers, booleans,
      null), which no decoder here accepts. */
  datatype Json = JString(str: string) | JObject(fields: map<string, Json>) | JArray(items: seq<Json>) | JOther

  type Object = map<string, Json>

  const InvalidResponse: string := "invalid response from api"
  const InvalidBlockNumber: string := "invalid structure, invalid block number"
  const InvalidBlockHash: string := "invalid structure, invalid block hash"
  const InvalidBlockTransactions: string := "invalid structure, invalid block transactions"

  /** The fields of a transaction object in the order they are checked, and
      the error reported when each one is missing or not a string. */
  const TransactionKeys: seq<string> := ["blockNumber", "blockHash", "hash", "from", "to", "value"]
  const TransactionKeyErrors: seq<string> := [
    "invalid structure, invalid block number",
    "invalid structure, invalid block hash",
    "invalid structure, invalid hash",
    "invalid structure, invalid 'from' value",
    "invalid structure, invalid 'to' value",
    "invalid structure, invalid 'value' in transaction"]

  /** `v[key].(string)` succeeds: the key is present and holds a string. */
  predicate HasString(v: Object, key: string) {
    key in v && v[key].JString?
  }

  /** Field `i` of TransactionKeys is the first one that fails its check. */
  predicate FirstBadKey(v: Object, i: int) {
    0 <= i < |TransactionKeys| && !HasString(v, TransactionKeys[i]) &&
    forall j | 0 <= j < i :: HasString(v, TransactionKeys[j])
  }

  /** convertMapRawToTransaction: all six fields must be strings, checked in
      order; the first failing one decides the error; on success every field
      is copied unchanged. */
  function ConvertMapRawToTransaction(v: Object): (r: Result<Transaction>)
    ensures r.Ok? <==> forall i | 0 <= i < |TransactionKeys| :: HasString(v, TransactionKeys[i])
    ensures r.Ok? ==>
      && HasString(v, "blockNumber") && HasString(v, "blockHash") && HasString(v, "hash")
      && HasString(v, "from") && HasString(v, "to") && HasString(v, "value")
      && r.value == Transaction(v["blockNumber"].str, v["blockHash"].str, v["hash"].str,
                                v["from"].str, v["to"].str, v["value"].str)
    ensures r.Err? ==> exists i :: FirstBadKey(v, i) && r.msg == TransactionKeyErrors[i]
  {
    if !HasString(v, "blockNumber") then
      assert FirstBadKey(v, 0); Err(TransactionKeyErrors[0])
    else if !HasString(v, "blockHash") then
      assert FirstBadKey(v, 1); Err(TransactionKeyErrors[1])
    else if !HasString(v, "hash") then
      assert FirstBadKey(v, 2); Err(TransactionKeyErrors[2])
    else if !HasString(v, "from") then
      assert FirstBadKey(v, 3); Err(TransactionKeyErrors[3])
    else if !HasString(v, "to") then
      assert FirstBadKey(v, 4); Err(TransactionKeyErrors[4])
    else if !HasString(v, "value") then
      assert FirstBadKey(v, 5); Err(TransactionKeyErrors[5])
    else
      Ok(Transaction(v["blockNumber"].str, v["blockHash"].str, v["hash"].str,
                     v["from"].str, v["to"].str, v["value"].str))
  }

  /** The objects among the entries of a block's transaction array, in order;
      the decoder skips every other entry. */
  function Objects(items: seq<Json>): seq<Object> {
    if items == [] then []
    else (if items[0].JObject? then [items[0].fields] else []) + Objects(items[1..])
  }

  /** The transaction array of a block decoded entry by entry: non-objects
      are skipped, the first malformed object aborts with its error. */
  function DecodeTransactions(items: seq<Json>): Result<seq<Transaction>> {
    if items == [] then Ok([])
    else if !items[0].JObject? then DecodeTransactions(items[1..])
    else match ConvertMapRawToTransaction(items[0].fields)
      case Err(e) => Err(e)
      case Ok(tx) =>
        match DecodeTransactions(items[1..])
        case Err(e) => Err(e)
        case Ok(rest) => Ok([tx] + rest)
  }

  /** `txs` followed by the outcome of decoding the rest of an array. */
  function Prepend(txs: seq<Transaction>, r: Result<seq<Transaction>>): Result<seq<Transaction>> {
    if r.Err? then r else Ok(txs + r.value)
  }

  /** The first object that fails to convert is object `k`. */
  predicate FirstBadObject(objs: seq<Object>, k: int) {
    0 <= k < |objs| && ConvertMapRawToTransaction(objs[k]).Err? &&
    forall j | 0 <= j < k :: ConvertMapRawToTransaction(objs[j]).Ok?
  }

  /** Decoding a transaction array succeeds exactly when every object entry
      converts, and the result is then those conversions in array order. */
  lemma DecodeTransactionsOk(items: seq<Json>)
    ensures var objs := Objects(items);
      && (DecodeTransactions(items).Ok? <==>
            forall k | 0 <= k < |objs| :: ConvertMapRawToTransaction(objs[k]).Ok?)
      && (DecodeTransactions(items).Ok? ==>
            |DecodeTransactions(items).value| == |objs| &&
            forall k | 0 <= k < |objs| ::
              DecodeTransactions(items).value[k] == ConvertMapRawToTransaction(objs[k]).value)
  {
    DecodeTransactionsAccepts(items);
    AllConvertMeaning(Objects(items));
    DecodeTransactionsValues(items);
  }

  /** Every object of `objs` converts. */
  predicate AllConvert(objs: seq<Object>) {
    objs == [] || (ConvertMapRawToTransaction(objs[0]).Ok? && AllConvert(objs[1..]))
  }

  lemma {:induction false} AllConvertMeaning(objs: seq<Object>)
    ensures AllConvert(objs) <==> forall k | 0 <= k < |objs| :: ConvertMapRawToTransaction(objs[k]).Ok?
  {
    if objs != [] {
      AllConvertMeaning(objs[1..]);
      assert forall k | 1 <= k < |objs| :: objs[k] == objs[1..][k - 1];
      assert forall j | 0 <= j < |objs[1..]| :: objs[1..][j] == objs[j + 1];
    }
  }

  /** The first half of DecodeTransactionsOk: when decoding succeeds. */
  lemma {:induction false} DecodeTransactionsAccepts(items: seq<Json>)
    ensures DecodeTransactions(items).Ok? <==> AllConvert(Objects(items))
  {
    if items != [] {
      DecodeTransactionsAccepts(items[1..]);
      if items[0].JObject? {
        assert Objects(items) == [items[0].fields] + Objects(items[1..]);
        assert Objects(items)[1..] == Objects(items[1..]);
      } else {
        assert Objects(items) == [] + Objects(items[1..]) == Objects(items[1..]);
      }
    }
  }

  /** The second half of DecodeTransactionsOk: what a successful decoding
      returns. */
  lemma {:induction false} DecodeTransactionsValues(items: seq<Json>)
    ensures var objs := Objects(items);
      DecodeTransactions(items).Ok? ==>
        |DecodeTransactions(items).value| == |objs| &&
        forall k | 0 <= k < |objs| ::
          ConvertMapRawToTransaction(objs[k]).Ok? &&
          DecodeTransactions(items).value[k] == ConvertMapRawToTransaction(objs[k]).value
  {
    if items != [] && DecodeTransactions(items).Ok? {
      DecodeTransactionsValues(items[1..]);
      var objs := Objects(items);
      var tail := Objects(items[1..]);
      if items[0].JObject? {
        assert objs == [items[0].fields] + tail;
        var head := ConvertMapRawToTransaction(items[0].fields);
        var rest := DecodeTransactions(items[1..]);
        assert DecodeTransactions(items) == Ok([head.value] + rest.value);
        forall k | 1 <= k < |objs|
          ensures ConvertMapRawToTransaction(objs[k]).Ok?
          ensures DecodeTransactions(items).value[k] == ConvertMapRawToTransaction(objs[k]).value
        {
          assert objs[k] == tail[k - 1];
        }
      } else {
        assert objs == tail;
      }
    }
  }

  /** A failed decoding reports the error of the first object entry that
      does not convert. */
  lemma {:induction false} DecodeTransactionsErr(items: seq<Json>)
    ensures DecodeTransactions(items).Err? ==>
      exists k :: FirstBadObject(Objects(items), k) &&
        DecodeTransactions(items).msg == ConvertMapRawToTransaction(Objects(items)[k]).msg
  {
    if items != [] && DecodeTransactions(items).Err? {
      DecodeTransactionsErr(items[1..]);
      var objs := Objects(items);
      var tail := Objects(items[1..]);
      if !items[0].JObject? {
        assert objs == tail;
      } else {
        assert objs == [items[0].fields] + tail;
        if ConvertMapRawToTransaction(items[0].fields).Err? {
          assert FirstBadObject(objs, 0);
        } else {
          var k :| FirstBadObject(tail, k) && DecodeTransactions(items[1..]).msg == ConvertMapRawToTransaction(tail[k]).msg;
          assert objs[k + 1] == tail[k];
          assert FirstBadObject(objs, k + 1);
        }
      }
    }
  }

  /** The decoding done by GetBlockByNumber once the response has arrived. */
  function DecodeBlockResult(raw: Json): Result<Block> {
    if !raw.JObject? then Err(InvalidResponse)
    else if !HasString(raw.fields, "number") then Err(InvalidBlockNumber)
    else if !HasString(raw.fields, "hash") then Err(InvalidBlockHash)
    else if !("transactions" in raw.fields && raw.fields["transactions"].JArray?) then Err(InvalidBlockTransactions)
    else match DecodeTransactions(raw.fields["transactions"].items)
      case Err(e) => Err(e)
      case Ok(txs) => Ok(Block(raw.fields["number"].str, raw.fields["hash"].str, txs))
  }

  /** The block shape: a string number, a string hash and an array of
      transactions whose object entries all convert. */
  lemma BlockResultAccepts(raw: Json)
    ensures DecodeBlockResult(raw).Ok? <==>
      && raw.JObject?
      && HasString(raw.fields, "number") && HasString(raw.fields, "hash")
      && "transactions" in raw.fields && raw.fields["transactions"].JArray?
      && var objs := Objects(raw.fields["transactions"].items);
         forall k | 0 <= k < |objs| :: ConvertMapRawToTransaction(objs[k]).Ok?
    ensures DecodeBlockResult(raw).Ok? ==>
      var b := DecodeBlockResult(raw).value;
      var objs := Objects(raw.fields["transactions"].items);
      && b.number == raw.fields["number"].str && b.hash == raw.fields["hash"].str
      && |b.transactions| == |objs|
      && forall k | 0 <= k < |objs| :: b.transactions[k] == ConvertMapRawToTransaction(objs[k]).value
  {
    if raw.JObject? && "transactions" in raw.fields && raw.fields["transactions"].JArray? {
      DecodeTransactionsOk(raw.fields["transactions"].items);
    }
  }

  /** GetBlockByNumber's decoding loop: the block's transactions are built
      by appending, skipping non-object entries and aborting on the first
      malformed object. */
  method DecodeBlock(raw: Json) returns (r: Result<Block>)
    ensures r == DecodeBlockResult(raw)
  {
    if !raw.JObject? {
      return Err(InvalidResponse);
    }
    var rawBlock := raw.fields;
    if !HasString(rawBlock, "number") {
      return Err(InvalidBlockNumber);
    }
    if !HasString(rawBlock, "hash") {
      return Err(InvalidBlockHash);
    }
    if !("transactions" in rawBlock && rawBlock["transactions"].JArray?) {
      return Err(InvalidBlockTransactions);
    }
    var items := rawBlock["transactions"].items;
    var txs: seq<Transaction> := [];
    var i := 0;
    assert items[0..] == items;
    assert DecodeTransactions(items).Ok? ==> [] + DecodeTransactions(items).value == DecodeTransactions(items).value;
    while i < |items|
      invariant 0 <= i <= |items|
      invariant DecodeTransactions(items) == Prepend(txs, DecodeTransactions(items[i..]))
    {
      assert items[i..][0] == items[i] && items[i..][1..] == items[i + 1..];
      if items[i].JObject? {
        var tr := ConvertMapRawToTransaction(items[i].fields);
        if tr.Err? {
          return Err(tr.msg);
        }
        var rest := DecodeTransactions(items[i + 1..]);
        assert rest.Ok? ==> txs + ([tr.value] + rest.value) == (txs + [tr.value]) + rest.value;
        txs := txs + [tr.value];
      }
      i := i + 1;
    }
    assert items[i..] == [] && txs + [] == txs;
    return Ok(Block(rawBlock["number"].str, rawBlock["hash"].str, txs));
  }

  /** The decoding done by CurrentBlockNumber: the result must be a string
      that convertHexToNum accepts, and the height is its signed value. */
  function DecodeBlockNumber(raw: Json): (r: Result<int>)
    requires raw.JString? ==> Hex.WellFormedDigits(raw.str)
    ensures r.Ok? <==> raw.JString? && Hex.CheckHex(raw.str).None?
    ensures !raw.JString? ==> r == Err(InvalidResponse)
    ensures raw.JString? && r.Err? ==> Some(r.msg) == Hex.CheckHex(raw.str)
    ensures r.Ok? ==> r.value == Hex.SignedHexValue(raw.str[2..])
    ensures r.Ok? && raw.str[2] != '-' ==> r.value >= 0
  {
    match raw
    case JString(v) =>
      (match Hex.ConvertHexToNum(v)
       case Err(e) => Err(e)
       case Ok(n) => Ok(n))
    case _ => Err(InvalidResponse)
  }

  /** A height the node reports in the canonical "%x" form is decoded to
      itself. */
  lemma BlockNumberRoundTrip(n: nat)
    ensures Hex.WellFormedDigits(Hex.ConvertNumToHex(n))
    ensures DecodeBlockNumber(JString(Hex.ConvertNumToHex(n))) == Ok(n)
  {
    Hex.NumToHexToNum(n);
  }
}
