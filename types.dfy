/** The records exchanged between the ledger client, the storages and the
    parser (txparser.go) and the ledger client capability (contract.go). */
module Types {
  import opened Results

  /** A ledger transaction; every field is kept as the string the client
      delivered (hex quantities are not normalised). */
  datatype Transaction = Transaction(
    blockNumber: string,
    blockHash: string,
    hash: string,
    from: string,
    to: string,
    value: string)

  /** A fetched block: its number and hash as strings and its transactions
      in ledger order. */
  datatype Block = Block(number: string, hash: string, transactions: seq<Transaction>)

  /** What the ledger client answers during one tick: its current height (or
      an error) and its answer to each block request, a block or an error
      (a decoding error of GetBlockByNumber, a transport error, ...). A height
      missing from `blocks` is a request that fails as the repository's test
      client fails for an unknown height. The client is read-only; answers
      that change over time are modelled by passing a different `Ledger` to
      each tick. */
  datatype Ledger = Ledger(height: Result<int>, blocks: map<int, Result<Block>>)

  /** The error of the test client for a height it has no block for. */
  const BlockUnavailable: string := "invalid block"

  /** `GetBlockByNumber` of the client. */
  function BlockAt(ledger: Ledger, number: int): (r: Result<Block>)
    ensures number in ledger.blocks ==> r == ledger.blocks[number]
    ensures number !in ledger.blocks ==> r == Err(BlockUnavailable)
  {
    if number in ledger.blocks then ledger.blocks[number] else Err(BlockUnavailable)
  }
}
