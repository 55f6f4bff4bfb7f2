/** The source-chain reader (`ports::fuel`): its error type and an in-memory stand-in for the node's API. */
module FuelPort {
  import opened Wrappers
  import opened Types

  /** `ports::fuel::Error`: its only variant is a network failure. */
  datatype Error = Network(msg: string)

  /**
   * The answers a node gives: the result of asking for the latest block, and the result
   * of asking for the block at each height. A height missing from `atHeight` has no block.
   */
  datatype Api = Api(latest: Result<FuelBlock, Error>, atHeight: map<u32, Result<Option<FuelBlock>, Error>>) {

    function LatestBlock(): Result<FuelBlock, Error> {
      latest
    }

    function BlockAtHeight(height: u32): Result<Option<FuelBlock>, Error> {
      if height in atHeight then atHeight[height] else Ok(None)
    }

    /** A well-behaved node answers a height query with a block of that height. */
    predicate Consistent() {
      forall h :: h in atHeight && atHeight[h].Ok? && atHeight[h].value.Some? ==> atHeight[h].value.value.height == h
    }
  }
}
