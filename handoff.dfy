/** The sending half of the channel on which the block watcher hands blocks to the submitter. */
module Handoff {
  import opened Wrappers
  import opened Types

  class Sender {
    /** The blocks sent and not yet received, oldest first. */
    var queued: seq<FuelBlock>
    /** False once the receiving half has been dropped. */
    const receiverAlive: bool

    constructor (receiverAlive: bool)
      ensures queued == [] && this.receiverAlive == receiverAlive
    {
      queued := [];
      this.receiverAlive := receiverAlive;
    }

    /** `send`: queues the block, or fails when nobody can receive it any more. */
    method Send(block: FuelBlock) returns (r: Result<(), string>)
      modifies this`queued
      ensures receiverAlive ==> r == Ok(()) && queued == old(queued) + [block]
      ensures !receiverAlive ==> r == Err("channel closed") && queued == old(queued)
    {
      if !receiverAlive {
        return Err("channel closed");
      }
      queued := queued + [block];
      return Ok(());
    }
  }
}
