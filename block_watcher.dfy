/**
 * The block watcher: on each tick it observes the latest source-chain block, rounds its
 * height down to the current checkpoint epoch, and hands the epoch's block to the submitter
 * unless a stored submission already covers that epoch.
 */
module BlockWatcherService {
  import opened Wrappers
  import opened Types
  import FuelPort
  import StoragePort
  import Handoff
  import opened ServicesError

  /** The epoch boundary: the height rounded down to a multiple of the commit interval. */
  function EpochHeight(height: u32, interval: NonZeroU32): (r: u32)
    ensures r <= height
    ensures r % interval == 0
    ensures height - r < interval
  {
    var h, i := height as int, interval as int;
    RoundDown(h, i);
    (h - h % i) as u32
  }

  lemma RoundDown(h: nat, i: int)
    requires i > 0
    ensures (h - h % i) % i == 0
  {
    var q := h / i;
    assert h - h % i == i * q;
    MultipleMod(i, q);
  }

  lemma MultipleMod(i: int, q: nat)
    requires i > 0
    ensures (i * q) % i == 0
  {
    var a := i * q;
    var d := q - a / i;
    assert a % i == i * d;
    if d >= 1 {
      MulMonotone(i, 1, d);
      assert false;
    }
    if d <= -1 {
      MulMonotone(i, d, -1);
      assert false;
    }
  }

  /** No multiple of the interval lies strictly between the epoch boundary and the height. */
  lemma EpochIsGreatestMultiple(height: u32, interval: NonZeroU32, m: u32)
    requires m % interval == 0 && m <= height
    ensures m <= EpochHeight(height, interval)
  {
    var h, i, mi := height as int, interval as int, m as int;
    var q, a := h / i, mi / i;
    assert mi == i * a;
    assert h == i * q + h % i;
    if a > q {
      MulMonotone(i, q + 1, a);
      assert false;
    }
    MulMonotone(i, a, q);
  }

  lemma MulMonotone(i: nat, a: int, b: int)
    requires a <= b
    ensures i * a <= i * b
  {
  }

  /** An epoch is covered once some stored submission is at or above its boundary. */
  ghost predicate Covered(m: StoragePort.Table, epoch: u32) {
    exists h :: h in m && m[h].block.height >= epoch
  }

  /** The store's notion of staleness (latest height at or above the epoch) is exactly coverage. */
  lemma StaleIffCovered(m: StoragePort.Table, epoch: u32)
    ensures Covered(m, epoch) <==> (StoragePort.LatestHeight(m).Some? && StoragePort.LatestHeight(m).value >= epoch)
  {
    if Covered(m, epoch) {
      var h :| h in m && m[h].block.height >= epoch;
    }
  }

  /** What one tick observes, emits and returns. */
  datatype TickOutcome = TickOutcome(observed: Option<u32>, emitted: Option<FuelBlock>, result: Result<(), Error>)

  /** The message of the error raised when the node has no block at the epoch boundary. */
  function MissingBlockMessage(height: u32): string {
    "Fuel node could not provide block at height: " + DecimalString(height as nat)
  }

  /**
   * One tick, given the node's answers, the store's availability and latest block height,
   * and whether the channel's receiver is still alive.
   */
  function Tick(interval: NonZeroU32, api: FuelPort.Api, fault: Option<StoragePort.Error>,
                lastSubmitted: Option<u32>, receiverAlive: bool): TickOutcome
  {
    match api.LatestBlock()
    case Err(e) => TickOutcome(None, None, Err(FromFuel(e)))
    case Ok(current) =>
      var epoch := EpochHeight(current.height, interval);
      if fault.Some? then TickOutcome(Some(current.height), None, Err(FromStorage(fault.value)))
      else if lastSubmitted.Some? && lastSubmitted.value >= epoch then TickOutcome(Some(current.height), None, Ok(()))
      else
        var chosen: Result<FuelBlock, Error> :=
          if current.height == epoch then Ok(current)
          else match api.BlockAtHeight(epoch)
            case Err(e) => Err(FromFuel(e))
            case Ok(None) => Err(Other(MissingBlockMessage(epoch)))
            case Ok(Some(b)) => Ok(b);
        match chosen
        case Err(e) => TickOutcome(Some(current.height), None, Err(e))
        case Ok(b) =>
          if receiverAlive then TickOutcome(Some(current.height), Some(b), Ok(()))
          else TickOutcome(Some(current.height), None, Err(Other("channel closed")))
  }

  /** The gauge is set from the latest block on every tick that reads it, emitted or not. */
  lemma TickRecordsLatestHeight(interval: NonZeroU32, api: FuelPort.Api, fault: Option<StoragePort.Error>,
                                lastSubmitted: Option<u32>, receiverAlive: bool)
    ensures var t := Tick(interval, api, fault, lastSubmitted, receiverAlive);
      && (api.latest.Ok? ==> t.observed == Some(api.latest.value.height))
      && (api.latest.Err? ==> t.observed.None? && t.emitted.None? && t.result == Err(Network(api.latest.error.msg)))
  {
  }

  /** A tick whose epoch is already submitted succeeds and emits nothing. */
  lemma TickSkipsSubmittedEpoch(interval: NonZeroU32, api: FuelPort.Api, lastSubmitted: u32, receiverAlive: bool)
    requires api.latest.Ok? && lastSubmitted >= EpochHeight(api.latest.value.height, interval)
    ensures var t := Tick(interval, api, None, Some(lastSubmitted), receiverAlive);
      t.emitted.None? && t.result == Ok(())
  {
  }

  /**
   * A tick emits at most one block, and only when it succeeds and the epoch is not yet
   * submitted: the latest block itself when it sits on the epoch boundary, and otherwise
   * the node's block at the boundary, never the latest one.
   */
  lemma TickEmitsEpochBlock(interval: NonZeroU32, api: FuelPort.Api, lastSubmitted: Option<u32>, receiverAlive: bool)
    requires Tick(interval, api, None, lastSubmitted, receiverAlive).emitted.Some?
    ensures var t := Tick(interval, api, None, lastSubmitted, receiverAlive);
      && t.result == Ok(()) && api.latest.Ok? && receiverAlive
      && var current := api.latest.value;
         var epoch := EpochHeight(current.height, interval);
         && (lastSubmitted.None? || lastSubmitted.value < epoch)
         && (current.height == epoch ==> t.emitted.value == current)
         && (current.height != epoch ==> api.BlockAtHeight(epoch) == Ok(Some(t.emitted.value)))
         && (api.Consistent() ==> t.emitted.value.height == epoch)
  {
  }

  /** Every unsubmitted epoch whose block can be had is emitted when the receiver is alive. */
  lemma TickEmitsWhenDue(interval: NonZeroU32, api: FuelPort.Api, lastSubmitted: Option<u32>)
    requires api.latest.Ok?
    requires var epoch := EpochHeight(api.latest.value.height, interval);
      && (lastSubmitted.None? || lastSubmitted.value < epoch)
      && (api.latest.value.height == epoch || (api.BlockAtHeight(epoch).Ok? && api.BlockAtHeight(epoch).value.Some?))
    ensures Tick(interval, api, None, lastSubmitted, true).emitted.Some?
  {
  }

  /** A missing boundary block fails the tick with an `Other` error and emits nothing. */
  lemma TickFailsOnMissingBlock(interval: NonZeroU32, api: FuelPort.Api, lastSubmitted: Option<u32>, receiverAlive: bool)
    requires api.latest.Ok?
    requires var epoch := EpochHeight(api.latest.value.height, interval);
      && (lastSubmitted.None? || lastSubmitted.value < epoch)
      && api.latest.value.height != epoch && api.BlockAtHeight(epoch) == Ok(None)
    ensures var t := Tick(interval, api, None, lastSubmitted, receiverAlive);
      && t.emitted.None?
      && t.result == Err(Other(MissingBlockMessage(EpochHeight(api.latest.value.height, interval))))
  {
  }

  /** A closed channel turns what would have been sent into an `Other` error. */
  lemma TickFailsOnClosedChannel(interval: NonZeroU32, api: FuelPort.Api, lastSubmitted: Option<u32>)
    requires Tick(interval, api, None, lastSubmitted, true).emitted.Some?
    ensures var t := Tick(interval, api, None, lastSubmitted, false);
      t.emitted.None? && t.result == Err(Other("channel closed"))
  {
  }

  /**
   * Failures are classified: a failed read of the latest block or of the boundary block is a
   * Network error carrying the node's message, a store failure is a Storage error, and every
   * other failure is Other.
   */
  lemma TickErrorClasses(interval: NonZeroU32, api: FuelPort.Api, fault: Option<StoragePort.Error>,
                         lastSubmitted: Option<u32>, receiverAlive: bool)
    requires Tick(interval, api, fault, lastSubmitted, receiverAlive).result.Err?
    ensures var e := Tick(interval, api, fault, lastSubmitted, receiverAlive).result.error;
      && (api.latest.Err? ==> e == Network(api.latest.error.msg))
      && (api.latest.Ok? && fault.Some? ==> e == Storage(fault.value.msg))
      && (api.latest.Ok? ==>
            var epoch := EpochHeight(api.latest.value.height, interval);
            fault.None? && (lastSubmitted.None? || lastSubmitted.value < epoch) &&
            api.latest.value.height != epoch && api.BlockAtHeight(epoch).Err?
            ==> e == Network(api.BlockAtHeight(epoch).error.msg))
      && (e.Network? ==> api.latest.Err? || api.BlockAtHeight(EpochHeight(api.latest.value.height, interval)).Err?)
      && (e.Storage? ==> fault.Some?)
  {
  }

  /**
   * Monotonic staleness: once the store holds a submission at or above `x`, no tick whose
   * epoch boundary is at most `x` emits anything, whatever the node and the channel do.
   */
  lemma {:induction false} NoResubmissionBelowStored(interval: NonZeroU32, api: FuelPort.Api, m: StoragePort.Table,
                                                     x: u32, receiverAlive: bool)
    requires exists h :: h in m && m[h].block.height >= x
    requires api.latest.Ok? && EpochHeight(api.latest.value.height, interval) <= x
    ensures Tick(interval, api, None, StoragePort.LatestHeight(m), receiverAlive).emitted.None?
  {
    var epoch := EpochHeight(api.latest.value.height, interval);
    var h :| h in m && m[h].block.height >= x;
    assert Covered(m, epoch);
    StaleIffCovered(m, epoch);
  }

  class BlockWatcher {
    const fuelAdapter: FuelPort.Api
    const txFuelBlock: Handoff.Sender
    const storage: StoragePort.SubmissionStore
    const commitInterval: NonZeroU32
    /** The `latest_fuel_block` gauge. */
    var latestFuelBlock: int

    constructor (commitInterval: NonZeroU32, txFuelBlock: Handoff.Sender, fuelAdapter: FuelPort.Api,
                 storage: StoragePort.SubmissionStore)
      ensures this.commitInterval == commitInterval && this.txFuelBlock == txFuelBlock
      ensures this.fuelAdapter == fuelAdapter && this.storage == storage
      ensures latestFuelBlock == 0
    {
      this.commitInterval := commitInterval;
      this.txFuelBlock := txFuelBlock;
      this.fuelAdapter := fuelAdapter;
      this.storage := storage;
      latestFuelBlock := 0;
    }

    /** `fetch_latest_block`: reads the latest block and records its height in the gauge. */
    method FetchLatestBlock() returns (r: Result<FuelBlock, Error>)
      modifies this`latestFuelBlock
      ensures fuelAdapter.latest.Err? ==> r == Err(FromFuel(fuelAdapter.latest.error)) && latestFuelBlock == old(latestFuelBlock)
      ensures fuelAdapter.latest.Ok? ==> r == Ok(fuelAdapter.latest.value) && latestFuelBlock == r.value.height as int
    {
      var current :- fuelAdapter.LatestBlock().MapFailure(FromFuel);
      latestFuelBlock := current.height as int;
      return Ok(current);
    }

    /** `current_epoch_block_height`. */
    function CurrentEpochBlockHeight(currentBlockHeight: u32): (r: u32)
      ensures r <= currentBlockHeight && r % commitInterval == 0
      ensures forall m: u32 :: m % commitInterval == 0 && m <= currentBlockHeight ==> m <= r
    {
      forall m: u32 | m % commitInterval == 0 && m <= currentBlockHeight ensures m <= EpochHeight(currentBlockHeight, commitInterval) {
        EpochIsGreatestMultiple(currentBlockHeight, commitInterval, m);
      }
      EpochHeight(currentBlockHeight, commitInterval)
    }

    /** `last_submitted_block_height`: the height of the highest submitted block, if any. */
    method LastSubmittedBlockHeight() returns (r: Result<Option<u32>, Error>)
      requires storage.Valid()
      ensures storage.fault.Some? ==> r == Err(FromStorage(storage.fault.value))
      ensures storage.fault.None? ==> r == Ok(StoragePort.LatestHeight(storage.submissions))
    {
      var queried := storage.SubmissionWLatestBlock();
      var latest :- queried.MapFailure(FromStorage);
      match latest
      case None => return Ok(None);
      case Some(s) => return Ok(Some(s.block.height));
    }

    /** `check_if_stale`: whether the epoch is already covered by a stored submission. */
    method CheckIfStale(blockHeight: u32) returns (r: Result<bool, Error>)
      requires storage.Valid()
      ensures storage.fault.Some? ==> r == Err(FromStorage(storage.fault.value))
      ensures storage.fault.None? ==> r == Ok(Covered(storage.submissions, blockHeight))
    {
      var submitted :- LastSubmittedBlockHeight();
      StaleIffCovered(storage.submissions, blockHeight);
      match submitted
      case None => return Ok(false);
      case Some(h) => return Ok(h >= blockHeight);
    }

    /** `fetch_block`: the block at `height`; its absence is an `Other` error naming the height. */
    method FetchBlock(height: u32) returns (r: Result<FuelBlock, Error>)
      ensures fuelAdapter.BlockAtHeight(height).Err? ==> r == Err(FromFuel(fuelAdapter.BlockAtHeight(height).error))
      ensures fuelAdapter.BlockAtHeight(height) == Ok(None) ==> r == Err(Other(MissingBlockMessage(height)))
      ensures fuelAdapter.BlockAtHeight(height).Ok? && fuelAdapter.BlockAtHeight(height).value.Some? ==>
        r == Ok(fuelAdapter.BlockAtHeight(height).value.value)
      ensures r.Ok? && fuelAdapter.Consistent() ==> r.value.height == height
    {
      var found :- fuelAdapter.BlockAtHeight(height).MapFailure(FromFuel);
      match found
      case None => return Err(Other(MissingBlockMessage(height)));
      case Some(b) => return Ok(b);
    }

    /** `run`: one tick of the watcher. */
    method Run() returns (r: Result<(), Error>)
      requires storage.Valid()
      modifies this`latestFuelBlock, txFuelBlock`queued
      ensures var t := Tick(commitInterval, fuelAdapter, storage.fault,
                            StoragePort.LatestHeight(storage.submissions), txFuelBlock.receiverAlive);
        && r == t.result
        && latestFuelBlock == (if t.observed.Some? then t.observed.value as int else old(latestFuelBlock))
        && txFuelBlock.queued == old(txFuelBlock.queued) + (if t.emitted.Some? then [t.emitted.value] else [])
    {
      var currentBlock :- FetchLatestBlock();
      var currentEpochBlockHeight := CurrentEpochBlockHeight(currentBlock.height);
      StaleIffCovered(storage.submissions, currentEpochBlockHeight);
      var stale :- CheckIfStale(currentEpochBlockHeight);
      if stale {
        return Ok(());
      }
      var block: FuelBlock;
      if currentBlock.height == currentEpochBlockHeight {
        block := currentBlock;
      } else {
        block :- FetchBlock(currentEpochBlockHeight);
      }
      var sent := txFuelBlock.Send(block);
      if sent.Err? {
        return Err(Other(sent.error));
      }
      return Ok(());
    }
  }
}
