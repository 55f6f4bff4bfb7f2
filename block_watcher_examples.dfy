/**
 * The block watcher's test scenarios, each run against the stand-in node, store and channel:
 * commit interval 2, pending submissions at the given heights, and a latest block.
 */
module BlockWatcherExamples {
  import opened Wrappers
  import opened Types
  import FuelPort
  import StoragePort
  import Handoff
  import opened ServicesError
  import opened BlockWatcherService

  /** `given_a_block`: a block with the default (all-zero) hash. */
  function GivenABlock(height: u32): FuelBlock {
    FuelBlock(seq(32, _ => 0), height)
  }

  /** A hash that differs between the small heights the scenarios use. */
  function HashOf(height: u32): Hash {
    [(height as int % 256) as u8] + seq(31, _ => 0)
  }

  /** `given_a_pending_submission`: a not yet completed submission of a block at `height`. */
  function GivenAPendingSubmission(height: u32): BlockSubmission {
    BlockSubmission(FuelBlock(HashOf(height), height), 0, false)
  }

  /** A node whose latest block is `latest` and which also serves `others` by height. */
  function GivenFetcher(latest: FuelBlock, others: map<u32, Result<Option<FuelBlock>, FuelPort.Error>>): FuelPort.Api {
    FuelPort.Api(Ok(latest), others[latest.height := Ok(Some(latest))])
  }

  /** `table` holds exactly one pending submission, under its own hash, for each height in `heights`. */
  ghost predicate PendingTableFor(table: StoragePort.Table, heights: seq<u32>) {
    && (forall h :: h in table ==>
          h == HashOf(table[h].block.height) && table[h] == GivenAPendingSubmission(table[h].block.height)
          && table[h].block.height in heights)
    && (forall x :: x in heights ==> HashOf(x) in table && table[HashOf(x)] == GivenAPendingSubmission(x))
  }

  lemma AddPending(table: StoragePort.Table, heights: seq<u32>, x: u32)
    requires x < 256 && forall y :: y in heights ==> y < 256
    requires PendingTableFor(table, heights)
    ensures PendingTableFor(table[HashOf(x) := GivenAPendingSubmission(x)], heights + [x])
  {
    var t := table[HashOf(x) := GivenAPendingSubmission(x)];
    forall h | h in t
      ensures h == HashOf(t[h].block.height) && t[h] == GivenAPendingSubmission(t[h].block.height)
      ensures t[h].block.height in heights + [x]
    {
      if h != HashOf(x) {
        assert t[h] == table[h];
      }
    }
    forall y | y in heights + [x] ensures HashOf(y) in t && t[HashOf(y)] == GivenAPendingSubmission(y) {
      if y != x {
        assert HashOf(y)[0] != HashOf(x)[0];
      }
    }
  }

  lemma PendingTableWellFormed(table: StoragePort.Table, heights: seq<u32>)
    requires PendingTableFor(table, heights)
    ensures StoragePort.WellFormed(table)
  {
  }

  /** `db_with_submissions`: a reachable store holding a pending submission at each of `heights`. */
  method DbWithSubmissions(heights: seq<u32>) returns (db: StoragePort.SubmissionStore)
    requires forall i :: 0 <= i < |heights| ==> heights[i] < 256
    ensures fresh(db) && db.Valid() && db.fault.None? && db.failingWrites == map[]
    ensures PendingTableFor(db.submissions, heights)
  {
    var table: StoragePort.Table := map[];
    var i := 0;
    while i < |heights|
      invariant 0 <= i <= |heights|
      invariant PendingTableFor(table, heights[..i])
    {
      assert heights[..i + 1] == heights[..i] + [heights[i]];
      AddPending(table, heights[..i], heights[i]);
      table := table[HashOf(heights[i]) := GivenAPendingSubmission(heights[i])];
      i := i + 1;
    }
    assert heights[..i] == heights;
    PendingTableWellFormed(table, heights);
    db := new StoragePort.SubmissionStore(table, None, map[]);
  }

  /** `will_fetch_and_propagate_missed_block`: submissions {0, 2}, latest 5: block 4 is fetched and sent. */
  method WillFetchAndPropagateMissedBlock() returns (r: Result<(), Error>, announced: seq<FuelBlock>)
    ensures r == Ok(()) && announced == [GivenABlock(4)]
  {
    var tx := new Handoff.Sender(true);
    var fuelAdapter := GivenFetcher(GivenABlock(5), map[4 := Ok(Some(GivenABlock(4)))]);
    var db := DbWithSubmissions([0, 2]);
    var blockWatcher := new BlockWatcher(2, tx, fuelAdapter, db);
    r := blockWatcher.Run();
    announced := tx.queued;
  }

  /** `will_not_reattempt_committing_missed_block`: submissions {0, 2, 4}, latest 5: nothing is sent. */
  method WillNotReattemptCommittingMissedBlock() returns (r: Result<(), Error>, announced: seq<FuelBlock>)
    ensures r == Ok(()) && announced == []
  {
    var tx := new Handoff.Sender(true);
    var fuelAdapter := GivenFetcher(GivenABlock(5), map[4 := Ok(Some(GivenABlock(4)))]);
    var heights: seq<u32> := [0, 2, 4];
    var db := DbWithSubmissions(heights);
    assert 4 in heights;
    var blockWatcher := new BlockWatcher(2, tx, fuelAdapter, db);
    r := blockWatcher.Run();
    announced := tx.queued;
  }

  /** `will_not_reattempt_committing_latest_block`: submissions {0, 2, 4, 6}, latest 6: nothing is sent. */
  method WillNotReattemptCommittingLatestBlock() returns (r: Result<(), Error>, announced: seq<FuelBlock>)
    ensures r == Ok(()) && announced == []
  {
    var tx := new Handoff.Sender(true);
    var fuelAdapter := GivenFetcher(GivenABlock(6), map[]);
    var heights: seq<u32> := [0, 2, 4, 6];
    var db := DbWithSubmissions(heights);
    assert 6 in heights;
    var blockWatcher := new BlockWatcher(2, tx, fuelAdapter, db);
    r := blockWatcher.Run();
    announced := tx.queued;
  }

  /**
   * `propagates_block_if_epoch_reached`: submissions {0, 2}, latest 4: block 4 is sent.
   * The node here answers no height query at all, so the block sent can only be the one
   * already fetched as the latest: no second read takes place.
   */
  method PropagatesBlockIfEpochReached() returns (r: Result<(), Error>, announced: seq<FuelBlock>)
    ensures r == Ok(()) && announced == [GivenABlock(4)]
  {
    var tx := new Handoff.Sender(true);
    var fuelAdapter := FuelPort.Api(Ok(GivenABlock(4)), map[]);
    var db := DbWithSubmissions([0, 2]);
    var blockWatcher := new BlockWatcher(2, tx, fuelAdapter, db);
    r := blockWatcher.Run();
    announced := tx.queued;
  }

  /**
   * `updates_block_metric_regardless_if_block_is_published`: submissions {0, 2, 4}, latest 5:
   * the gauge reads 5. The receiver is dropped, so succeeding shows no send was attempted.
   */
  method UpdatesBlockMetricRegardlessIfBlockIsPublished() returns (r: Result<(), Error>, gauge: int, announced: seq<FuelBlock>)
    ensures r == Ok(()) && gauge == 5 && announced == []
  {
    var tx := new Handoff.Sender(false);
    var fuelAdapter := GivenFetcher(GivenABlock(5), map[]);
    var heights: seq<u32> := [0, 2, 4];
    var db := DbWithSubmissions(heights);
    assert 4 in heights;
    var blockWatcher := new BlockWatcher(2, tx, fuelAdapter, db);
    r := blockWatcher.Run();
    gauge := blockWatcher.latestFuelBlock;
    announced := tx.queued;
  }

  /** The node lacks the boundary block: submissions {0, 2}, latest 5, no block 4: the tick fails and sends nothing. */
  method FailsWhenEpochBlockIsMissing() returns (r: Result<(), Error>, announced: seq<FuelBlock>)
    ensures r.Err? && r.error.Other? && announced == []
  {
    var tx := new Handoff.Sender(true);
    var fuelAdapter := GivenFetcher(GivenABlock(5), map[]);
    var db := DbWithSubmissions([0, 2]);
    var blockWatcher := new BlockWatcher(2, tx, fuelAdapter, db);
    r := blockWatcher.Run();
    announced := tx.queued;
  }
}
