/** The commit listener's test scenarios, run against the stand-in contract and store. */
module CommitListenerExamples {
  import opened Wrappers
  import opened Types
  import L1Port
  import StoragePort
  import opened ServicesError
  import opened CommitListenerService

  /** A confirmation event for `hash` (the commit height plays no part). */
  function EventFor(hash: Hash): L1Port.StreamItem {
    Ok(FuelBlockCommittedOnL1(hash, 0))
  }

  /** `given_contract_with_events`: a contract whose stream, opened at `startingFromHeight`, yields `events`. */
  function GivenContractWithEvents(events: seq<L1Port.StreamItem>, startingFromHeight: L1Height): L1Port.Contract {
    L1Port.Contract(height => if height == startingFromHeight then Ok(events) else Err(L1Port.Other("unexpected starting height")))
  }

  /** `db_with_submission`: a reachable store holding just `submission`. */
  method DbWithSubmission(submission: BlockSubmission) returns (db: StoragePort.SubmissionStore)
    ensures fresh(db) && db.Valid() && db.fault.None? && db.failingWrites == map[]
    ensures db.submissions == map[submission.block.hash := submission]
  {
    db := new StoragePort.SubmissionStore(map[submission.block.hash := submission], None, map[]);
  }

  /** `listener_will_update_storage_if_event_is_emitted`: the confirmed submission is stored as completed. */
  method ListenerWillUpdateStorageIfEventIsEmitted(submission: BlockSubmission)
    returns (r: Result<(), Error>, latest: Result<Option<BlockSubmission>, StoragePort.Error>)
    requires !submission.completed
    ensures r == Ok(()) && latest == Ok(Some(submission.(completed := true)))
  {
    var contract := GivenContractWithEvents([EventFor(submission.block.hash)], submission.submittalHeight);
    var db := DbWithSubmission(submission);
    var commitListener := new CommitListener(contract, db, None);
    StoragePort.LatestOfSingle(submission);
    r := commitListener.Run();
    StoragePort.LatestOfSingle(submission.(completed := true));
    latest := db.SubmissionWLatestBlock();
  }

  /** `listener_will_update_metrics_if_event_is_emitted`: the gauge reads the confirmed block's height. */
  method ListenerWillUpdateMetricsIfEventIsEmitted(submission: BlockSubmission) returns (r: Result<(), Error>, gauge: int)
    requires !submission.completed
    ensures r == Ok(()) && gauge == submission.block.height as int
  {
    var contract := GivenContractWithEvents([EventFor(submission.block.hash)], submission.submittalHeight);
    var db := DbWithSubmission(submission);
    var commitListener := new CommitListener(contract, db, None);
    StoragePort.LatestOfSingle(submission);
    r := commitListener.Run();
    gauge := commitListener.latestCommittedBlock;
  }

  /**
   * `error_while_handling_event_will_not_close_stream`: an event for a hash missing from the
   * store is followed by one for the stored submission, which still ends up completed.
   */
  method ErrorWhileHandlingEventWillNotCloseStream(blockMissingFromDb: BlockSubmission, incomingBlock: BlockSubmission)
    returns (r: Result<(), Error>, latest: Result<Option<BlockSubmission>, StoragePort.Error>)
    requires blockMissingFromDb.block.hash != incomingBlock.block.hash
    ensures r == Ok(()) && latest == Ok(Some(incomingBlock.(completed := true)))
  {
    var events := [EventFor(blockMissingFromDb.block.hash), EventFor(incomingBlock.block.hash)];
    var contract := GivenContractWithEvents(events, incomingBlock.submittalHeight);
    var db := DbWithSubmission(incomingBlock);
    var commitListener := new CommitListener(contract, db, None);
    StoragePort.LatestOfSingle(incomingBlock);
    assert events[..2] == [] + [events[0]] + [events[1]];
    UnconfirmedItemIsSkipped(ListenerState(db.submissions, 0), [], events[0], [events[1]], db.failingWrites.Keys);
    assert [] + [events[1]] == [events[1]];
    r := commitListener.Run();
    StoragePort.LatestOfSingle(incomingBlock.(completed := true));
    latest := db.SubmissionWLatestBlock();
  }

  /** Two pending submissions with distinct hashes and heights form a well-formed table whose latest is the higher one. */
  lemma TwoSubmissionsTable(lower: BlockSubmission, higher: BlockSubmission)
    requires lower.block.hash != higher.block.hash && lower.block.height < higher.block.height
    ensures var table := map[lower.block.hash := lower, higher.block.hash := higher];
      StoragePort.WellFormed(table) && StoragePort.Latest(table) == Some(higher)
  {
    var table := map[lower.block.hash := lower, higher.block.hash := higher];
    assert table[higher.block.hash] == higher;
    assert StoragePort.IsLatest(table, higher);
    StoragePort.LatestIsUnique(table, higher, StoragePort.Latest(table).value);
  }

  /** Handling a rejected write and then an accepted one completes only the second record. */
  lemma RejectedThenAccepted(rejected: BlockSubmission, accepted: BlockSubmission,
                             events: seq<L1Port.StreamItem>, failing: set<Hash>)
    requires rejected.block.hash != accepted.block.hash
    requires events == [EventFor(rejected.block.hash), EventFor(accepted.block.hash)]
    requires rejected.block.hash in failing && accepted.block.hash !in failing
    ensures var table := map[rejected.block.hash := rejected, accepted.block.hash := accepted];
      Reconcile(ListenerState(table, 0), events, failing) ==
        ListenerState(map[rejected.block.hash := rejected, accepted.block.hash := accepted.(completed := true)],
                      accepted.block.height as int)
  {
    var table := map[rejected.block.hash := rejected, accepted.block.hash := accepted];
    var s0 := ListenerState(table, 0);
    assert events == [] + [events[0]] + [events[1]];
    UnconfirmedItemIsSkipped(s0, [], events[0], [events[1]], failing);
    assert [] + [events[1]] == [events[1]];
    assert [events[1]][..0] == [];
    assert Reconcile(s0, [events[1]], failing) == Step(s0, events[1], failing);
    assert StoragePort.MarkCompleted(table, accepted.block.hash) ==
      map[rejected.block.hash := rejected, accepted.block.hash := accepted.(completed := true)];
  }

  /**
   * A store that rejects the write for one confirmed submission: that submission stays
   * pending, the stream goes on, and the next confirmed submission is completed and drives
   * the gauge.
   */
  method RejectedWriteWillNotCloseStream(rejected: BlockSubmission, accepted: BlockSubmission)
    returns (r: Result<(), Error>, stored: StoragePort.Table, gauge: int)
    requires rejected.block.hash != accepted.block.hash && rejected.block.height < accepted.block.height
    ensures r == Ok(()) && gauge == accepted.block.height as int
    ensures stored == map[rejected.block.hash := rejected, accepted.block.hash := accepted.(completed := true)]
  {
    var table := map[rejected.block.hash := rejected, accepted.block.hash := accepted];
    TwoSubmissionsTable(rejected, accepted);
    var events := [EventFor(rejected.block.hash), EventFor(accepted.block.hash)];
    var contract := GivenContractWithEvents(events, accepted.submittalHeight);
    var db := new StoragePort.SubmissionStore(table, None, map[rejected.block.hash := StoragePort.Error("write rejected")]);
    var commitListener := new CommitListener(contract, db, None);
    RejectedThenAccepted(rejected, accepted, events, db.failingWrites.Keys);
    r := commitListener.Run();
    stored := db.submissions;
    gauge := commitListener.latestCommittedBlock;
  }

  /** A token that has already fired stops the listener before the first event: nothing changes. */
  method CancelledListenerHandlesNothing(submission: BlockSubmission)
    returns (r: Result<(), Error>, latest: Result<Option<BlockSubmission>, StoragePort.Error>, gauge: int)
    ensures r == Ok(()) && latest == Ok(Some(submission)) && gauge == 0
  {
    var contract := GivenContractWithEvents([EventFor(submission.block.hash)], submission.submittalHeight);
    var db := DbWithSubmission(submission);
    var commitListener := new CommitListener(contract, db, Some(0));
    StoragePort.LatestOfSingle(submission);
    r := commitListener.Run();
    latest := db.SubmissionWLatestBlock();
    gauge := commitListener.latestCommittedBlock;
  }

  /** A store that cannot be read fails the run before any event is handled. */
  method UnreachableStoreFailsRun(submission: BlockSubmission)
    returns (r: Result<(), Error>, stored: StoragePort.Table, gauge: int)
    ensures r == Err(Storage("connection refused")) && stored == map[submission.block.hash := submission] && gauge == 0
  {
    var contract := GivenContractWithEvents([EventFor(submission.block.hash)], submission.submittalHeight);
    var db := new StoragePort.SubmissionStore(map[submission.block.hash := submission], Some(StoragePort.Error("connection refused")), map[]);
    var commitListener := new CommitListener(contract, db, None);
    r := commitListener.Run();
    stored := db.submissions;
    gauge := commitListener.latestCommittedBlock;
  }
}
