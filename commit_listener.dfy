/**
 * The commit listener: it reads the L1 contract's confirmation events from the height at
 * which the latest submission was made, and marks each confirmed submission completed.
 */
module CommitListenerService {
  import opened Wrappers
  import opened Types
  import L1Port
  import StoragePort
  import opened ServicesError

  /** What the listener changes: the store's table and the `latest_committed_block` gauge. */
  datatype ListenerState = ListenerState(submissions: StoragePort.Table, latestCommittedBlock: int)

  /**
   * `item` is an event for a submission stored in `m` whose completion the store accepts;
   * `failing` holds the hashes whose write the store rejects.
   */
  predicate Completes(m: StoragePort.Table, failing: set<Hash>, item: L1Port.StreamItem) {
    item.Ok? && item.value.fuelBlockHash in m && item.value.fuelBlockHash !in failing
  }

  /** `item` is an event carrying the block hash `hash`. */
  predicate ConfirmsHash(item: L1Port.StreamItem, hash: Hash) {
    item.Ok? && item.value.fuelBlockHash == hash
  }

  /** Some item of `items` is an event carrying `hash`. */
  predicate AnyConfirms(items: seq<L1Port.StreamItem>, hash: Hash) {
    exists j :: 0 <= j < |items| && ConfirmsHash(items[j], hash)
  }

  /**
   * The effect of one pulled item. An event for a stored hash whose write succeeds marks that
   * submission completed and sets the gauge to its block height; an error item, an unknown
   * hash or a rejected write changes neither the store nor the gauge.
   */
  function Step(s: ListenerState, item: L1Port.StreamItem, failing: set<Hash>): (t: ListenerState)
    ensures t.submissions.Keys == s.submissions.Keys
    ensures forall h :: h in s.submissions ==>
      && t.submissions[h] == s.submissions[h].(completed := t.submissions[h].completed)
      && (t.submissions[h].completed <==> s.submissions[h].completed || (ConfirmsHash(item, h) && h !in failing))
    ensures Completes(s.submissions, failing, item) ==>
      t.latestCommittedBlock == s.submissions[item.value.fuelBlockHash].block.height as int
    ensures !Completes(s.submissions, failing, item) ==> t.latestCommittedBlock == s.latestCommittedBlock
  {
    if Completes(s.submissions, failing, item) then
      var hash := item.value.fuelBlockHash;
      ListenerState(StoragePort.MarkCompleted(s.submissions, hash), s.submissions[hash].block.height as int)
    else s
  }

  /** The state after handling `items` one at a time, in stream order. */
  function Reconcile(s: ListenerState, items: seq<L1Port.StreamItem>, failing: set<Hash>): ListenerState
    decreases |items|
  {
    if items == [] then s
    else Step(Reconcile(s, items[..|items| - 1], failing), items[|items| - 1], failing)
  }

  /**
   * Handling events never adds or removes a record and never changes anything in a record
   * but its `completed` flag, which only ever goes from false to true.
   */
  lemma {:induction false} ReconcileOnlyCompletes(s: ListenerState, items: seq<L1Port.StreamItem>, failing: set<Hash>)
    ensures var t := Reconcile(s, items, failing).submissions;
      && t.Keys == s.submissions.Keys
      && forall h :: h in s.submissions ==>
           && t[h] == s.submissions[h].(completed := t[h].completed)
           && (s.submissions[h].completed ==> t[h].completed)
  {
    if items != [] {
      ReconcileOnlyCompletes(s, items[..|items| - 1], failing);
    }
  }

  /**
   * After handling `items`, a record is completed exactly when it already was, or some
   * handled event carried its hash and the store accepts writes for it.
   */
  lemma {:induction false} ReconcileCompletedIff(s: ListenerState, items: seq<L1Port.StreamItem>, failing: set<Hash>, hash: Hash)
    requires hash in s.submissions
    ensures hash in Reconcile(s, items, failing).submissions
    ensures Reconcile(s, items, failing).submissions[hash].completed <==>
      s.submissions[hash].completed || (AnyConfirms(items, hash) && hash !in failing)
  {
    ReconcileOnlyCompletes(s, items, failing);
    if items != [] {
      var init, last := items[..|items| - 1], items[|items| - 1];
      ReconcileCompletedIff(s, init, failing, hash);
      ReconcileOnlyCompletes(s, init, failing);
      if AnyConfirms(items, hash) {
        var j :| 0 <= j < |items| && ConfirmsHash(items[j], hash);
        if j < |init| {
          assert ConfirmsHash(init[j], hash);
        }
      }
      if AnyConfirms(init, hash) {
        var j :| 0 <= j < |init| && ConfirmsHash(init[j], hash);
        assert ConfirmsHash(items[j], hash);
      }
    }
  }

  /** A record that no handled event carried, or whose write the store rejects, is left exactly as it was. */
  lemma ReconcileLeavesOthers(s: ListenerState, items: seq<L1Port.StreamItem>, failing: set<Hash>, hash: Hash)
    requires hash in s.submissions && (!AnyConfirms(items, hash) || hash in failing)
    ensures hash in Reconcile(s, items, failing).submissions
    ensures Reconcile(s, items, failing).submissions[hash] == s.submissions[hash]
  {
    ReconcileOnlyCompletes(s, items, failing);
    ReconcileCompletedIff(s, items, failing, hash);
  }

  /** When no item completes a stored submission, nothing changes: neither the store nor the gauge. */
  lemma {:induction false} ReconcileWithoutConfirmation(s: ListenerState, items: seq<L1Port.StreamItem>, failing: set<Hash>)
    requires forall k :: 0 <= k < |items| ==> !Completes(s.submissions, failing, items[k])
    ensures Reconcile(s, items, failing) == s
  {
    if items != [] {
      ReconcileWithoutConfirmation(s, items[..|items| - 1], failing);
      var t := Step(s, items[|items| - 1], failing);
      assert t.submissions == s.submissions;
    }
  }

  /**
   * The gauge ends at the block height of the submission completed by the last completing
   * item, whatever came before it.
   */
  lemma {:induction false} GaugeFollowsLastConfirmation(s: ListenerState, items: seq<L1Port.StreamItem>, failing: set<Hash>, j: nat)
    requires j < |items| && Completes(s.submissions, failing, items[j])
    requires forall k :: j < k < |items| ==> !Completes(s.submissions, failing, items[k])
    ensures Reconcile(s, items, failing).latestCommittedBlock == s.submissions[items[j].value.fuelBlockHash].block.height as int
  {
    var init := items[..|items| - 1];
    ReconcileOnlyCompletes(s, init, failing);
    var hash := items[j].value.fuelBlockHash;
    if j < |items| - 1 {
      GaugeFollowsLastConfirmation(s, init, failing, j);
    } else {
      assert Reconcile(s, init, failing).submissions[hash].block.height == s.submissions[hash].block.height;
    }
  }

  /**
   * An item that completes nothing (an error, an unknown hash, or a rejected write) can be
   * removed from the stream without changing the outcome: it never stops the handling of
   * later events.
   */
  lemma {:induction false} UnconfirmedItemIsSkipped(s: ListenerState, before: seq<L1Port.StreamItem>, bad: L1Port.StreamItem,
                                                    after: seq<L1Port.StreamItem>, failing: set<Hash>)
    requires !Completes(s.submissions, failing, bad)
    ensures Reconcile(s, before + [bad] + after, failing) == Reconcile(s, before + after, failing)
  {
    if after == [] {
      assert (before + [bad])[..|before|] == before;
      assert before + [bad] + after == before + [bad];
      assert before + after == before;
      ReconcileOnlyCompletes(s, before, failing);
      var t := Reconcile(s, before, failing);
      assert Step(t, bad, failing).submissions == t.submissions;
    } else {
      var init, last := after[..|after| - 1], after[|after| - 1];
      UnconfirmedItemIsSkipped(s, before, bad, init, failing);
      assert (before + [bad] + after)[..|before + [bad] + after| - 1] == before + [bad] + init;
      assert (before + after)[..|before + after| - 1] == before + init;
    }
  }

  /** Whether the cancellation token has fired once `pulled` items have been handled. */
  predicate Cancelled(cancelAfter: Option<nat>, pulled: nat) {
    cancelAfter.Some? && cancelAfter.value <= pulled
  }

  /** How many of `available` items are pulled before the stream ends or cancellation fires. */
  function Pulled(available: nat, cancelAfter: Option<nat>): (n: nat)
    ensures n <= available
    ensures n == available || Cancelled(cancelAfter, n)
    ensures n == 0 || !Cancelled(cancelAfter, n - 1)
  {
    match cancelAfter
    case None => available
    case Some(c) => if c < available then c else available
  }

  /** The starting L1 height: that of the submission with the highest block, or 0 for an empty store. */
  ghost function StartHeight(m: StoragePort.Table): (h: L1Height)
    ensures m == map[] ==> h == 0
    ensures m != map[] ==> exists k ::
      && k in m && h == m[k].submittalHeight
      && forall g :: g in m ==> m[g].block.height <= m[k].block.height
  {
    match StoragePort.Latest(m)
    case None => 0
    case Some(s) => s.submittalHeight
  }

  class CommitListener {
    const contract: L1Port.Contract
    const storage: StoragePort.SubmissionStore
    /** The cancellation token, as the number of items after which it fires (None: never). */
    const cancelAfter: Option<nat>
    /** The `latest_committed_block` gauge. */
    var latestCommittedBlock: int

    constructor (contract: L1Port.Contract, storage: StoragePort.SubmissionStore, cancelAfter: Option<nat>)
      ensures this.contract == contract && this.storage == storage && this.cancelAfter == cancelAfter
      ensures latestCommittedBlock == 0
    {
      this.contract := contract;
      this.storage := storage;
      this.cancelAfter := cancelAfter;
      latestCommittedBlock := 0;
    }

    ghost function State(): ListenerState
      reads this, storage
    {
      ListenerState(storage.submissions, latestCommittedBlock)
    }

    /** `determine_starting_l1_height`. */
    method DetermineStartingL1Height() returns (r: Result<L1Height, Error>)
      requires storage.Valid()
      ensures storage.fault.Some? ==> r == Err(FromStorage(storage.fault.value))
      ensures storage.fault.None? ==> r == Ok(StartHeight(storage.submissions))
    {
      var queried := storage.SubmissionWLatestBlock();
      var latest :- queried.MapFailure(FromStorage);
      match latest
      case None => return Ok(0);
      case Some(s) => return Ok(s.submittalHeight);
    }

    /**
     * `handle_block_committed`: marks the confirmed submission completed and then sets the
     * gauge; when marking fails the error is returned before the gauge is touched.
     */
    method HandleBlockCommitted(committedOnL1: FuelBlockCommittedOnL1) returns (r: Result<(), Error>)
      requires storage.Valid()
      modifies storage`submissions, this`latestCommittedBlock
      ensures storage.Valid()
      ensures storage.fault.Some? ==> r == Err(FromStorage(storage.fault.value)) && State() == old(State())
      ensures storage.fault.None? ==> State() == Step(old(State()), Ok(committedOnL1), storage.failingWrites.Keys)
      ensures storage.fault.None? ==>
        (r.Ok? <==> committedOnL1.fuelBlockHash in old(storage.submissions) && committedOnL1.fuelBlockHash !in storage.failingWrites)
    {
      var marked := storage.SetSubmissionCompleted(committedOnL1.fuelBlockHash);
      var submission :- marked.MapFailure(FromStorage);
      latestCommittedBlock := submission.block.height as int;
      return Ok(());
    }

    /**
     * `run`: finds the starting height, opens the event stream there and handles the pulled
     * items in order; a failing item is logged and dropped, and the loop goes on until the
     * stream ends or cancellation fires.
     */
    method Run() returns (r: Result<(), Error>)
      requires storage.Valid()
      modifies storage`submissions, this`latestCommittedBlock
      ensures storage.Valid()
      ensures storage.fault.Some? ==> r == Err(FromStorage(storage.fault.value)) && State() == old(State())
      ensures storage.fault.None? ==>
        match contract.EstablishStream(StartHeight(old(storage.submissions)))
        case Err(e) => r == Err(FromL1(e)) && State() == old(State())
        case Ok(items) =>
          r == Ok(()) && State() == Reconcile(old(State()), items[..Pulled(|items|, cancelAfter)], storage.failingWrites.Keys)
    {
      var height :- DetermineStartingL1Height();
      var established := contract.EstablishStream(height);
      var events :- established.MapFailure(FromL1);
      ghost var start := State();
      var pulled := 0;
      while pulled < |events| && !Cancelled(cancelAfter, pulled)
        invariant pulled <= Pulled(|events|, cancelAfter)
        invariant storage.Valid() && storage.fault.None?
        invariant State() == Reconcile(start, events[..pulled], storage.failingWrites.Keys)
        decreases |events| - pulled
      {
        assert events[..pulled + 1][..pulled] == events[..pulled];
        var response: Result<(), Error>;
        match events[pulled] {
          case Err(e) =>
            response := Err(FromL1(e));
          case Ok(event) =>
            response := HandleBlockCommitted(event);
        }
        // `log_if_error`: a failed response is only logged.
        pulled := pulled + 1;
      }
      return Ok(());
    }
  }
}
