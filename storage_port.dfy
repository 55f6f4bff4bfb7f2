/**
 * The submission store (`ports::storage::Storage`) as the services use it: an in-memory
 * table of submissions keyed by block hash, standing in for the database.
 */
module StoragePort {
  import opened Wrappers
  import opened Types

  /** `ports::storage::Error`, reduced to its rendered message. */
  datatype Error = Error(msg: string)

  type Table = map<Hash, BlockSubmission>

  /** Every record sits under its own block hash, and no two records share a block height. */
  ghost predicate WellFormed(m: Table) {
    && (forall h :: h in m ==> m[h].block.hash == h)
    && (forall h, g :: h in m && g in m && m[h].block.height == m[g].block.height ==> h == g)
  }

  /** `s` is a stored submission whose block is at least as high as every other stored block. */
  ghost predicate IsLatest(m: Table, s: BlockSubmission) {
    s in m.Values && forall h :: h in m ==> m[h].block.height <= s.block.height
  }

  lemma {:induction false} LatestExists(m: Table)
    requires m != map[]
    ensures exists s :: IsLatest(m, s)
    decreases |m|
  {
    var h :| h in m;
    var rest := m - {h};
    forall k | k in m && k != h ensures k in rest && rest[k] == m[k] {
    }
    if rest == map[] {
      assert IsLatest(m, m[h]);
    } else {
      assert rest.Keys == m.Keys - {h};
      assert |rest| < |m|;
      LatestExists(rest);
      var s :| IsLatest(rest, s);
      var g :| g in rest && rest[g] == s;
      if s.block.height < m[h].block.height {
        assert IsLatest(m, m[h]);
      } else {
        assert m[g] == s;
        assert IsLatest(m, s);
      }
    }
  }

  /** In a well-formed table there is at most one latest submission. */
  lemma LatestIsUnique(m: Table, s: BlockSubmission, t: BlockSubmission)
    requires WellFormed(m) && IsLatest(m, s) && IsLatest(m, t)
    ensures s == t
  {
    var hs :| hs in m && m[hs] == s;
    var ht :| ht in m && m[ht] == t;
    assert s.block.height == t.block.height;
  }

  /** The submission with the highest block, or None for an empty store. */
  ghost function Latest(m: Table): (r: Option<BlockSubmission>)
    ensures r.None? <==> m == map[]
    ensures r.Some? ==> IsLatest(m, r.value)
  {
    if m == map[] then None
    else
      LatestExists(m);
      Some(var s :| IsLatest(m, s); s)
  }

  /** A store holding one submission has that submission as its latest. */
  lemma LatestOfSingle(s: BlockSubmission)
    ensures Latest(map[s.block.hash := s]) == Some(s)
  {
    var m := map[s.block.hash := s];
    assert s.block.hash in m;
    var t := Latest(m).value;
    var k :| k in m && m[k] == t;
  }

  /** The height of the highest stored block, or None for an empty store. */
  ghost function LatestHeight(m: Table): (r: Option<u32>)
    ensures r.None? <==> m == map[]
    ensures r.Some? ==> (exists h :: h in m && m[h].block.height == r.value)
    ensures r.Some? ==> forall h :: h in m ==> m[h].block.height <= r.value
  {
    match Latest(m)
    case None => None
    case Some(s) => Some(s.block.height)
  }

  /** The table after the record under `hash` has been marked completed. */
  function MarkCompleted(m: Table, hash: Hash): (r: Table)
    requires hash in m
    ensures r.Keys == m.Keys && r[hash].completed
    ensures r[hash] == m[hash].(completed := true)
    ensures forall h :: h in m && h != hash ==> r[h] == m[h]
  {
    m[hash := m[hash].(completed := true)]
  }

  lemma MarkCompletedKeepsWellFormed(m: Table, hash: Hash)
    requires WellFormed(m) && hash in m
    ensures WellFormed(MarkCompleted(m, hash))
  {
  }

  class SubmissionStore {
    var submissions: Table
    /** When set, the backing database is unreachable and every call fails with this error. */
    const fault: Option<Error>
    /** Writes that the database rejects: completing the record under one of these hashes fails with its error. */
    const failingWrites: map<Hash, Error>

    ghost predicate Valid()
      reads this
    {
      WellFormed(submissions)
    }

    constructor (initial: Table, fault: Option<Error>, failingWrites: map<Hash, Error>)
      requires WellFormed(initial)
      ensures Valid() && submissions == initial && this.fault == fault && this.failingWrites == failingWrites
    {
      submissions := initial;
      this.fault := fault;
      this.failingWrites := failingWrites;
    }

    /** `submission_w_latest_block`: the submission with the highest block height, if any. */
    method SubmissionWLatestBlock() returns (r: Result<Option<BlockSubmission>, Error>)
      requires Valid()
      ensures fault.Some? ==> r == Err(fault.value)
      ensures fault.None? ==> r == Ok(Latest(submissions))
    {
      if fault.Some? {
        return Err(fault.value);
      }
      var best: Option<BlockSubmission> := None;
      var todo := submissions.Keys;
      while todo != {}
        invariant todo <= submissions.Keys
        invariant best.None? ==> todo == submissions.Keys
        invariant best.Some? ==> best.value in submissions.Values
        invariant best.Some? ==> forall h :: h in submissions && h !in todo ==> submissions[h].block.height <= best.value.block.height
        decreases todo
      {
        var h :| h in todo;
        if best.None? || best.value.block.height < submissions[h].block.height {
          best := Some(submissions[h]);
        }
        todo := todo - {h};
      }
      if best.Some? {
        LatestIsUnique(submissions, best.value, Latest(submissions).value);
      }
      return Ok(best);
    }

    /**
     * `set_submission_completed`: marks the record under `hash` completed and returns it;
     * fails when no record has that hash or when the database rejects the write. Completing
     * a record twice succeeds again.
     */
    method SetSubmissionCompleted(hash: Hash) returns (r: Result<BlockSubmission, Error>)
      requires Valid()
      modifies this`submissions
      ensures Valid()
      ensures fault.Some? ==> r == Err(fault.value) && submissions == old(submissions)
      ensures fault.None? && hash in failingWrites ==> r == Err(failingWrites[hash]) && submissions == old(submissions)
      ensures fault.None? && hash !in failingWrites && hash !in old(submissions) ==>
        r.Err? && submissions == old(submissions)
      ensures fault.None? && hash !in failingWrites && hash in old(submissions) ==>
        submissions == MarkCompleted(old(submissions), hash) && r == Ok(submissions[hash])
    {
      if fault.Some? {
        return Err(fault.value);
      }
      if hash in failingWrites {
        return Err(failingWrites[hash]);
      }
      if hash !in submissions {
        return Err(Error("no submission with the given block hash"));
      }
      MarkCompletedKeepsWellFormed(submissions, hash);
      submissions := MarkCompleted(submissions, hash);
      return Ok(submissions[hash]);
    }
  }
}
