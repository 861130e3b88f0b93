/**
 * The simulator's note-record snapshot: from the user's (non-info) note
 * records it builds parallel lists of counts and intervals and a map from note
 * id to count, and stores them in the session for the current simulation step.
 * The database query is replaced by its result, given as a sequence.
 */
module SimNoteRecords {
  import opened Wrappers
  import opened Session

  /** A record as the query returns it: possibly null, possibly without a note id. */
  datatype QueriedRecord = QueriedRecord(noteID: Option<string>, count: int, interval: real)

  /** The counts and intervals of the kept records, in query order. */
  datatype NoteRecordsSnapshot = NoteRecordsSnapshot(counts: seq<int>, intervals: seq<real>)

  /** A simulation step's record; the stage sets its `noteRecords`. */
  datatype SimRecord = SimRecord(noteRecords: Option<NoteRecordsSnapshot>)

  /** A query result is kept when it is not null and has a note id. */
  predicate IsKept(rec: Option<QueriedRecord>)
  {
    rec.Some? && rec.value.noteID.Some?
  }

  /** The kept records, in query order. */
  function Kept(recs: seq<Option<QueriedRecord>>): (k: seq<QueriedRecord>)
    ensures |k| <= |recs|
    ensures forall i :: 0 <= i < |k| ==> k[i].noteID.Some?
  {
    if recs == [] then []
    else
      var n := |recs| - 1;
      Kept(recs[..n]) + (if IsKept(recs[n]) then [recs[n].value] else [])
  }

  /** Keeping distributes over concatenation, so the kept records stay in input order. */
  lemma {:induction false} KeptAppend(a: seq<Option<QueriedRecord>>, b: seq<Option<QueriedRecord>>)
    ensures Kept(a + b) == Kept(a) + Kept(b)
  {
    if b == [] {
      assert a + b == a;
    } else {
      var n := |b| - 1;
      KeptAppend(a, b[..n]);
      assert (a + b)[..|a + b| - 1] == a + b[..n];
    }
  }

  /** A record is kept exactly when it appears in the input non-null and with a note id. */
  lemma {:induction false} KeptMembers(recs: seq<Option<QueriedRecord>>, x: QueriedRecord)
    ensures x in Kept(recs) <==> Some(x) in recs && x.noteID.Some?
  {
    if recs != [] {
      var n := |recs| - 1;
      KeptMembers(recs[..n], x);
      assert recs == recs[..n] + [recs[n]];
    }
  }

  /** The map from note id to count; for repeated ids the later record wins. */
  function CountsByNote(recs: seq<Option<QueriedRecord>>): (m: map<string, int>)
    ensures Kept(recs) == [] ==> m == map[]
    ensures recs != [] && IsKept(recs[|recs| - 1]) ==>
      && recs[|recs| - 1].value.noteID.value in m
      && m[recs[|recs| - 1].value.noteID.value] == recs[|recs| - 1].value.count
  {
    if recs == [] then map[]
    else
      var n := |recs| - 1;
      var m := CountsByNote(recs[..n]);
      if IsKept(recs[n]) then m[recs[n].value.noteID.value := recs[n].value.count] else m
  }

  /** The record at index j is kept under note id `id`. */
  predicate KeptWithID(recs: seq<Option<QueriedRecord>>, j: int, id: string)
    requires 0 <= j < |recs|
  {
    IsKept(recs[j]) && recs[j].value.noteID.value == id
  }

  /** The map's keys are exactly the ids of the kept records. */
  lemma {:induction false} CountsByNoteKeys(recs: seq<Option<QueriedRecord>>, id: string)
    ensures id in CountsByNote(recs) <==> exists j :: 0 <= j < |recs| && KeptWithID(recs, j, id)
  {
    if recs != [] {
      var n := |recs| - 1;
      CountsByNoteKeys(recs[..n], id);
      if id in CountsByNote(recs[..n]) {
        var j :| 0 <= j < n && KeptWithID(recs[..n], j, id);
        assert KeptWithID(recs, j, id);
      } else if id in CountsByNote(recs) {
        assert KeptWithID(recs, n, id);
      }
      if exists j :: 0 <= j < |recs| && KeptWithID(recs, j, id) {
        var j :| 0 <= j < |recs| && KeptWithID(recs, j, id);
        if j < n {
          assert KeptWithID(recs[..n], j, id);
        } else {
          assert recs[n].value.noteID.value == id;
        }
        assert id in CountsByNote(recs);
      }
    }
  }

  /** The map sends an id to the count of the last kept record with that id. */
  lemma {:induction false} CountsByNoteLastWins(recs: seq<Option<QueriedRecord>>, j: int, id: string)
    requires 0 <= j < |recs| && KeptWithID(recs, j, id)
    requires forall i :: j < i < |recs| ==> !KeptWithID(recs, i, id)
    ensures id in CountsByNote(recs) && CountsByNote(recs)[id] == recs[j].value.count
  {
    var n := |recs| - 1;
    if j < n {
      forall i | j < i < n
        ensures !KeptWithID(recs[..n], i, id)
      {
        assert !KeptWithID(recs, i, id);
      }
      assert KeptWithID(recs[..n], j, id);
      CountsByNoteLastWins(recs[..n], j, id);
      assert !KeptWithID(recs, n, id);
    }
  }

  /**
   * The loop of the stage: the counts and intervals of the kept records, in
   * order and of equal length, and the id-to-count map.
   */
  method CollectNoteRecords(recs: seq<Option<QueriedRecord>>)
    returns (counts: seq<int>, intervals: seq<real>, byNote: map<string, int>)
    ensures |counts| == |intervals| == |Kept(recs)|
    ensures forall i :: 0 <= i < |counts| ==>
      counts[i] == Kept(recs)[i].count && intervals[i] == Kept(recs)[i].interval
    ensures byNote == CountsByNote(recs)
  {
    counts, intervals, byNote := [], [], map[];
    var i := 0;
    while i < |recs|
      invariant 0 <= i <= |recs|
      invariant |counts| == |intervals| == |Kept(recs[..i])|
      invariant forall k :: 0 <= k < |counts| ==>
        counts[k] == Kept(recs[..i])[k].count && intervals[k] == Kept(recs[..i])[k].interval
      invariant byNote == CountsByNote(recs[..i])
    {
      assert recs[..i + 1][..i] == recs[..i];
      var rec := recs[i];
      if rec.Some? && rec.value.noteID.Some? {
        counts := counts + [rec.value.count];
        intervals := intervals + [rec.value.interval];
        byNote := byNote[rec.value.noteID.value := rec.value.count];
      }
      i := i + 1;
    }
    assert recs[..i] == recs;
  }

  /** The session fields the stage reads or writes. */
  class SimSession {
    var state: SessionState
    var queueIndex: int
    var step: int
    var simRecords: seq<Option<SimRecord>>
    var noteRecordsMap: Option<map<string, int>>

    constructor (state: SessionState, queueIndex: int, step: int,
                 simRecords: seq<Option<SimRecord>>, noteRecordsMap: Option<map<string, int>>)
      ensures this.state == state && this.queueIndex == queueIndex && this.step == step
      ensures this.simRecords == simRecords && this.noteRecordsMap == noteRecordsMap
    {
      this.state := state;
      this.queueIndex := queueIndex;
      this.step := step;
      this.simRecords := simRecords;
      this.noteRecordsMap := noteRecordsMap;
    }

    /** There is a simulation record for the current step. */
    predicate HasStepRecord()
      reads this
    {
      0 <= step < |simRecords| && simRecords[step].Some?
    }

    /**
     * The stage: with a record for the current step, build the snapshot from the
     * query result and store it there and in the session's map; otherwise do nothing.
     */
    method Pipe(recs: seq<Option<QueriedRecord>>)
      modifies this`simRecords, this`noteRecordsMap
      ensures !old(HasStepRecord()) ==>
        simRecords == old(simRecords) && noteRecordsMap == old(noteRecordsMap)
      ensures old(HasStepRecord()) ==>
        && |simRecords| == |old(simRecords)|
        && simRecords[step].Some?
        && simRecords[step].value.noteRecords.Some?
        && (forall i :: 0 <= i < |simRecords| && i != step ==> simRecords[i] == old(simRecords[i]))
        && noteRecordsMap == Some(CountsByNote(recs))
      ensures old(HasStepRecord()) ==>
        var snap := simRecords[step].value.noteRecords.value;
        && |snap.counts| == |snap.intervals| == |Kept(recs)|
        && forall i :: 0 <= i < |snap.counts| ==>
             snap.counts[i] == Kept(recs)[i].count && snap.intervals[i] == Kept(recs)[i].interval
    {
      if 0 <= step < |simRecords| && simRecords[step].Some? {
        var counts, intervals, byNote := CollectNoteRecords(recs);
        var simRec := simRecords[step].value;
        simRecords := simRecords[step := Some(simRec.(noteRecords := Some(NoteRecordsSnapshot(counts, intervals))))];
        noteRecordsMap := Some(byNote);
      }
    }
  }
}
