/**
 * The recording stage: after an answer has been graded, the per-(user, note)
 * record of spaced-repetition values is brought forward by one review and
 * written back to the note-record store (update if it exists, else create).
 */
module PipeRecord {
  import opened Wrappers
  import opened Session
  import Eval

  /** A point in time, in milliseconds. */
  type Date = int

  /**
   * The spaced-repetition scheduler. Its calculations live outside this model,
   * so they are carried as values the model knows nothing about. The due date
   * is computed from the interval at the present time, so it also takes the clock.
   */
  datatype Scheduler = Scheduler(
    defaultFactor: real,
    defaultInterval: real,
    defaultCount: int,
    calcFactor: (real, real) -> real,
    calcInterval: (real, real, int, real) -> real,
    calcDueDate: (real, Date) -> Date)

  /** A stored note record: identity fields, scheduling values and their histories. */
  datatype NoteRecord = NoteRecord(
    userID: string,
    noteID: string,
    noteType: string,
    subjectParent: Option<string>,
    factor: real,
    interval: real,
    count: int,
    factorHistory: seq<real>,
    intervalHistory: seq<real>,
    due: Date,
    lastDone: Date,
    dueHistory: seq<Date>,
    lastDoneHistory: seq<Date>,
    responseHistory: seq<real>,
    health: real)

  /** All history lists have one entry per review, and `count` is the number of reviews. */
  predicate Lockstep(r: NoteRecord)
  {
    && |r.factorHistory| == r.count
    && |r.intervalHistory| == r.count
    && |r.dueHistory| == r.count
    && |r.lastDoneHistory| == r.count
    && |r.responseHistory| == r.count
  }

  // ---------------------------------------------------------------------------
  // Note health
  // ---------------------------------------------------------------------------

  /** Sum of a sequence, adding from the front. */
  function Sum(s: seq<real>): real
  {
    if s == [] then 0.0 else Sum(s[..|s| - 1]) + s[|s| - 1]
  }

  /** The last (at most) `n` entries of a sequence. */
  function LastN(s: seq<real>, n: nat): (w: seq<real>)
    ensures |w| == if |s| <= n then |s| else n
    ensures w == s[|s| - |w|..]
  {
    if |s| <= n then s else s[|s| - n..]
  }

  /** More than three responses, of which the last three are exactly zero. */
  predicate RecentAllZero(h: seq<real>)
  {
    |h| > 3 && h[|h| - 1] == 0.0 && h[|h| - 2] == 0.0 && h[|h| - 3] == 0.0
  }

  /** Arithmetic mean of a non-empty sequence. */
  function Mean(s: seq<real>): real
    requires s != []
  {
    Sum(s) / |s| as real
  }

  /**
   * The health of a note from its response history: 0 for no history, 0 when
   * the recent responses were all zero, otherwise the mean of the last four.
   */
  function NoteHealth(h: seq<real>): (r: real)
    ensures h == [] ==> r == 0.0
    ensures RecentAllZero(h) ==> r == 0.0
  {
    if h == [] then 0.0
    else if RecentAllZero(h) then 0.0
    else Mean(LastN(h, 4))
  }

  /** Computes the health of a note with the two loops of the source. */
  method CalcNoteHealth(h: seq<real>) returns (health: real)
    ensures health == NoteHealth(h)
  {
    if |h| == 0 {
      return 0.0;
    }
    if |h| > 3 {
      var allBad := true;
      var i := 0;
      while i < 3
        invariant 0 <= i <= 3
        invariant allBad
        invariant forall j :: |h| - i <= j < |h| ==> h[j] == 0.0
      {
        if h[|h| - 1 - i] != 0.0 {
          allBad := false;
          break;
        }
        i := i + 1;
      }
      if allBad {
        return 0.0;
      }
    }
    var last := LastN(h, 4);
    var sum := 0.0;
    var k := 0;
    while k < |last|
      invariant 0 <= k <= |last|
      invariant sum == Sum(last[..k])
    {
      assert last[..k + 1][..k] == last[..k];
      sum := sum + last[k];
      k := k + 1;
    }
    assert last[..k] == last;
    health := sum / |last| as real;
  }

  /** Every entry of `s` lies in [lo, hi], so its sum lies in [|s|*lo, |s|*hi]. */
  lemma {:induction false} SumBounds(s: seq<real>, lo: real, hi: real)
    requires forall i :: 0 <= i < |s| ==> lo <= s[i] <= hi
    ensures |s| as real * lo <= Sum(s) <= |s| as real * hi
  {
    if s != [] {
      SumBounds(s[..|s| - 1], lo, hi);
    }
  }

  /** The mean lies between any lower and upper bound of its entries. */
  lemma MeanBounds(s: seq<real>, lo: real, hi: real)
    requires s != []
    requires forall i :: 0 <= i < |s| ==> lo <= s[i] <= hi
    ensures lo <= Mean(s) <= hi
  {
    SumBounds(s, lo, hi);
    var n := |s| as real;
    assert Sum(s) / n >= lo by {
      assert Sum(s) >= n * lo;
    }
    assert Sum(s) / n <= hi by {
      assert Sum(s) <= n * hi;
    }
  }

  /**
   * Unless the recent responses were all zero, a non-empty history's health is
   * between the smallest and the largest of its last (at most) four entries.
   */
  lemma HealthWithinWindow(h: seq<real>, lo: real, hi: real)
    requires h != [] && !RecentAllZero(h)
    requires forall i :: 0 <= i < |LastN(h, 4)| ==> lo <= LastN(h, 4)[i] <= hi
    ensures lo <= NoteHealth(h) <= hi
  {
    MeanBounds(LastN(h, 4), lo, hi);
  }

  /** A history of graded answers on the quality scale has health on that scale. */
  lemma HealthOnScale(h: seq<real>)
    requires h != []
    requires forall i :: 0 <= i < |h| ==> Eval.MinResponseQuality <= h[i] <= Eval.MaxResponseQuality
    ensures Eval.MinResponseQuality <= NoteHealth(h) <= Eval.MaxResponseQuality
  {
    var lo, hi := Eval.MinResponseQuality, Eval.MaxResponseQuality;
    var w := LastN(h, 4);
    assert h[|h| - 1] != 0.0 by {
      assert lo <= h[|h| - 1];
    }
    assert !RecentAllZero(h);
    forall i | 0 <= i < |w|
      ensures lo <= w[i] <= hi
    {
      assert w[i] == h[|h| - |w| + i];
    }
    HealthWithinWindow(h, lo, hi);
  }

  /** Three zeros at the end give health 0, whatever came before them. */
  lemma {:induction false} HealthZeroAfterThreeZeros(prefix: seq<real>)
    ensures NoteHealth(prefix + [0.0, 0.0, 0.0]) == 0.0
  {
    var h := prefix + [0.0, 0.0, 0.0];
    if prefix == [] {
      assert h == [0.0, 0.0, 0.0];
      assert LastN(h, 4) == h;
      assert h[..2] == [0.0, 0.0] && h[..2][..1] == [0.0] && h[..2][..1][..0] == [];
      assert Sum(h[..2][..1]) == 0.0;
      assert Sum(h[..2]) == 0.0;
      assert Sum(h) == 0.0;
    } else {
      assert RecentAllZero(h);
    }
  }

  // ---------------------------------------------------------------------------
  // Building the record context
  // ---------------------------------------------------------------------------

  /** New factor, interval and count, with the factor and interval histories appended. */
  datatype SpaceRepVals = SpaceRepVals(
    factor: real, interval: real, count: int,
    factorHistory: seq<real>, intervalHistory: seq<real>)

  /** New due date and time of review, with their histories appended. */
  datatype DateVals = DateVals(
    due: Date, lastDone: Date, dueHistory: seq<Date>, lastDoneHistory: seq<Date>)

  /** The fields the recording stage computes and writes. */
  datatype RecordCtx = RecordCtx(
    factor: real,
    interval: real,
    count: int,
    factorHistory: seq<real>,
    intervalHistory: seq<real>,
    due: Date,
    lastDone: Date,
    dueHistory: seq<Date>,
    lastDoneHistory: seq<Date>,
    responseHistory: seq<real>,
    health: real)

  /** The prior factor, interval and count: the record's, or the scheduler's defaults. */
  function PriorFactor(s: Scheduler, record: Option<NoteRecord>): real
  {
    if record.Some? then record.value.factor else s.defaultFactor
  }

  function PriorInterval(s: Scheduler, record: Option<NoteRecord>): real
  {
    if record.Some? then record.value.interval else s.defaultInterval
  }

  function PriorCount(s: Scheduler, record: Option<NoteRecord>): int
  {
    if record.Some? then record.value.count else s.defaultCount
  }

  /** Computes the next factor, interval and count and appends to their histories. */
  function PipeSpaceRepVals(s: Scheduler, record: Option<NoteRecord>, quality: real): (v: SpaceRepVals)
    ensures v.count == PriorCount(s, record) + 1
    ensures v.factor == s.calcFactor(PriorFactor(s, record), quality)
    ensures v.interval == s.calcInterval(PriorInterval(s, record), v.factor, v.count, quality)
    ensures record.None? ==> v.factorHistory == [v.factor] && v.intervalHistory == [v.interval]
    ensures record.Some? ==> v.factorHistory == record.value.factorHistory + [v.factor]
    ensures record.Some? ==> v.intervalHistory == record.value.intervalHistory + [v.interval]
  {
    var newFactor := s.calcFactor(PriorFactor(s, record), quality);
    var newCount := PriorCount(s, record) + 1;
    var newInterval := s.calcInterval(PriorInterval(s, record), newFactor, newCount, quality);
    var factorHistory := if record.Some? then record.value.factorHistory else [];
    var intervalHistory := if record.Some? then record.value.intervalHistory else [];
    SpaceRepVals(newFactor, newInterval, newCount,
                 factorHistory + [newFactor], intervalHistory + [newInterval])
  }

  /** Computes the due date from the new interval, stamps the review time and appends both. */
  function PipeDates(s: Scheduler, interval: real, record: Option<NoteRecord>, now: Date): (d: DateVals)
    ensures d.due == s.calcDueDate(interval, now) && d.lastDone == now
    ensures record.None? ==> d.dueHistory == [d.due] && d.lastDoneHistory == [now]
    ensures record.Some? ==> d.dueHistory == record.value.dueHistory + [d.due]
    ensures record.Some? ==> d.lastDoneHistory == record.value.lastDoneHistory + [now]
  {
    var due := s.calcDueDate(interval, now);
    var dueHistory := if record.Some? then record.value.dueHistory else [];
    var lastDoneHistory := if record.Some? then record.value.lastDoneHistory else [];
    DateVals(due, now, dueHistory + [due], lastDoneHistory + [now])
  }

  /** The response history with the new answer quality appended. */
  function PipeResponseHistory(record: Option<NoteRecord>, quality: real): (h: seq<real>)
    ensures record.None? ==> h == [quality]
    ensures record.Some? ==> |h| == |record.value.responseHistory| + 1
    ensures record.Some? ==> h[..|h| - 1] == record.value.responseHistory && h[|h| - 1] == quality
  {
    if record.None? then [quality] else record.value.responseHistory + [quality]
  }

  /** All fields of one review, from the stages in the source's order. */
  function BuildRecordCtx(s: Scheduler, record: Option<NoteRecord>, quality: real, now: Date): (c: RecordCtx)
    ensures c.count == PriorCount(s, record) + 1
    ensures |c.responseHistory| == |if record.Some? then record.value.responseHistory else []| + 1
    ensures c.responseHistory[|c.responseHistory| - 1] == quality
    ensures c.health == NoteHealth(c.responseHistory)
  {
    var v := PipeSpaceRepVals(s, record, quality);
    var d := PipeDates(s, v.interval, record, now);
    var h := PipeResponseHistory(record, quality);
    RecordCtx(v.factor, v.interval, v.count, v.factorHistory, v.intervalHistory,
              d.due, d.lastDone, d.dueHistory, d.lastDoneHistory, h, NoteHealth(h))
  }

  /** An existing record with the computed fields written over it; identity fields stay. */
  function ApplyUpdate(r: NoteRecord, c: RecordCtx): (u: NoteRecord)
    ensures u.userID == r.userID && u.noteID == r.noteID
    ensures u.noteType == r.noteType && u.subjectParent == r.subjectParent
  {
    r.(factor := c.factor, interval := c.interval, count := c.count,
       factorHistory := c.factorHistory, intervalHistory := c.intervalHistory,
       due := c.due, lastDone := c.lastDone,
       dueHistory := c.dueHistory, lastDoneHistory := c.lastDoneHistory,
       responseHistory := c.responseHistory, health := c.health)
  }

  /** The first parent subject of a note, if it has one. */
  function FirstParent(note: Note): Option<string>
  {
    if |note.parent| > 0 then Some(note.parent[0]) else None
  }

  /** A fresh record for a note: the computed fields plus the identity fields. */
  function NewRecord(userID: string, note: Note, c: RecordCtx): (r: NoteRecord)
    ensures r.userID == userID && r.noteID == note.id && r.noteType == note.noteType
    ensures r.subjectParent == FirstParent(note)
    ensures r.count == c.count && r.responseHistory == c.responseHistory && r.health == c.health
  {
    NoteRecord(userID, note.id, note.noteType, FirstParent(note),
               c.factor, c.interval, c.count, c.factorHistory, c.intervalHistory,
               c.due, c.lastDone, c.dueHistory, c.lastDoneHistory,
               c.responseHistory, c.health)
  }

  /** The record left in the store by one review of `note`, given the record found (if any). */
  function NextRecord(s: Scheduler, userID: string, note: Note, found: Option<NoteRecord>,
                      quality: real, now: Date): (r: NoteRecord)
    ensures found.Some? ==> r.userID == found.value.userID && r.noteID == found.value.noteID
    ensures found.Some? ==> r.noteType == found.value.noteType && r.subjectParent == found.value.subjectParent
    ensures found.None? ==> r.userID == userID && r.noteID == note.id && r.noteType == note.noteType
    ensures found.None? ==> r.subjectParent == FirstParent(note)
    ensures r.count == PriorCount(s, found) + 1 && r.lastDone == now
  {
    var c := BuildRecordCtx(s, found, quality, now);
    if found.Some? then ApplyUpdate(found.value, c) else NewRecord(userID, note, c)
  }

  /**
   * One review appends exactly one entry to every history, ending in the value
   * just computed, leaves earlier entries as they were, and adds one to the count.
   */
  lemma NextRecordAppends(s: Scheduler, userID: string, note: Note, found: Option<NoteRecord>,
                          quality: real, now: Date)
    ensures var n := NextRecord(s, userID, note, found, quality, now);
      && n.count == PriorCount(s, found) + 1
      && n.factorHistory == (if found.Some? then found.value.factorHistory else []) + [n.factor]
      && n.intervalHistory == (if found.Some? then found.value.intervalHistory else []) + [n.interval]
      && n.dueHistory == (if found.Some? then found.value.dueHistory else []) + [n.due]
      && n.lastDoneHistory == (if found.Some? then found.value.lastDoneHistory else []) + [now]
      && n.responseHistory == (if found.Some? then found.value.responseHistory else []) + [quality]
      && n.health == NoteHealth(n.responseHistory)
      && n.factor == s.calcFactor(PriorFactor(s, found), quality)
      && n.interval == s.calcInterval(PriorInterval(s, found), n.factor, n.count, quality)
      && n.due == s.calcDueDate(n.interval, now)
      && n.lastDone == now
  {
  }

  /**
   * Histories in lockstep stay in lockstep: an existing record in lockstep, or
   * none when the default count is 0, gives a record in lockstep.
   */
  lemma NextRecordLockstep(s: Scheduler, userID: string, note: Note, found: Option<NoteRecord>,
                           quality: real, now: Date)
    requires found.Some? ==> Lockstep(found.value)
    requires found.None? ==> s.defaultCount == 0
    ensures Lockstep(NextRecord(s, userID, note, found, quality, now))
  {
    NextRecordAppends(s, userID, note, found, quality, now);
  }

  /** The record after reviewing the same note with each quality of `qs` in turn. */
  function Replay(s: Scheduler, userID: string, note: Note, start: Option<NoteRecord>,
                  qs: seq<real>, clock: seq<Date>): Option<NoteRecord>
    requires |clock| == |qs|
  {
    if qs == [] then start
    else
      var n := |qs| - 1;
      Some(NextRecord(s, userID, note, Replay(s, userID, note, start, qs[..n], clock[..n]), qs[n], clock[n]))
  }

  /**
   * After N reviews of a note that had no record, with a default count of 0,
   * the record has count N and every history has N entries.
   */
  lemma {:induction false} ReplayLockstep(s: Scheduler, userID: string, note: Note,
                                          qs: seq<real>, clock: seq<Date>)
    requires s.defaultCount == 0 && |clock| == |qs| && qs != []
    ensures var r := Replay(s, userID, note, None, qs, clock);
      r.Some? && Lockstep(r.value) && r.value.count == |qs|
  {
    var n := |qs| - 1;
    var prev := Replay(s, userID, note, None, qs[..n], clock[..n]);
    if n > 0 {
      ReplayLockstep(s, userID, note, qs[..n], clock[..n]);
    }
    NextRecordLockstep(s, userID, note, prev, qs[n], clock[n]);
  }

  /** A non-empty sequence is its prefix followed by its last element. */
  lemma InitPlusLast<T>(xs: seq<T>)
    requires xs != []
    ensures xs[..|xs| - 1] + [xs[|xs| - 1]] == xs
  {
  }

  /** The response history after N reviews from no record is the N qualities, in order. */
  lemma {:induction false} ReplayResponses(s: Scheduler, userID: string, note: Note,
                                           qs: seq<real>, clock: seq<Date>)
    requires |clock| == |qs| && qs != []
    ensures var r := Replay(s, userID, note, None, qs, clock);
      r.Some? && r.value.responseHistory == qs
  {
    var n := |qs| - 1;
    var prev := Replay(s, userID, note, None, qs[..n], clock[..n]);
    var next := NextRecord(s, userID, note, prev, qs[n], clock[n]);
    assert Replay(s, userID, note, None, qs, clock) == Some(next);
    var before: seq<real> := if prev.Some? then prev.value.responseHistory else [];
    if n > 0 {
      ReplayResponses(s, userID, note, qs[..n], clock[..n]);
      assert before == qs[..n];
    } else {
      assert before == qs[..n];
    }
    InitPlusLast(qs);
    NextRecordAppends(s, userID, note, prev, qs[n], clock[n]);
  }

  /** The review times after N reviews from no record are the N clock readings, in order. */
  lemma {:induction false} ReplayClock(s: Scheduler, userID: string, note: Note,
                                       qs: seq<real>, clock: seq<Date>)
    requires |clock| == |qs| && qs != []
    ensures var r := Replay(s, userID, note, None, qs, clock);
      r.Some? && r.value.lastDoneHistory == clock
  {
    var n := |qs| - 1;
    var prev := Replay(s, userID, note, None, qs[..n], clock[..n]);
    var next := NextRecord(s, userID, note, prev, qs[n], clock[n]);
    assert Replay(s, userID, note, None, qs, clock) == Some(next);
    var before: seq<Date> := if prev.Some? then prev.value.lastDoneHistory else [];
    if n > 0 {
      ReplayClock(s, userID, note, qs[..n], clock[..n]);
      assert before == clock[..n];
    } else {
      assert before == clock[..n];
    }
    InitPlusLast(clock);
    NextRecordAppends(s, userID, note, prev, qs[n], clock[n]);
  }

  // ---------------------------------------------------------------------------
  // The stage against the note-record store
  // ---------------------------------------------------------------------------

  /** Records are looked up by (userID, noteID). */
  datatype RecordKey = RecordKey(userID: string, noteID: string)

  function KeyOf(r: NoteRecord): RecordKey
  {
    RecordKey(r.userID, r.noteID)
  }

  /** Every stored record sits under its own (userID, noteID). */
  predicate KeysMatch(records: map<RecordKey, NoteRecord>)
  {
    forall k :: k in records ==> KeyOf(records[k]) == k
  }

  function Lookup(records: map<RecordKey, NoteRecord>, key: RecordKey): (r: Option<NoteRecord>)
    ensures r.Some? <==> key in records
  {
    if key in records then Some(records[key]) else None
  }

  /** A write the stage sends to the store. */
  datatype StoreWrite = Update(key: RecordKey, ctx: RecordCtx) | Create(record: NoteRecord)

  /** The store after a write. */
  function ApplyWrite(records: map<RecordKey, NoteRecord>, w: Option<StoreWrite>): map<RecordKey, NoteRecord>
  {
    match w
    case None => records
    case Some(Update(k, c)) => if k in records then records[k := ApplyUpdate(records[k], c)] else records
    case Some(Create(r)) => records[KeyOf(r) := r]
  }

  function WriteLog(w: Option<StoreWrite>): seq<StoreWrite>
  {
    if w.Some? then [w.value] else []
  }

  /** What the stage reads from the application state and adds to it. */
  datatype AppState = AppState(
    userID: string,
    state: SessionState,
    noteQueue: seq<Note>,
    queueIndex: int,
    evalCtx: Option<EvalCtx>,
    recordCtx: Option<RecordCtx>)

  /** Reading `noteQueue[queueIndex]` found no note, so no note id could be read. */
  datatype PipeError = NoCurrentNote

  datatype StepOutcome = StepOutcome(result: Result<AppState, PipeError>, write: Option<StoreWrite>)

  /** The stage is skipped: nothing was evaluated, the queue is done, or it is empty. */
  predicate Skipped(app: AppState)
  {
    app.evalCtx.None? || app.state == DoneQueue || |app.noteQueue| == 0
  }

  /** The result of the stage and the single write (if any) it makes. */
  function RecordStep(records: map<RecordKey, NoteRecord>, app: AppState, s: Scheduler, now: Date): (o: StepOutcome)
    ensures Skipped(app) ==> o.result == Ok(app) && o.write.None?
    ensures !Skipped(app) && !(0 <= app.queueIndex < |app.noteQueue|) ==>
      o.result == Err(NoCurrentNote) && o.write.None?
    ensures !Skipped(app) && 0 <= app.queueIndex < |app.noteQueue| ==>
      && o.result.Ok? && o.result.value.(recordCtx := app.recordCtx) == app
      && o.result.value.recordCtx.Some?
      && o.write.Some?
      && (o.write.value.Update? <==> RecordKey(app.userID, app.noteQueue[app.queueIndex].id) in records)
  {
    if Skipped(app) then StepOutcome(Ok(app), None)
    else if !(0 <= app.queueIndex < |app.noteQueue|) then StepOutcome(Err(NoCurrentNote), None)
    else
      var note := app.noteQueue[app.queueIndex];
      var key := RecordKey(app.userID, note.id);
      var found := Lookup(records, key);
      var c := BuildRecordCtx(s, found, app.evalCtx.value.answerQuality, now);
      StepOutcome(Ok(app.(recordCtx := Some(c))),
                  Some(if found.Some? then Update(key, c) else Create(NewRecord(app.userID, note, c))))
  }

  /** A skipped stage returns the state unchanged and writes nothing. */
  lemma SkippedIsNoOp(records: map<RecordKey, NoteRecord>, app: AppState, s: Scheduler, now: Date)
    requires Skipped(app)
    ensures RecordStep(records, app, s, now) == StepOutcome(Ok(app), None)
  {
  }

  /**
   * A stage that is not skipped and finds its note makes exactly one write: an
   * update when the record exists, else a create. The store then holds the next
   * record under the note's key and nothing else changes; the result is the input
   * state plus the computed fields.
   */
  lemma {:induction false} StepWritesNextRecord(records: map<RecordKey, NoteRecord>, app: AppState,
                                                s: Scheduler, now: Date)
    requires KeysMatch(records)
    requires !Skipped(app) && 0 <= app.queueIndex < |app.noteQueue|
    ensures var o := RecordStep(records, app, s, now);
      var note := app.noteQueue[app.queueIndex];
      var key := RecordKey(app.userID, note.id);
      var found := Lookup(records, key);
      var q := app.evalCtx.value.answerQuality;
      && o.write.Some?
      && (o.write.value.Update? <==> key in records)
      && o.result == Ok(app.(recordCtx := Some(BuildRecordCtx(s, found, q, now))))
      && ApplyWrite(records, o.write) == records[key := NextRecord(s, app.userID, note, found, q, now)]
      && KeysMatch(ApplyWrite(records, o.write))
  {
    var note := app.noteQueue[app.queueIndex];
    var key := RecordKey(app.userID, note.id);
    var found := Lookup(records, key);
    var q := app.evalCtx.value.answerQuality;
    var c := BuildRecordCtx(s, found, q, now);
    var o := RecordStep(records, app, s, now);
    if key in records {
      assert o.write == Some(Update(key, c));
    } else {
      assert o.write == Some(Create(NewRecord(app.userID, note, c)));
      assert KeyOf(NewRecord(app.userID, note, c)) == key;
    }
  }

  /** A created record carries the user, the note's id and type, and its first parent. */
  lemma CreatedRecordIdentity(records: map<RecordKey, NoteRecord>, app: AppState, s: Scheduler, now: Date)
    requires !Skipped(app) && 0 <= app.queueIndex < |app.noteQueue|
    requires RecordStep(records, app, s, now).write.value.Create?
    ensures var r := RecordStep(records, app, s, now).write.value.record;
      var note := app.noteQueue[app.queueIndex];
      && r.userID == app.userID && r.noteID == note.id && r.noteType == note.noteType
      && r.subjectParent == FirstParent(note)
      && r.count == s.defaultCount + 1
      && r.responseHistory == [app.evalCtx.value.answerQuality]
  {
  }

  /** The note-record store, keyed by (userID, noteID), with the log of writes sent to it. */
  class NoteRecordStore {
    var records: map<RecordKey, NoteRecord>
    var writes: seq<StoreWrite>

    ghost predicate Valid()
      reads this
    {
      KeysMatch(records)
    }

    constructor ()
      ensures Valid() && records == map[] && writes == []
    {
      records := map[];
      writes := [];
    }

    /** Reads the record stored under a key, if any. */
    method FindOne(key: RecordKey) returns (r: Option<NoteRecord>)
      ensures r == Lookup(records, key)
    {
      if key in records {
        r := Some(records[key]);
      } else {
        r := None;
      }
    }

    /** Writes the computed fields over an existing record. */
    method Update(key: RecordKey, c: RecordCtx)
      requires Valid()
      modifies this
      ensures Valid()
      ensures records == ApplyWrite(old(records), Some(StoreWrite.Update(key, c)))
      ensures writes == old(writes) + [StoreWrite.Update(key, c)]
    {
      if key in records {
        records := records[key := ApplyUpdate(records[key], c)];
      }
      writes := writes + [StoreWrite.Update(key, c)];
    }

    /** Stores a new record under its own key. */
    method Create(r: NoteRecord)
      requires Valid()
      modifies this
      ensures Valid()
      ensures records == old(records)[KeyOf(r) := r]
      ensures writes == old(writes) + [StoreWrite.Create(r)]
    {
      records := records[KeyOf(r) := r];
      writes := writes + [StoreWrite.Create(r)];
    }

    /**
     * The recording stage: skip when there is nothing to record, otherwise
     * read the note's record, compute the next values and write them back once.
     */
    method Pipe(app: AppState, s: Scheduler, now: Date) returns (r: Result<AppState, PipeError>)
      requires Valid()
      modifies this
      ensures Valid()
      ensures var o := RecordStep(old(records), app, s, now);
        && r == o.result
        && records == ApplyWrite(old(records), o.write)
        && writes == old(writes) + WriteLog(o.write)
    {
      if app.evalCtx.None? {
        return Ok(app);
      }
      if app.state == DoneQueue {
        return Ok(app);
      }
      if |app.noteQueue| == 0 {
        return Ok(app);
      }
      if !(0 <= app.queueIndex < |app.noteQueue|) {
        return Err(NoCurrentNote);
      }
      var note := app.noteQueue[app.queueIndex];
      var key := RecordKey(app.userID, note.id);
      var found := FindOne(key);
      var q := app.evalCtx.value.answerQuality;
      var v := PipeSpaceRepVals(s, found, q);
      var d := PipeDates(s, v.interval, found, now);
      var h := PipeResponseHistory(found, q);
      var health := CalcNoteHealth(h);
      var c := RecordCtx(v.factor, v.interval, v.count, v.factorHistory, v.intervalHistory,
                         d.due, d.lastDone, d.dueHistory, d.lastDoneHistory, h, health);
      assert c == BuildRecordCtx(s, found, q, now);
      if found.Some? {
        Update(key, c);
      } else {
        Create(NewRecord(app.userID, note, c));
      }
      r := Ok(app.(recordCtx := Some(c)));
    }
  }
}
