/**
 * The simulator's evaluation stage: instead of grading a learner's input it
 * draws a success at random, with a probability that grows with the number of
 * times the note has been reviewed. The random draw is a parameter.
 */
module SimEval {
  import opened Wrappers
  import opened Session

  /** The lowest and highest answer qualities the stage hands out. */
  datatype AnswerScale = AnswerScale(min: real, max: real)

  /** An entry of the simulator's note-record map, as this stage reads it: `.count`. */
  datatype SimNoteRec = SimNoteRec(count: int)

  /** What the stage reads from the application state, and the evaluation it adds. */
  datatype SimEvalState = SimEvalState(
    state: SessionState,
    successBaseProb: real,
    noteRecordsMap: Option<map<string, SimNoteRec>>,
    evalCtx: Option<EvalCtx>)

  /** A draw succeeds when it falls below the probability. */
  predicate GenerateSuccess(probability: real, draw: real)
    ensures GenerateSuccess(probability, draw) <==> draw < probability
    ensures 0.0 <= draw < 1.0 && 1.0 <= probability ==> GenerateSuccess(probability, draw)
    ensures 0.0 <= draw && probability <= 0.0 ==> !GenerateSuccess(probability, draw)
  {
    draw < probability
  }

  /** Extra success probability earned by prior reviews: none below 3, then 0.15 per review over 2. */
  function CountInfluence(count: int): (r: real)
    ensures count < 3 ==> r == 0.0
    ensures count >= 3 ==> r == (count - 2) as real * 0.15
    ensures r >= 0.0
  {
    if count < 3 then 0.0 else (count - 2) as real * 0.15
  }

  /** More reviews never lower the influence. */
  lemma CountInfluenceMonotone(c1: int, c2: int)
    requires c1 <= c2
    ensures CountInfluence(c1) <= CountInfluence(c2)
  {
  }

  function Min(a: real, b: real): (m: real)
    ensures m <= a && m <= b && (m == a || m == b)
  {
    if a <= b then a else b
  }

  /** The note's entry in the map, when both the map and the entry exist. */
  function NoteEntry(app: SimEvalState, note: Note): (e: Option<SimNoteRec>)
    ensures e.Some? <==> app.noteRecordsMap.Some? && note.id in app.noteRecordsMap.value
  {
    if app.noteRecordsMap.Some? && note.id in app.noteRecordsMap.value
    then Some(app.noteRecordsMap.value[note.id])
    else None
  }

  /**
   * The probability of success for a note: the base probability, raised by the
   * count influence and capped at 1.0 when the note has an entry in the map.
   */
  function SuccessProbability(app: SimEvalState, note: Note): (p: real)
    ensures NoteEntry(app, note).None? ==> p == app.successBaseProb
    ensures NoteEntry(app, note).Some? ==>
      && p <= 1.0
      && p == Min(1.0, app.successBaseProb + CountInfluence(NoteEntry(app, note).value.count))
      && (app.successBaseProb <= 1.0 ==> app.successBaseProb <= p)
  {
    var e := NoteEntry(app, note);
    if e.Some? then Min(1.0, app.successBaseProb + CountInfluence(e.value.count))
    else app.successBaseProb
  }

  /** Whether the simulated learner answers a graded note correctly, for a given draw. */
  predicate CalcSuccess(app: SimEvalState, note: Note, draw: real)
    ensures CalcSuccess(app, note, draw) <==> draw < SuccessProbability(app, note)
    ensures 1.0 <= app.successBaseProb && 0.0 <= draw < 1.0 ==> CalcSuccess(app, note, draw)
  {
    GenerateSuccess(SuccessProbability(app, note), draw)
  }

  /**
   * The stage. With no current note it evaluates as success at the top of the
   * scale when the queue is done and otherwise leaves the state alone; an info
   * note always succeeds; any other note succeeds by the draw.
   */
  function Pipe(app: SimEvalState, currentNote: Option<Note>, answer: AnswerScale, draw: real): (r: SimEvalState)
    ensures currentNote.None? && app.state != DoneQueue ==> r == app
    ensures currentNote.None? && app.state == DoneQueue ==>
      r == app.(evalCtx := Some(EvalCtx(answer.max)))
    ensures currentNote.Some? && currentNote.value.noteType == "info" ==>
      r == app.(evalCtx := Some(EvalCtx(answer.max)))
    ensures currentNote.Some? && currentNote.value.noteType != "info" ==>
      r == app.(evalCtx := Some(EvalCtx(
        if draw < SuccessProbability(app, currentNote.value) then answer.max else answer.min)))
  {
    if currentNote.None? then
      if app.state == DoneQueue then app.(evalCtx := Some(EvalCtx(answer.max)))
      else app
    else
      var success := currentNote.value.noteType == "info" || CalcSuccess(app, currentNote.value, draw);
      app.(evalCtx := Some(EvalCtx(if success then answer.max else answer.min)))
  }

  /** The stage either leaves the state alone or sets only the evaluation, to one of the two ends. */
  lemma PipeOnlySetsEval(app: SimEvalState, currentNote: Option<Note>, answer: AnswerScale, draw: real)
    ensures var r := Pipe(app, currentNote, answer, draw);
      || r == app
      || r == app.(evalCtx := Some(EvalCtx(answer.max)))
      || r == app.(evalCtx := Some(EvalCtx(answer.min)))
  {
  }

  /** A base probability of at least 1 and a draw in [0, 1) make every graded note a success. */
  lemma CertainSuccess(app: SimEvalState, note: Note, answer: AnswerScale, draw: real)
    requires 1.0 <= app.successBaseProb && 0.0 <= draw < 1.0
    ensures Pipe(app, Some(note), answer, draw) == app.(evalCtx := Some(EvalCtx(answer.max)))
  {
  }
}
