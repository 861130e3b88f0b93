/** The parts of a learning session that the modelled pipeline stages read. */
module Session {

  /** The states a session can be in. */
  datatype SessionState =
    | Init | Info | Recall | RecallResponse | Input | MultChoice | ShowPaths | DoneQueue

  /** A unit of content: its id, its type ("info", "recall", ...) and its parent subjects. */
  datatype Note = Note(id: string, noteType: string, parent: seq<string>)

  /** What the evaluation stage attaches to the application state. */
  datatype EvalCtx = EvalCtx(answerQuality: real)
}
