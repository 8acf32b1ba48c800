/** The planner's application state: the payload that is serialised, sealed and stored. */
module Data {

  /** One entry of the to-do list. */
  datatype Task = Task(id: int, text: string, done: bool, isRecurring: bool)

  /** One saved stopwatch session. */
  datatype Session = Session(name: string, durationMs: int)

  /** The whole application state, always sealed and opened as one unit. */
  datatype AppData = AppData(todos: seq<Task>, sessions: seq<Session>, notes: string, mood: int)

  /** The state of a first start (no stored data). */
  const DefaultData: AppData := AppData([], [], "", 3)
}
