/** The values every component exchanges: a task and what it carries. */
module Models {

  datatype Option<+T> = None | Some(value: T)

  /** A state code outside the six the program names. */
  type OtherCode = n: int | n < 0 || 5 < n witness 6

  datatype TaskState =
    | Invalid
    | Pending
    | Claimed
    | Running
    | Completed
    | Resolving
    | Unknown(code: OtherCode)

  /** The dynamic value of an action. `Unsupported` stands for every other Go type. */
  datatype Action =
    | Download(from: string, to: string, extract: bool)
    | Run(script: string, env: Option<seq<Option<seq<string>>>>, timeout: int)
    | Upload(to: string, from: string)
    | FetchResult(file: string)
    | Unsupported

  datatype LogConfig = LogConfig(guid: string, sourceName: string, index: Option<int>)

  /** A nil slice is `None`; an empty slice is `Some([])`. */
  datatype Task = Task(
    guid: string,
    actions: Option<seq<Action>>,
    stack: string,
    fileDescriptors: int,
    memoryMB: int,
    diskMB: int,
    log: LogConfig,
    createdAt: int,
    updatedAt: int,
    state: TaskState,
    replyTo: string,
    executorId: string,
    containerHandle: string,
    result: string,
    failed: bool,
    failureReason: string)

  /** Only tasks whose actions all have one of the four known types can be serialised. */
  predicate Encodable(t: Task) {
    t.actions.Some? ==> Unsupported !in t.actions.value
  }

  datatype Outcome = Outcome(failed: bool, failureReason: string, result: string)

  function OutcomeOf(t: Task): Outcome {
    Outcome(t.failed, t.failureReason, t.result)
  }
}
