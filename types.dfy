/** The records of src/types/index.ts.

    `Date` values are modelled as a number of milliseconds since the epoch;
    the persisted JSON is assumed to round-trip losslessly, so storage holds
    these typed values directly. */
module Types {

  /** An optional value: a TypeScript field marked `?`, or a storage key
      that may be absent. */
  datatype Option<+T> = None | Some(value: T) {
    /** The value, or `default` when absent (the `x || default` idiom). */
    function GetOr(default: T): T {
      match this
      case Some(v) => v
      case None => default
    }
  }

  /** Milliseconds since the epoch, as returned by `Date.now()`. */
  type Time = nat

  /** `ClientType`: "new_idea" | "improvement". */
  datatype ClientType = NewIdea | Improvement

  /** `AuditType`: "ui" | "ux" | "general". */
  datatype AuditType = UI | UX | General

  /** `Client`. The TypeScript field `type` is called `clientType` here,
      since `type` is a Dafny keyword. */
  datatype Client = Client(
    id: string,
    name: string,
    company: Option<string>,
    clientType: ClientType,
    auditType: Option<AuditType>,
    createdAt: Time,
    updatedAt: Time
  )

  /** `Message["role"]`: "user" | "assistant". */
  datatype Role = User | Assistant

  /** `Message`: one entry of a client's chat history. */
  datatype Message = Message(
    id: string,
    clientId: string,
    role: Role,
    content: string,
    createdAt: Time
  )

  /** The string form of a client type, as it appears in routes and JSON. */
  function ClientTypeName(t: ClientType): string {
    match t
    case NewIdea => "new_idea"
    case Improvement => "improvement"
  }
}
