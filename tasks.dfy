/** The records of the `tasks` and `partnerships` collections as the client
    sees them, and the error values the hooks pass around. */
module Tasks {
  import opened Wrappers

  type UserId = string
  type TaskId = string

  /** Timestamps are integer milliseconds since the epoch; the ISO strings
      the backend stores are not modelled. */
  type Millis = int

  datatype Task = Task(
    id: TaskId,
    owner: UserId,
    description: string,
    completed: bool,
    created: Millis,
    updated: Millis)

  /** The `taskData` of an update: each field that is present overwrites
      the task's field, each absent field is left alone. */
  datatype Patch = Patch(description: Option<string>, completed: Option<bool>)

  /** The `taskData` a caller hands to create; `owner` is whatever the
      caller put there, if anything. */
  datatype TaskInput = TaskInput(description: string, completed: bool, owner: Option<UserId>)

  datatype Partnership = Partnership(id: string, partner1: UserId, partner2: UserId)

  /** A thrown `Error`, identified by its message. */
  datatype Error = Error(message: string)
}
