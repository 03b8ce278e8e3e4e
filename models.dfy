/** The task record and its status enumeration. */
module Models {
  import opened Wrappers

  /** The four values of the status enumeration. */
  datatype TaskStatus = Pending | Processing | Done | Failed {
    predicate IsTerminal() {
      this == Done || this == Failed
    }

    /** Position along Pending -> Processing -> {Done, Failed}. */
    function Rank(): nat {
      match this
      case Pending => 0
      case Processing => 1
      case Done => 2
      case Failed => 2
    }
  }

  /** A stored task; the identifier is the key it is stored under. */
  datatype Task = Task(payload: string, status: TaskStatus, result: Option<string>)
}
