/** The vocabulary of the backup subsystem (internal/backup/model.go). */
module BackupModel {

  datatype State = Queued | Draining | Snapshotting | Encrypting | Verifying | Syncing | Succeeded | Degraded | Failed

  datatype Trigger = Scheduled | Manual | PreRelease

  datatype Kind = DatabaseDump | ObjectSnapshot | Manifest | RecoveryReport

  datatype Repository = Local | Remote

  predicate Terminal(s: State) {
    s == Succeeded || s == Degraded || s == Failed
  }

  function NextStates(s: State): set<State> {
    match s
    case Queued => {Draining, Failed}
    case Draining => {Snapshotting, Failed}
    case Snapshotting => {Encrypting, Failed}
    case Encrypting => {Verifying, Failed}
    case Verifying => {Syncing, Succeeded, Failed}
    case Syncing => {Succeeded, Degraded, Failed}
    case _ => {}
  }

  predicate ValidTransition(from: State, to: State) {
    to in NextStates(from)
  }
}
