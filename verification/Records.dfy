// Approval records and the two map operations of dicode.lock that every other
// module builds on (pkg/approval/lock.go).
module Records {
  datatype Option<+T> = None | Some(value: T)

  datatype By =
    | Builtin
    | TrustedSource
    | TrustedTask
    | Manual
    | TokenLink
    | GateDisabled
    | Bootstrap

  datatype Record = Record(hash: string, at: int, via: By, commit: string)

  type RecordMap = map<string, Record>

  // An empty hash never matches: it stands for "no hash could be computed".
  predicate Approved(tasks: RecordMap, id: string, hash: string) {
    hash != "" && id in tasks && tasks[id].hash == hash
  }

  // The record of an already recorded hash is kept as it is.
  function Recorded(tasks: RecordMap, id: string, r: Record): RecordMap {
    if id in tasks && tasks[id].hash == r.hash then tasks else tasks[id := r]
  }

  function Removed(tasks: RecordMap, id: string): RecordMap {
    tasks - {id}
  }
}
