/** The values Fleet keeps about its agents. */
module FleetRecords {
  import opened Transcript

  type AgentID = string
  type Pid = nat

  /** One life of a process. Its fingerprint is modelled by itself: two lives
      never share one. */
  type Incarnation = nat

  /** runtime.json: the instance that wrote it (unique to one incarnation), its
      pid, and its fingerprint when the process could determine it. */
  datatype Record = Record(writer: Incarnation, serial: nat, pid: Pid, identity: Option<Incarnation>)

  datatype Entry = Entry(enabled: bool, autostart: bool)

  datatype Binding = Bound | Orphaned | Invalid
}
