/** Domain values shared by every component of the alarm pipeline. */
module Types {
  datatype Option<+T> = None | Some(value: T)

  datatype Source = UnknownSource | Analog | Digital | Epics

  datatype State = Unknown | Ok | Alarmed | Latched | Acknowledged | Bypassed | Unbypassed

  datatype Severity = UnknownSeverity | Low | High

  datatype Timestamp = Timestamp(seconds: int, nanos: int)

  /** One alarm status as it travels through the service and into Kafka. */
  datatype Status = Status(
    device: string,
    severity: Severity,
    state: State,
    source: Source,
    acknowledgeable: bool,
    time: Option<Timestamp>,
    epicsType: string,
    user: string,
    wake: Option<Timestamp>)

  /** Alarm identity: a device name together with the source that reports it. */
  datatype Key = Key(device: string, source: Source)

  /** The status every field of which is the protobuf default. */
  const DEFAULT_STATUS := Status("", UnknownSeverity, Unknown, UnknownSource, false, None, "", "", None)

  datatype UserAction = Acknowledge | Activate | Bypass(until: Option<Timestamp>) {
    function AsState(): State {
      match this
      case Acknowledge => Acknowledged
      case Activate => Unbypassed
      case Bypass(_) => Bypassed
    }

    function GetWake(): Option<Timestamp> {
      match this
      case Bypass(wake) => wake
      case _ => None
    }
  }

  /** A unit of work for the workflow handler. */
  datatype Job = Job(id: nat, key: Key, status: Status, userInitiated: bool)

  datatype JobOutcome = Committed(job: Job) | Failed(job: Job) | Wake(key: Key)
}
