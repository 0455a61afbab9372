/** The guards of the coordinator: which automated updates to publish, which user actions to allow. */
module Policy {
  import opened Types

  predicate IsBypassed(prev: Option<Status>) {
    prev.Some? && prev.value.state == Bypassed
  }

  predicate TransitionAllowed(prev: State, next: State) {
    || (prev == Ok && next == Alarmed)
    || (prev == Alarmed && (next == Latched || next == Ok))
    || (prev == Acknowledged && (next == Ok || next == Alarmed))
    || prev == Bypassed
    || prev == Unknown
  }

  predicate ShouldPublish(prev: Option<Status>, alarm: Status) {
    if IsBypassed(prev) && alarm.source == Epics && alarm.state != Unbypassed then
      false
    else
      prev.None?
      || TransitionAllowed(prev.value.state, alarm.state)
      || prev.value.severity != alarm.severity
  }

  predicate UserActionAllowed(latestState: State, latestWake: Option<Timestamp>, action: UserAction) {
    match action
    case Acknowledge => latestState == Alarmed || latestState == Latched
    case Activate => latestState == Bypassed
    case Bypass(wake) => latestState != Bypassed || latestWake != wake
  }

  const ALL_STATES := {Unknown, Ok, Alarmed, Latched, Acknowledged, Bypassed, Unbypassed}

  /** The states that an automated update of unchanged severity can move an alarm to. */
  function Successors(prev: State): set<State> {
    match prev
    case Unknown => ALL_STATES
    case Bypassed => ALL_STATES
    case Ok => {Alarmed}
    case Alarmed => {Ok, Latched}
    case Acknowledged => {Ok, Alarmed}
    case Latched => {}
    case Unbypassed => {}
  }

  /** At unchanged severity, `Latched` and `Unbypassed` are left only by an operator, `Unknown` and
      `Bypassed` by any automated update, and every other alarm moves only between `Ok`, `Alarmed` and
      `Latched`, never to the state it is in. */
  lemma TransitionsAreSuccessors(prev: State, next: State)
    ensures TransitionAllowed(prev, next) <==> next in Successors(prev)
    ensures (forall other :: !TransitionAllowed(prev, other)) <==> prev == Latched || prev == Unbypassed
    ensures (forall other :: TransitionAllowed(prev, other)) <==> prev == Unknown || prev == Bypassed
    ensures TransitionAllowed(prev, next) && prev != Unknown && prev != Bypassed ==>
              next != prev && (next == Ok || next == Alarmed || next == Latched)
  {
    assert !TransitionAllowed(prev, Unknown) || prev == Unknown || prev == Bypassed;
    assert TransitionAllowed(Ok, Alarmed) && TransitionAllowed(Alarmed, Ok) && TransitionAllowed(Acknowledged, Ok);
    assert TransitionAllowed(Unknown, Ok) && TransitionAllowed(Bypassed, Ok);
  }

  /** A repeated update is suppressed, except that `Unknown` is published again each time, and so is a
      `Bypassed` that does not come from EPICS. */
  lemma RepeatIsPublishedIff(alarm: Status)
    ensures ShouldPublish(Some(alarm), alarm) <==>
            alarm.state == Unknown || (alarm.state == Bypassed && alarm.source != Epics)
  {}

  /** Only an `Unbypassed` update gets through the bypass of an EPICS alarm, and it always does. */
  lemma EpicsBypassGate(prev: Status, alarm: Status)
    requires prev.state == Bypassed && alarm.source == Epics
    ensures ShouldPublish(Some(prev), alarm) <==> alarm.state == Unbypassed
  {}

  /** A user action allowed on a bypassed alarm either releases it or re-bypasses it with another
      wake time; no allowed action leaves the state and wake as they were. */
  lemma AllowedActionChanges(state: State, wake: Option<Timestamp>, action: UserAction)
    requires UserActionAllowed(state, wake, action)
    ensures action.AsState() != state || (state == Bypassed && action.GetWake() != wake)
    ensures state == Bypassed ==> action.Activate? || action.Bypass?
  {}
}
