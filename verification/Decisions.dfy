/** What the coordinator decides about each input, told by the map of latest intents alone: which inputs
    become the latest intent of their key, as which status, which jobs go out and who is answered. */
module Decisions {
  import opened Types
  import opened Keys
  import opened Policy
  import opened Coordinator
  import opened Pipeline
  import opened PipelineTheorems
  import opened Intents
  import opened Callers
  import TM = TokenMachine
  import TP = TokenProofs

  function View(s: Sys): Cache {
    IntentsOf(s.coord).view
  }

  function Intent(s: Sys, k: Key): Option<Status> {
    Get(View(s), k)
  }

  /** An EPICS bypass holds back every automated update but `Unbypassed`. */
  predicate HeldBack(latest: Option<Status>, alarm: Status) {
    latest.Some? && latest.value.state == Bypassed && alarm.source == Epics && alarm.state != Unbypassed
  }

  /** The update is news: about an unknown key, of another severity, or of a state that may follow. */
  predicate IsNews(latest: Option<Status>, alarm: Status) {
    || latest.None?
    || latest.value.severity != alarm.severity
    || alarm.state in Successors(latest.value.state)
  }

  /** `status` becomes the latest intent of `k` under the next id, and is dispatched, with or without the
      user flag, unless a job for `k` is outstanding. Nothing else changes in the view. */
  ghost predicate Adopted(s: Sys, s': Sys, k: Key, status: Status, user: bool) {
    var id := s.coord.nextId;
    && View(s') == View(s)[k := Entry(status, id)]
    && s'.coord.nextId == id + 1
    && s'.coord.confirmed == s.coord.confirmed
    && (!user ==> s'.coord.pending == s.coord.pending)
    && s'.jobs == s.jobs + if k in s.coord.speculative then [] else [Job(id, k, status, user)]
  }

  ghost predicate Ignored(s: Sys, s': Sys) {
    s'.coord == s.coord && s'.jobs == s.jobs
  }

  lemma GuardIff(latest: Option<Status>, alarm: Status)
    ensures ShouldPublish(latest, alarm) <==> !HeldBack(latest, alarm) && IsNews(latest, alarm)
  {
    if latest.Some? {
      TransitionsAreSuccessors(latest.value.state, alarm.state);
    }
  }

  lemma NextIdIsFree(hydrated: map<Key, Status>, s: Sys)
    requires TP.Hydration(hydrated) && Pipeline.Reachable(hydrated, s)
    ensures s.coord.nextId !in s.coord.pending
  {
    var m, places := ReachableImplements(hydrated, s);
    assert m.coord.nextId !in m.hist.issued;
  }

  lemma IntendAdopts(s: Sys, c: Coord, s': Sys, k: Key, status: Status, user: bool)
    requires c == s.coord.(pending := c.pending) && (s.coord.nextId in c.pending <==> user)
    requires !user ==> c == s.coord
    requires s'.coord == Intend(c, k, status).coord && s'.jobs == s.jobs + Intend(c, k, status).jobs
    ensures Adopted(s, s', k, status, user)
  {
    UnionPut(s.coord.confirmed, s.coord.speculative, k, Entry(status, s.coord.nextId));
  }

  /** An automated update becomes the latest intent of its key if and only if the EPICS bypass does not hold
      it back and it is news; otherwise nothing happens. */
  lemma UpdateDecided(hydrated: map<Key, Status>, s: Sys, alarm: Status)
    requires TP.Hydration(hydrated) && Pipeline.Reachable(hydrated, s) && Pipeline.Enabled(s, TakeInput(alarm))
    ensures var s' := Pipeline.Step(s, TakeInput(alarm));
            var latest := Intent(s, KeyOf(alarm));
            if !HeldBack(latest, alarm) && IsNews(latest, alarm)
            then Adopted(s, s', KeyOf(alarm), alarm, false)
            else Ignored(s, s')
    ensures s.coord.nextId < Pipeline.Step(s, TakeInput(alarm)).coord.nextId <==>
            !HeldBack(Intent(s, KeyOf(alarm)), alarm) && IsNews(Intent(s, KeyOf(alarm)), alarm)
  {
    var s' := Pipeline.Step(s, TakeInput(alarm));
    GuardIff(Intent(s, KeyOf(alarm)), alarm);
    LatestIsView(s.coord, KeyOf(alarm));
    NextIdIsFree(hydrated, s);
    if ShouldPublish(Intent(s, KeyOf(alarm)), alarm) {
      IntendAdopts(s, s.coord, s', KeyOf(alarm), alarm, false);
    } else {
      assert s.jobs + [] == s.jobs;
    }
  }

  /** A wake is an `Unbypassed` update of its key with the present time and nothing else. */
  function WakeUpdate(k: Key, now: int): Status {
    Status(k.device, UnknownSeverity, Unbypassed, k.source, false, Some(Timestamp(now, 0)), "", "", None)
  }

  lemma WakeDecided(hydrated: map<Key, Status>, s: Sys, k: Key, now: int)
    requires TP.Hydration(hydrated) && Pipeline.Reachable(hydrated, s)
    requires Pipeline.Enabled(s, TakeOutcome(now)) && s.outcomes[0] == Wake(k)
    ensures var s' := Pipeline.Step(s, TakeOutcome(now));
            if IsNews(Intent(s, k), WakeUpdate(k, now)) then Adopted(s, s', k, WakeUpdate(k, now), false)
            else Ignored(s, s')
  {
    WakeFacts(hydrated, s, k, now);
    NextIdIsFree(hydrated, s);
    WakeStepDecided(s, k, now);
  }

  lemma WakeStepDecided(s: Sys, k: Key, now: int)
    requires Pipeline.Enabled(s, TakeOutcome(now)) && s.outcomes[0] == Wake(k)
    requires KeyOf(WakeStatus(k, now)) == k && s.coord.nextId !in s.coord.pending
    ensures var s' := Pipeline.Step(s, TakeOutcome(now));
            if IsNews(Intent(s, k), WakeUpdate(k, now)) then Adopted(s, s', k, WakeUpdate(k, now), false)
            else Ignored(s, s')
  {
    var s' := Pipeline.Step(s, TakeOutcome(now));
    assert WakeStatus(k, now) == WakeUpdate(k, now);
    GuardIff(Intent(s, k), WakeUpdate(k, now));
    LatestIsView(s.coord, k);
    if ShouldPublish(Intent(s, k), WakeUpdate(k, now)) {
      IntendAdopts(s, s.coord, s', k, WakeUpdate(k, now), false);
    } else {
      assert s.jobs + [] == s.jobs;
    }
  }

  // ---- Commands ----

  /** An alarm can be acknowledged while it is alarmed or latched, activated while it is bypassed, and
      bypassed unless it is bypassed until the same time already. */
  predicate MayCommand(latest: Option<Status>, action: UserAction) {
    match action
    case Acknowledge => latest.Some? && (latest.value.state == Alarmed || latest.value.state == Latched)
    case Activate => latest.Some? && latest.value.state == Bypassed
    case Bypass(until) => !(latest.Some? && latest.value.state == Bypassed && latest.value.wake == until)
  }

  function StateAsked(action: UserAction): State {
    match action
    case Acknowledge => Acknowledged
    case Activate => Unbypassed
    case Bypass(_) => Bypassed
  }

  /** The status that a command asks for. */
  function Asked(k: Key, action: UserAction, user: string, now: int): Status {
    Status(k.device, UnknownSeverity, StateAsked(action), k.source, false, Some(Timestamp(now, 0)), "", user,
           if action.Bypass? then action.until else None)
  }

  lemma CommandGuardIff(c: Coord, k: Key, action: UserAction)
    ensures UserAccepted(c, k, action) <==> MayCommand(Get(IntentsOf(c).view, k), action)
    ensures var latest := Get(IntentsOf(c).view, k);
            LatestState(c, k) == if latest.Some? then latest.value.state else Unknown
  {
    LatestIsView(c, k);
  }

  /** A command becomes the latest intent of its key if and only if the view allows it, and its caller waits;
      otherwise the view stays and the caller is told the present state and the one asked for. */
  lemma CommandDecided(s: Sys, k: Key, action: UserAction, user: string, caller: Confirmation, now: int)
    requires Pipeline.Enabled(s, TakeCommand(k, action, user, caller, now))
    ensures var a := TakeCommand(k, action, user, caller, now);
            var s' := Pipeline.Step(s, a);
            var latest := Intent(s, k);
            if MayCommand(latest, action) then
              && Adopted(s, s', k, Asked(k, action, user, now), true)
              && s'.coord.pending == s.coord.pending[s.coord.nextId := caller]
              && RepliesOf(s, a) == []
            else
              && Ignored(s, s')
              && RepliesOf(s, a) ==
                 [Reply(caller, Some(StateNotAllowed(k, if latest.Some? then latest.value.state else Unknown,
                                                     StateAsked(action))))]
  {
    var a := TakeCommand(k, action, user, caller, now);
    CommandGuardIff(s.coord, k, action);
    assert UserStatus(k, action, user, now) == Asked(k, action, user, now);
    if UserAccepted(s.coord, k, action) {
      var c := s.coord.(pending := s.coord.pending[s.coord.nextId := caller]);
      IntendAdopts(s, c, Pipeline.Step(s, a), k, Asked(k, action, user, now), true);
    } else {
      assert s.jobs + [] == s.jobs;
    }
  }
}
