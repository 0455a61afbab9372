/** The fate of accepted user actions, those that are superseded included. The statements are about the
    token machine, which every run of the pipeline implements. */
module Confirmations {
  import opened Types
  import opened Coordinator
  import opened TokenMachine
  import opened TokenProofs
  import Replay
  import Keys

  predicate UserIssued(m: TM, id: nat) {
    id in m.hist.issued && m.hist.issued[id].user
  }

  /** Every accepted user action is still pending or was answered, and never both nor twice. */
  lemma ActionsConserved(hydrated: map<Key, Status>, m: TM)
    requires Hydration(hydrated) && Reachable(hydrated, m)
    ensures m.hist.accepted == |m.hist.answers| + |m.coord.pending|
    ensures forall id :: UserIssued(m, id) <==> id in m.coord.pending || WasAnswered(m.hist, id)
    ensures forall id :: !(id in m.coord.pending && WasAnswered(m.hist, id))
    ensures forall i, j :: 0 <= i < j < |m.hist.answers| ==> m.hist.answers[i].id != m.hist.answers[j].id
  {
    ReachableHolds(hydrated, m);
    forall id
      ensures UserIssued(m, id) <==> id in m.coord.pending || WasAnswered(m.hist, id)
      ensures !(id in m.coord.pending && WasAnswered(m.hist, id))
    {
      AnsweredIffDone(m, id);
    }
  }

  lemma AnsweredIffDone(m: TM, id: nat)
    requires Conserved(m)
    ensures WasAnswered(m.hist, id) <==> UserIssued(m, id) && id in m.hist.done
  {
    assert Answer(id, true).id == id && Answer(id, false).id == id;
  }

  /** The answers of the record are the replies the coordinator sends. */
  lemma AnswersAreReplies(m: TM, key: Key)
    requires Enabled(m, Settle(key)) && m.tokens[key].job.key == key
    ensures var Token(job, phase) := m.tokens[key];
            var eff := if phase.ok then AfterSuccess(m.coord, job) else AfterFailure(m.coord, job);
            && (job.id in m.coord.pending ==>
                  && Settled(m, key).hist.answers == m.hist.answers + [Answer(job.id, phase.ok)]
                  && eff.replies == [Reply(m.coord.pending[job.id],
                                           if phase.ok then None else Some(Internal(key)))])
            && (job.id !in m.coord.pending ==>
                  Settled(m, key).hist.answers == m.hist.answers && eff.replies == [])
  {}

  // ---- Actions that will never be answered ----

  /** A pending action that is neither dispatched nor the latest intent of any key: a newer intent
      replaced it before its turn came. */
  predicate Superseded(m: TM, id: nat) {
    && id in m.coord.pending
    && (forall k :: k in m.coord.speculative ==> m.coord.speculative[k].id != id)
    && (forall k :: k in m.tokens ==> m.tokens[k].job.id != id)
  }

  lemma SupersededAccept(m: TM, m': TM, key: Key, status: Status, user: bool, id: nat)
    requires Accepting(m, m', key, status, user) && Superseded(m, id) && id < m.coord.nextId
    ensures Superseded(m', id)
  {}

  lemma SupersededRest(m: TM, m': TM, key: Key, job: Job, id: nat)
    requires Resting(m, m', key, job) && Superseded(m, id) && key in m.tokens && m.tokens[key].job == job
    ensures Superseded(m', id)
  {}

  lemma SupersededRelaunch(m: TM, m': TM, key: Key, job: Job, ok: bool, e: Entry, id: nat)
    requires Relaunching(m, m', key, job, ok, e) && Superseded(m, id)
    requires key in m.tokens && m.tokens[key].job == job && e.id != id
    ensures Superseded(m', id)
  {}

  /** Neither the latest intent nor the confirmed entry brings a superseded action back. */
  lemma NextIsAnother(m: TM, key: Key, ok: bool, id: nat)
    requires JobFacts(m, key) && AllStamped(m) && Flagged(m) && Superseded(m, id)
    ensures NextEntry(m, key, ok).id != id
  {
    FallbackNotPending(m, key);
  }

  lemma SupersededSettle(m: TM, key: Key, id: nat)
    requires Inv(m) && Enabled(m, Settle(key)) && Superseded(m, id)
    ensures Superseded(Settled(m, key), id)
  {
    JobFactsHold(m, key);
    var job := m.tokens[key].job;
    if InPhase(m, key, Finished(false)) {
      FailShape(m, key);
      NextIsAnother(m, key, false, id);
      SupersededRelaunch(m, Settled(m, key), key, job, false, NextEntry(m, key, false), id);
    } else if m.coord.speculative[key].id == job.id {
      RestShape(m, key);
      SupersededRest(m, Settled(m, key), key, job, id);
    } else {
      RecommitShape(m, key);
      NextIsAnother(m, key, true, id);
      SupersededRelaunch(m, Settled(m, key), key, job, true, NextEntry(m, key, true), id);
    }
  }

  lemma SupersededInput(m: TM, key: Key, status: Status, caller: Option<Confirmation>, id: nat)
    requires OneToken(m) && AllStamped(m) && Flagged(m) && Superseded(m, id)
    ensures Superseded(Accept(m, key, status, caller), id)
  {
    assert id in m.hist.issued;
    AcceptShape(m, key, status, caller);
    SupersededAccept(m, Accept(m, key, status, caller), key, status, caller.Some?, id);
  }

  lemma SupersededMove(m: TM, e: Event, id: nat)
    requires Enabled(m, e) && (e.Arm? || e.Attempt? || e.Fire?) && Superseded(m, id)
    ensures Superseded(Step(m, e), id)
  {}

  lemma SupersededWake(m: TM, key: Key, now: int, id: nat)
    requires OneToken(m) && AllStamped(m) && Flagged(m) && Enabled(m, WakeUp(key, now)) && Superseded(m, id)
    ensures Superseded(Step(m, WakeUp(key, now)), id)
  {
    var m1 := m.(wakes := m.wakes - multiset{key});
    var status := WakeStatus(key, now);
    if AcceptsInput(m, status) {
      SupersededInput(m1, Keys.KeyOf(status), status, None, id);
    }
  }

  lemma SupersededStep(m: TM, e: Event, id: nat)
    requires Inv(m) && Enabled(m, e) && Superseded(m, id)
    ensures Superseded(Step(m, e), id)
  {
    match e
    case Input(status) => SupersededInput(m, Keys.KeyOf(status), status, None, id);
    case Command(key, action, user, caller, now) =>
      SupersededInput(m, key, UserStatus(key, action, user, now), Some(caller), id);
    case WakeUp(key, now) => SupersededWake(m, key, now, id);
    case Settle(key) => SupersededSettle(m, key, id);
    case _ => SupersededMove(m, e, id);
  }

  /** Such an action is never dispatched and never answered, however long the service runs. */
  lemma {:induction false} SupersededForever(m: TM, events: seq<Event>, m': TM, id: nat)
    requires Inv(m) && Runs(m, events, m') && Superseded(m, id)
    ensures Superseded(m', id) && !WasAnswered(m'.hist, id)
    decreases |events|
  {
    if events == [] {
      AnsweredIffDone(m, id);
    } else {
      SupersededStep(m, events[0], id);
      StepKeeps(m, events[0]);
      SupersededForever(Step(m, events[0]), events[1..], m', id);
    }
  }

  // ---- What supersedes an action ----

  /** The key whose latest intent the event replaces. */
  function AcceptedBy(m: TM, e: Event): Option<Key>
    requires Enabled(m, e)
  {
    match e
    case Input(status) => if AcceptsInput(m, status) then Some(Keys.KeyOf(status)) else None
    case Command(key, action, _, _, _) => if UserAccepted(m.coord, key, action) then Some(key) else None
    case WakeUp(key, now) => if AcceptsInput(m, WakeStatus(key, now)) then Some(key) else None
    case _ => None
  }

  /** The event replaces the latest intent `id` of `k` before it was dispatched. */
  predicate TakesPlace(m: TM, e: Event, k: Key, id: nat)
    requires Enabled(m, e)
  {
    && AcceptedBy(m, e) == Some(k) && k in m.coord.speculative && m.coord.speculative[k].id == id
    && (k in m.tokens ==> m.tokens[k].job.id != id)
  }

  /** Action `id`, which is for `k`, is dispatched or the latest intent. */
  predicate Live(m: TM, k: Key, id: nat) {
    || (k in m.tokens && m.tokens[k].job.id == id)
    || (k in m.coord.speculative && m.coord.speculative[k].id == id)
  }

  lemma LiveIff(m: TM, id: nat)
    requires AllStamped(m) && Flagged(m) && id in m.coord.pending
    ensures id in m.hist.issued && id != HYDRATED_ID && id < m.coord.nextId
    ensures Superseded(m, id) <==> !Live(m, m.hist.issued[id].key, id)
  {
    UserIdIsPrivate(m, m.hist.issued[id].key, id);
  }

  lemma AcceptLive(m: TM, m': TM, key: Key, status: Status, user: bool, k: Key, id: nat)
    requires Accepting(m, m', key, status, user) && OneToken(m) && id < m.coord.nextId
    ensures Live(m', k, id) <==>
            Live(m, k, id) && !(k == key && k in m.coord.speculative && m.coord.speculative[k].id == id
                                && (k in m.tokens ==> m.tokens[k].job.id != id))
  {
    assert key in m.tokens.Keys <==> key in m.coord.speculative.Keys;
  }

  lemma RestLive(m: TM, m': TM, key: Key, k: Key, id: nat)
    requires key in m.tokens && Resting(m, m', key, m.tokens[key].job)
    requires key in m.coord.speculative && m.coord.speculative[key].id == m.tokens[key].job.id
    requires Live(m, k, id) && id in m'.coord.pending
    ensures Live(m', k, id)
  {}

  lemma RelaunchLive(m: TM, m': TM, key: Key, ok: bool, e: Entry, k: Key, id: nat)
    requires key in m.tokens && Relaunching(m, m', key, m.tokens[key].job, ok, e)
    requires key in m.coord.speculative
    requires e == m.coord.speculative[key] || m.coord.speculative[key].id == m.tokens[key].job.id
    requires Live(m, k, id) && id in m'.coord.pending
    ensures Live(m', k, id)
  {}

  lemma SettleLive(m: TM, key: Key, k: Key, id: nat)
    requires Inv(m) && Enabled(m, Settle(key)) && Live(m, k, id) && id in Settled(m, key).coord.pending
    ensures Live(Settled(m, key), k, id)
  {
    JobFactsHold(m, key);
    if InPhase(m, key, Finished(false)) {
      FailShape(m, key);
      RelaunchLive(m, Settled(m, key), key, false, NextEntry(m, key, false), k, id);
    } else if m.coord.speculative[key].id == m.tokens[key].job.id {
      RestShape(m, key);
      RestLive(m, Settled(m, key), key, k, id);
    } else {
      RecommitShape(m, key);
      RelaunchLive(m, Settled(m, key), key, true, m.coord.speculative[key], k, id);
    }
  }

  /** The outcome of a job supersedes nothing. */
  lemma SettleSupersedes(m: TM, key: Key, id: nat)
    requires Inv(m) && Enabled(m, Settle(key)) && id in m.coord.pending && !Superseded(m, id)
    ensures !Superseded(Settled(m, key), id)
  {
    LiveIff(m, id);
    if id in Settled(m, key).coord.pending {
      SettleLive(m, key, m.hist.issued[id].key, id);
    }
  }

  lemma MoveSupersedes(m: TM, e: Event, id: nat)
    requires Enabled(m, e) && (e.Arm? || e.Attempt? || e.Fire?) && id in m.coord.pending && !Superseded(m, id)
    ensures !Superseded(Step(m, e), id)
  {
    var m' := Step(m, e);
    if k :| k in m.tokens && m.tokens[k].job.id == id {
      assert k in m'.tokens && m'.tokens[k].job.id == id;
    }
  }

  lemma AcceptSupersedes(m: TM, m': TM, key: Key, status: Status, user: bool, id: nat)
    requires Accepting(m, m', key, status, user) && OneToken(m) && AllStamped(m) && Flagged(m) && Flagged(m')
    requires AllStamped(m') && id in m.coord.pending && !Superseded(m, id)
    ensures id in m.hist.issued
    ensures var k := m.hist.issued[id].key;
            Superseded(m', id) <==> k == key && k in m.coord.speculative && m.coord.speculative[k].id == id
                                    && (k in m.tokens ==> m.tokens[k].job.id != id)
  {
    LiveIff(m, id);
    LiveIff(m', id);
    AcceptLive(m, m', key, status, user, m.hist.issued[id].key, id);
  }

  lemma AcceptEventSupersedes(m: TM, m1: TM, key: Key, status: Status, caller: Option<Confirmation>, id: nat)
    requires OneToken(m) && AllStamped(m) && Flagged(m) && id in m.coord.pending && !Superseded(m, id)
    requires m1 == m.(wakes := m1.wakes)
    ensures id in m.hist.issued
    ensures var k := m.hist.issued[id].key;
            Superseded(Accept(m1, key, status, caller), id) <==>
            k == key && k in m.coord.speculative && m.coord.speculative[k].id == id
            && (k in m.tokens ==> m.tokens[k].job.id != id)
  {
    var m' := Accept(m1, key, status, caller);
    AcceptShape(m1, key, status, caller);
    AcceptStamped(m1, m', key, status, caller.Some?);
    AcceptFlagged(m1, m', key, status, caller.Some?);
    AcceptSupersedes(m1, m', key, status, caller.Some?, id);
  }

  lemma InputSupersedes(m: TM, status: Status, id: nat)
    requires OneToken(m) && AllStamped(m) && Flagged(m) && id in m.coord.pending && !Superseded(m, id)
    ensures id in m.hist.issued
    ensures Superseded(Step(m, Input(status)), id) <==> TakesPlace(m, Input(status), m.hist.issued[id].key, id)
  {
    AcceptEventSupersedes(m, m, Keys.KeyOf(status), status, None, id);
  }

  lemma CommandSupersedes(m: TM, e: Event, id: nat)
    requires OneToken(m) && AllStamped(m) && Flagged(m) && id in m.coord.pending && !Superseded(m, id)
    requires e.Command?
    ensures id in m.hist.issued
    ensures Superseded(Step(m, e), id) <==> TakesPlace(m, e, m.hist.issued[id].key, id)
  {
    AcceptEventSupersedes(m, m, e.key, UserStatus(e.key, e.action, e.user, e.now), Some(e.caller), id);
  }

  lemma WakeSupersedes(m: TM, key: Key, now: int, id: nat)
    requires AllOwned(m) && OneToken(m) && AllStamped(m) && Flagged(m)
    requires Enabled(m, WakeUp(key, now)) && id in m.coord.pending && !Superseded(m, id)
    ensures id in m.hist.issued
    ensures Superseded(Step(m, WakeUp(key, now)), id) <==> TakesPlace(m, WakeUp(key, now), m.hist.issued[id].key, id)
  {
    WakeShape(m, key, now);
    AcceptEventSupersedes(m, m.(wakes := m.wakes - multiset{key}), key, WakeStatus(key, now), None, id);
  }

  /** A pending action is newly superseded exactly by an event that replaces it as the latest intent of
      its key before it was dispatched. */
  lemma SupersededIff(m: TM, e: Event, id: nat)
    requires Inv(m) && Enabled(m, e) && id in m.coord.pending && !Superseded(m, id)
    ensures id in m.hist.issued
    ensures Superseded(Step(m, e), id) <==> TakesPlace(m, e, m.hist.issued[id].key, id)
  {
    assert id in m.hist.issued;
    match e
    case Input(status) => InputSupersedes(m, status, id);
    case Command(_, _, _, _, _) => CommandSupersedes(m, e, id);
    case WakeUp(key, now) => WakeSupersedes(m, key, now, id);
    case Settle(key) => SettleSupersedes(m, key, id);
    case _ => MoveSupersedes(m, e, id);
  }

  // ---- What the coordinator falls back to ----

  lemma SameIdSameStatus(m: TM, key: Key)
    requires JobFacts(m, key) && AllStamped(m)
    ensures m.coord.speculative[key].id == m.tokens[key].job.id ==>
              m.coord.speculative[key].status == m.tokens[key].job.status
  {
    assert Stamped(m.hist, key, m.coord.speculative[key].status, m.coord.speculative[key].id);
  }

  lemma FallbackNotPending(m: TM, key: Key)
    requires AllStamped(m) && Flagged(m)
    ensures Fallback(m.coord, key).id == ConfirmedId(m.coord, key)
    ensures Fallback(m.coord, key).id !in m.coord.pending
  {
    assert HYDRATED_ID !in m.hist.issued;
  }

  /** A user id goes out unflagged only as the confirmed entry of its key. */
  lemma SecondDispatch(m: TM, key: Key)
    requires Inv(m) && Enabled(m, Settle(key))
    requires key in Settled(m, key).tokens
    ensures var next := Settled(m, key).tokens[key].job;
            UserIssued(m, next.id) && !next.userInitiated ==>
              InPhase(m, key, Finished(false)) &&
              key in m.coord.confirmed && m.coord.confirmed[key] == Entry(next.status, next.id)
  {
    JobFactsHold(m, key);
    if InPhase(m, key, Finished(false)) {
      FailShape(m, key);
      NextEntryDone(m, key, false);
      NextEntryFacts(m, key, false);
    } else if m.coord.speculative[key].id == m.tokens[key].job.id {
      RestShape(m, key);
    } else {
      RecommitShape(m, key);
      NextEntryDone(m, key, true);
    }
  }
}
