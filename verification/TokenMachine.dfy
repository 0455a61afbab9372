/** The pipeline seen as a token machine. A key with an outstanding job holds one token; the token
    remembers the job and how far it has come. Every property of the pipeline that does not mention a
    particular channel is stated here and kept in `TokenProofs`; `Refinement` proves that the channels
    of `Pipeline` implement it. */
module TokenMachine {
  import opened Types
  import opened Keys
  import opened Policy
  import opened Coordinator
  import opened Messages
  import opened Snooze
  import opened Replay

  /** Dispatched: the scheduler has not yet seen the job. Armed: its snooze command was accepted and
      its publish is undecided. Finished: only the report to the coordinator is left. */
  datatype Phase = Dispatched | Armed | Finished(ok: bool)

  datatype Token = Token(job: Job, phase: Phase)

  /** What an id was allocated for. */
  datatype Issue = Issue(key: Key, status: Status, user: bool)

  datatype Mark = Sent(job: Job) | Done(job: Job, ok: bool)

  datatype Answer = Answer(id: nat, ok: bool)

  /** Facts about the past, recorded for the sake of the properties only. */
  datatype History = History(
    hydrated: map<Key, Status>,
    issued: map<nat, Issue>,
    done: set<nat>,
    failed: set<nat>,
    marks: seq<Mark>,
    answers: seq<Answer>,
    accepted: nat,
    committed: Cache)

  datatype TM = TM(
    coord: Coord,
    tokens: map<Key, Token>,
    timers: Timers,
    wakes: multiset<Key>,
    log: seq<Published>,
    hist: History)

  function Init(hydrated: map<Key, Status>): TM {
    TM(Start(hydrated), map[], map[], multiset{}, [],
       History(hydrated, map[], {}, {}, [], [], 0, map[]))
  }

  datatype Event =
    | Input(status: Status)
    | Command(key: Key, action: UserAction, user: string, caller: Confirmation, now: int)
    | WakeUp(key: Key, now: int)
    | Settle(key: Key)
    | Arm(key: Key, clock: Clock)
    | Attempt(key: Key, ok: bool, appended: bool, last: bool)
    | Fire(key: Key)

  predicate InPhase(m: TM, key: Key, phase: Phase) {
    key in m.tokens && m.tokens[key].phase == phase
  }

  predicate Enabled(m: TM, e: Event) {
    match e
    case Input(_) => true
    case Command(_, _, _, _, _) => true
    case WakeUp(key, _) => key in m.wakes
    case Settle(key) => InPhase(m, key, Finished(true)) || InPhase(m, key, Finished(false))
    case Arm(key, _) => InPhase(m, key, Dispatched)
    case Attempt(key, ok, appended, last) => InPhase(m, key, Armed) && (ok ==> appended && last)
    case Fire(key) => key in m.timers
  }

  /** What the adapters guarantee of their inputs: automated statuses carry no wake time, and command
      keys come from parsed text. */
  predicate Admissible(e: Event) {
    match e
    case Input(status) => status.wake.None?
    case Command(key, _, _, _, _) => Normal(key)
    case _ => true
  }

  function Launch(tokens: map<Key, Token>, jobs: seq<Job>): map<Key, Token> {
    if jobs == [] then tokens else tokens[jobs[0].key := Token(jobs[0], Dispatched)]
  }

  function MarkSent(jobs: seq<Job>): seq<Mark> {
    if jobs == [] then [] else [Sent(jobs[0])]
  }

  /** An accepted input becomes the latest intent of its key. */
  function Accept(m: TM, key: Key, status: Status, caller: Option<Confirmation>): TM {
    var id := m.coord.nextId;
    var c := if caller.Some? then m.coord.(pending := m.coord.pending[id := caller.value]) else m.coord;
    var eff := Intend(c, key, status);
    m.(coord := eff.coord,
    tokens := Launch(m.tokens, eff.jobs),
    hist := m.hist.(
    issued := m.hist.issued[id := Issue(key, status, caller.Some?)],
    marks := m.hist.marks + MarkSent(eff.jobs),
    accepted := m.hist.accepted + if caller.Some? then 1 else 0))
  }

  /** The outcome of the key's job reaches the coordinator, which may dispatch the next one. */
  function Settled(m: TM, key: Key): TM
    requires Enabled(m, Settle(key))
  {
    var Token(job, phase) := m.tokens[key];
    var ok := phase.ok;
    var eff := if ok then AfterSuccess(m.coord, job) else AfterFailure(m.coord, job);
    m.(coord := eff.coord,
    tokens := Launch(m.tokens - {key}, eff.jobs),
    hist := m.hist.(
    done := m.hist.done + {job.id},
    failed := if !ok && job.userInitiated then m.hist.failed + {job.id} else m.hist.failed,
    marks := m.hist.marks + [Done(job, ok)] + MarkSent(eff.jobs),
    answers := if job.id in m.coord.pending then m.hist.answers + [Answer(job.id, ok)] else m.hist.answers,
    committed := if ok then m.hist.committed[job.key := Entry(job.status, job.id)] else m.hist.committed))
  }

  function AfterArm(m: TM, key: Key, clock: Clock): TM
    requires Enabled(m, Arm(key, clock))
  {
    var job := m.tokens[key].job;
    var after := OnInput(m.timers, SnoozeInput(key, job.status.wake), clock);
    m.(timers := after.timers,
    tokens := m.tokens[key := Token(job, if after.outcome.Accepted? then Armed else Finished(false))])
  }

  function AfterAttempt(m: TM, key: Key, ok: bool, appended: bool, last: bool): TM
    requires Enabled(m, Attempt(key, ok, appended, last))
  {
    var job := m.tokens[key].job;
    m.(log := if appended then m.log + [Published(key, job.status)] else m.log,
    tokens := m.tokens[key := Token(job, if last then Finished(ok) else Armed)])
  }

  predicate AcceptsInput(m: TM, status: Status) {
    ShouldPublish(StatusOf(Latest(m.coord, KeyOf(status))), status)
  }

  function Step(m: TM, e: Event): TM
    requires Enabled(m, e)
  {
    match e
    case Input(status) =>
      if AcceptsInput(m, status) then Accept(m, KeyOf(status), status, None) else m
    case Command(key, action, user, caller, now) =>
      if UserAccepted(m.coord, key, action)
      then Accept(m, key, UserStatus(key, action, user, now), Some(caller))
      else m
    case WakeUp(key, now) =>
      var status := WakeStatus(key, now);
      var m1 := m.(wakes := m.wakes - multiset{key});
      if AcceptsInput(m, status) then Accept(m1, KeyOf(status), status, None) else m1
    case Settle(key) => Settled(m, key)
    case Arm(key, clock) => AfterArm(m, key, clock)
    case Attempt(key, ok, appended, last) => AfterAttempt(m, key, ok, appended, last)
    case Fire(key) => m.(timers := m.timers - {key}, wakes := m.wakes + multiset{key})
  }

  // ---- Invariants ----

  /** A status kept under key `k` has its source, and a wake time only when bypassed. */
  predicate Owned(k: Key, status: Status) {
    Normal(k) && status.source == k.source && (status.wake.Some? ==> status.state == Bypassed)
  }

  ghost predicate CacheOwned(cache: Cache) {
    forall k :: k in cache ==> Owned(k, cache[k].status)
  }

  ghost predicate AllOwned(m: TM) {
    && CacheOwned(m.coord.speculative)
    && CacheOwned(m.coord.confirmed)
    && (forall k :: k in m.tokens ==> m.tokens[k].job.key == k && Owned(k, m.tokens[k].job.status))
    && (forall k :: k in m.timers ==> Normal(k))
    && (forall k :: k in m.wakes ==> Normal(k))
    && (forall p :: p in m.log ==> Normal(p.key) && p.status.source == p.key.source)
  }

  /** One token exactly for each key with speculative state. */
  ghost predicate OneToken(m: TM) {
    m.tokens.Keys == m.coord.speculative.Keys
  }

  /** The status that id 0 stands for: the hydrated one, or the default. */
  function Baseline(h: History, k: Key): Status {
    if k in h.hydrated then h.hydrated[k] else DEFAULT_STATUS.(device := k.device, source := k.source)
  }

  /** The id of an entry determines its status, and the key it may appear under. */
  predicate Stamped(h: History, k: Key, status: Status, id: nat) {
    if id == HYDRATED_ID then status == Baseline(h, k)
    else id in h.issued && h.issued[id].key == k && h.issued[id].status == status
  }

  ghost predicate CacheStamped(h: History, cache: Cache) {
    forall k :: k in cache ==> Stamped(h, k, cache[k].status, cache[k].id)
  }

  ghost predicate AllStamped(m: TM) {
    && 1 <= m.coord.nextId
    && (forall id :: id in m.hist.issued <==> 1 <= id < m.coord.nextId)
    && CacheStamped(m.hist, m.coord.speculative)
    && CacheStamped(m.hist, m.coord.confirmed)
    && (forall k :: k in m.tokens ==> Stamped(m.hist, k, m.tokens[k].job.status, m.tokens[k].job.id))
  }

  function ConfirmedId(c: Coord, k: Key): nat {
    if k in c.confirmed then c.confirmed[k].id else HYDRATED_ID
  }

  ghost predicate Chained(m: TM) {
    forall k :: k in m.tokens && k in m.coord.speculative ==>
                  ConfirmedId(m.coord, k) <= m.tokens[k].job.id <= m.coord.speculative[k].id < m.coord.nextId
  }

  /** The pending confirmations are the accepted user ids whose outcome has not come back; a job is
      flagged as a user's exactly while its confirmation is pending. */
  ghost predicate Flagged(m: TM) {
    && (forall id :: id in m.coord.pending <==>
                       id in m.hist.issued && m.hist.issued[id].user && id !in m.hist.done)
    && (forall id :: id in m.hist.done ==> id < m.coord.nextId)
    && (forall k :: k in m.tokens ==> (m.tokens[k].job.userInitiated <==> m.tokens[k].job.id in m.coord.pending))
    && (forall k :: k in m.coord.confirmed ==> m.coord.confirmed[k].id !in m.coord.pending)
  }

  /** A user id whose outcome came back is still someone's intent only as the confirmed id of its key,
      to which a later failure has rolled back. */
  ghost predicate DoneIsConfirmed(m: TM) {
    forall k :: k in m.coord.speculative ==>
                  var id := m.coord.speculative[k].id;
                  id in m.hist.issued && m.hist.issued[id].user && id in m.hist.done ==>
                    k in m.coord.confirmed && m.coord.confirmed[k].id == id
  }

  /** The confirmed cache is the hydrated one overwritten by the last commit of each key. */
  ghost predicate ConfirmedIsCommitted(m: TM) {
    m.coord.confirmed == Start(m.hist.hydrated).confirmed + m.hist.committed
  }

  function WakeOf(cache: Cache, k: Key): Option<Timestamp> {
    if k in cache then cache[k].status.wake else None
  }

  predicate TimerAgrees(m: TM, k: Key) {
    if k !in m.tokens then
      && (k in m.timers ==> WakeOf(m.coord.confirmed, k).Some?)
      && (k in m.hist.committed && WakeOf(m.coord.confirmed, k).Some? ==> k in m.timers || k in m.wakes)
    else
      var Token(job, phase) := m.tokens[k];
      phase == Armed || phase == Finished(true) ==>
        && (k in m.timers ==> job.status.wake.Some?)
        && (job.status.wake.Some? ==>
              k in m.timers || k in m.wakes
              || (k in m.coord.speculative && m.coord.speculative[k].id != job.id))
  }

  ghost predicate TimersAgree(m: TM) {
    forall k :: TimerAgrees(m, k)
  }

  predicate LogAgrees(m: TM, k: Key) {
    && (k !in m.tokens ==>
          LastPublished(m.log, k) == if k in m.hist.committed then Some(m.hist.committed[k].status) else None)
    && (InPhase(m, k, Finished(true)) ==> LastPublished(m.log, k) == Some(m.tokens[k].job.status))
    && (k in m.hist.committed ==> Published(k, m.hist.committed[k].status) in m.log)
  }

  ghost predicate LogsAgree(m: TM) {
    forall k :: LogAgrees(m, k)
  }

  predicate WasAnswered(h: History, id: nat) {
    Answer(id, true) in h.answers || Answer(id, false) in h.answers
  }

  /** Accepted user actions are conserved: each is still pending or was answered, once. */
  ghost predicate Conserved(m: TM) {
    && m.hist.accepted == |m.hist.answers| + |m.coord.pending|
    && (forall i, j :: 0 <= i < j < |m.hist.answers| ==> m.hist.answers[i].id != m.hist.answers[j].id)
    && (forall a :: a in m.hist.answers ==>
          a.id in m.hist.done && a.id in m.hist.issued && m.hist.issued[a.id].user)
    && (forall a :: a in m.hist.answers && a.ok ==>
          a.id in m.hist.issued && Published(m.hist.issued[a.id].key, m.hist.issued[a.id].status) in m.log)
    && (forall id :: id in m.hist.done && id in m.hist.issued && m.hist.issued[id].user ==> WasAnswered(m.hist, id))
  }

  /** No id whose user job failed can be dispatched again. */
  ghost predicate FailedGone(m: TM) {
    && m.hist.failed <= m.hist.done && HYDRATED_ID !in m.hist.failed
    && (forall k :: k in m.coord.speculative ==> m.coord.speculative[k].id !in m.hist.failed)
    && (forall k :: k in m.coord.confirmed ==> m.coord.confirmed[k].id !in m.hist.failed)
    && (forall k :: k in m.tokens ==> m.tokens[k].job.id !in m.hist.failed)
  }

  predicate UserSent(mark: Mark) {
    mark.Sent? && mark.job.userInitiated
  }

  predicate UserFailed(mark: Mark) {
    mark.Done? && !mark.ok && mark.job.userInitiated
  }

  /** A job sent with the user flag is still outstanding or its outcome came back. */
  ghost predicate SentAccounted(marks: seq<Mark>, done: set<nat>, tokens: map<Key, Token>) {
    forall i :: 0 <= i < |marks| && UserSent(marks[i]) ==>
                  var job := marks[i].job;
                  job.id in done || (job.key in tokens && tokens[job.key].job == job)
  }

  /** Each user id is sent with the user flag at most once, and never again after its job failed. */
  ghost predicate NeverAgain(marks: seq<Mark>) {
    && (forall i, j :: 0 <= i < j < |marks| && UserSent(marks[i]) && UserSent(marks[j]) ==>
          marks[i].job.id != marks[j].job.id)
    && (forall i, j :: 0 <= i < j < |marks| && UserFailed(marks[i]) && marks[j].Sent? ==>
          marks[i].job.id != marks[j].job.id)
  }

  ghost predicate FailuresNoted(marks: seq<Mark>, failed: set<nat>) {
    forall i :: 0 <= i < |marks| && UserFailed(marks[i]) ==> marks[i].job.id in failed
  }

  ghost predicate Disciplined(marks: seq<Mark>, done: set<nat>, failed: set<nat>, tokens: map<Key, Token>) {
    && SentAccounted(marks, done, tokens)
    && FailuresNoted(marks, failed)
    && NeverAgain(marks)
  }

  ghost predicate Inv(m: TM) {
    && AllOwned(m)
    && OneToken(m)
    && AllStamped(m)
    && Chained(m)
    && Flagged(m)
    && DoneIsConfirmed(m)
    && ConfirmedIsCommitted(m)
    && TimersAgree(m)
    && LogsAgree(m)
    && Conserved(m)
    && FailedGone(m)
    && Disciplined(m.hist.marks, m.hist.done, m.hist.failed, m.tokens)
  }
}
