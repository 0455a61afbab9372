/** The callers of user commands over whole runs of the pipeline: each brings its own reply channel, and
    gets at most one answer on it. */
module Callers {
  import opened Types
  import opened Policy
  import opened Coordinator
  import opened Pipeline
  import opened Places
  import opened Refinement
  import opened PipelineTheorems
  import opened Intents
  import opened Keys
  import Replay
  import TM = TokenMachine
  import TP = TokenProofs
  import Confirmations

  /** What a caller asked for: the status that its command would give the key. */
  datatype Request = Request(key: Key, status: Status)

  /** The commands taken so far, by caller, and the replies sent so far. */
  datatype Ledger = Ledger(asked: map<Confirmation, Request>, replies: seq<Reply>)

  function RepliesOf(s: Sys, a: Action): seq<Reply>
    requires Pipeline.Enabled(s, a)
  {
    match a
    case TakeCommand(key, action, user, caller, now) => AfterUser(s.coord, key, action, user, caller, now).replies
    case TakeOutcome(now) => AfterOutcome(s.coord, s.outcomes[0], now).replies
    case _ => []
  }

  function Recorded(l: Ledger, s: Sys, a: Action): Ledger
    requires Pipeline.Enabled(s, a)
  {
    Ledger(if a.TakeCommand?
           then l.asked[a.caller := Request(a.key, UserStatus(a.key, a.action, a.user, a.now))] else l.asked,
           l.replies + RepliesOf(s, a))
  }

  predicate Fresh(l: Ledger, a: Action) {
    a.TakeCommand? ==> a.caller !in l.asked
  }

  /** A run of the pipeline in which no two commands share a reply channel, with its ledger. */
  ghost predicate RunsWith(s: Sys, l: Ledger, actions: seq<Action>, s': Sys, l': Ledger)
    decreases |actions|
  {
    if actions == [] then s' == s && l' == l
    else
      var a := actions[0];
      && Pipeline.Enabled(s, a) && Pipeline.Admissible(a) && Fresh(l, a)
      && RunsWith(Pipeline.Step(s, a), Recorded(l, s, a), actions[1..], s', l')
  }

  predicate Waiting(pending: map<nat, Confirmation>, c: Confirmation) {
    exists id :: id in pending && pending[id] == c
  }

  predicate Answered(replies: seq<Reply>, c: Confirmation) {
    exists i :: 0 <= i < |replies| && replies[i].to == c
  }

  /** The reply fits the request: success only for a status that is in the topic, and errors that name
      the key and the state asked for. */
  ghost predicate Fits(reply: Reply, request: Request, log: seq<Replay.Published>) {
    match reply.error
    case None => Replay.Published(request.key, request.status) in log
    case Some(Internal(key)) => key == request.key
    case Some(StateNotAllowed(key, _, requested)) => key == request.key && requested == request.status.state
  }

  /** Everyone who asked is waiting or answered, not both; nobody is answered twice. */
  ghost predicate Balanced(pending: map<nat, Confirmation>, l: Ledger) {
    && (forall i, j :: i in pending && j in pending && pending[i] == pending[j] ==> i == j)
    && (forall c :: c in l.asked <==> Waiting(pending, c) || Answered(l.replies, c))
    && (forall c :: !(Waiting(pending, c) && Answered(l.replies, c)))
    && (forall i, j :: 0 <= i < j < |l.replies| ==> l.replies[i].to != l.replies[j].to)
    && |l.asked| == |pending| + |l.replies|
  }

  ghost predicate Honest(pending: map<nat, Confirmation>, issued: map<nat, TM.Issue>, l: Ledger,
                         log: seq<Replay.Published>) {
    && (forall id :: id in pending ==>
          id in issued && pending[id] in l.asked
          && l.asked[pending[id]] == Request(issued[id].key, issued[id].status))
    && (forall i :: 0 <= i < |l.replies| ==>
          l.replies[i].to in l.asked && Fits(l.replies[i], l.asked[l.replies[i].to], log))
  }

  // ---- What the coordinator can do to the books ----

  lemma AnsweredMore(replies: seq<Reply>, r: Reply, c: Confirmation)
    ensures Answered(replies + [r], c) <==> Answered(replies, c) || r.to == c
  {
    if Answered(replies, c) {
      var i :| 0 <= i < |replies| && replies[i].to == c;
      assert (replies + [r])[i].to == c;
    }
    assert (replies + [r])[|replies|] == r;
  }

  lemma WaitingMore(pending: map<nat, Confirmation>, id: nat, caller: Confirmation, c: Confirmation)
    requires id !in pending
    ensures Waiting(pending[id := caller], c) <==> Waiting(pending, c) || c == caller
  {
    var after := pending[id := caller];
    assert after[id] == caller;
    if i :| i in pending && pending[i] == c {
      assert after[i] == c;
    }
  }

  lemma WaitingLess(pending: map<nat, Confirmation>, id: nat, c: Confirmation)
    requires id in pending
    requires forall i, j :: i in pending && j in pending && pending[i] == pending[j] ==> i == j
    ensures Waiting(pending - {id}, c) <==> Waiting(pending, c) && c != pending[id]
  {
    if i :| i in pending && pending[i] == c {
      assert i != id ==> i in pending - {id} && (pending - {id})[i] == c;
    }
    if i :| i in pending - {id} && (pending - {id})[i] == c {
      assert pending[i] == c;
    }
  }

  lemma AskedMore(asked: map<Confirmation, Request>, c: Confirmation, r: Request)
    requires c !in asked
    ensures |asked[c := r]| == |asked| + 1
  {}

  lemma AcceptBalances(pending: map<nat, Confirmation>, l: Ledger, id: nat, caller: Confirmation, request: Request)
    requires Balanced(pending, l) && id !in pending && caller !in l.asked
    ensures Balanced(pending[id := caller], Ledger(l.asked[caller := request], l.replies))
  {
    AskedMore(l.asked, caller, request);
    TP.PendingMore(pending, id, caller);
    forall c
      ensures Waiting(pending[id := caller], c) <==> Waiting(pending, c) || c == caller
    {
      WaitingMore(pending, id, caller, c);
    }
    forall i | i in pending
      ensures pending[i] != caller
    {
      assert Waiting(pending, pending[i]);
    }
  }

  lemma RejectBalances(pending: map<nat, Confirmation>, l: Ledger, caller: Confirmation, request: Request, r: Reply)
    requires Balanced(pending, l) && caller !in l.asked && r.to == caller
    ensures Balanced(pending, Ledger(l.asked[caller := request], l.replies + [r]))
  {
    AskedMore(l.asked, caller, request);
    forall c
      ensures Answered(l.replies + [r], c) <==> Answered(l.replies, c) || r.to == c
    {
      AnsweredMore(l.replies, r, c);
    }
    forall i | 0 <= i < |l.replies|
      ensures l.replies[i].to != caller
    {
      assert Answered(l.replies, l.replies[i].to);
    }
  }

  lemma AnswerBalances(pending: map<nat, Confirmation>, l: Ledger, id: nat, r: Reply)
    requires Balanced(pending, l) && id in pending && r.to == pending[id]
    ensures Balanced(pending - {id}, l.(replies := l.replies + [r]))
  {
    TP.PendingLess(pending, id);
    forall c
      ensures Answered(l.replies + [r], c) <==> Answered(l.replies, c) || r.to == c
      ensures Waiting(pending - {id}, c) <==> Waiting(pending, c) && c != r.to
    {
      AnsweredMore(l.replies, r, c);
      WaitingLess(pending, id, c);
    }
    assert Waiting(pending, r.to);
    forall i | 0 <= i < |l.replies|
      ensures l.replies[i].to != r.to
    {
      assert Answered(l.replies, l.replies[i].to);
    }
  }

  ghost predicate Extends(issued: map<nat, TM.Issue>, issued': map<nat, TM.Issue>) {
    forall id :: id in issued ==> id in issued' && issued'[id] == issued[id]
  }

  lemma HonestGrows(pending: map<nat, Confirmation>, issued: map<nat, TM.Issue>, issued': map<nat, TM.Issue>,
                    l: Ledger, log: seq<Replay.Published>, log': seq<Replay.Published>)
    requires Honest(pending, issued, l, log)
    requires Extends(issued, issued')
    requires forall p :: p in log ==> p in log'
    ensures Honest(pending, issued', l, log')
  {
    forall i | 0 <= i < |l.replies|
      ensures Fits(l.replies[i], l.asked[l.replies[i].to], log')
    {
      assert Fits(l.replies[i], l.asked[l.replies[i].to], log);
    }
  }

  lemma AcceptHonest(pending: map<nat, Confirmation>, issued: map<nat, TM.Issue>, l: Ledger,
                     log: seq<Replay.Published>, id: nat, caller: Confirmation, issue: TM.Issue)
    requires Honest(pending, issued, l, log) && id !in issued && caller !in l.asked
    ensures Honest(pending[id := caller], issued[id := issue],
                   Ledger(l.asked[caller := Request(issue.key, issue.status)], l.replies), log)
  {}

  lemma RejectHonest(pending: map<nat, Confirmation>, issued: map<nat, TM.Issue>, l: Ledger,
                     log: seq<Replay.Published>, request: Request, r: Reply)
    requires Honest(pending, issued, l, log) && r.to !in l.asked && Fits(r, request, log)
    ensures Honest(pending, issued, Ledger(l.asked[r.to := request], l.replies + [r]), log)
  {}

  lemma AnswerHonest(pending: map<nat, Confirmation>, issued: map<nat, TM.Issue>, l: Ledger,
                     log: seq<Replay.Published>, id: nat, r: Reply)
    requires Honest(pending, issued, l, log) && id in pending && r.to == pending[id]
    requires Fits(r, Request(issued[id].key, issued[id].status), log)
    ensures Honest(pending - {id}, issued, l.(replies := l.replies + [r]), log)
  {}

  ghost predicate Books(s: Sys, m: TM.TM, l: Ledger) {
    Balanced(s.coord.pending, l) && Honest(s.coord.pending, m.hist.issued, l, s.log)
  }

  // ---- Steps and runs ----

  /** What the pending confirmations and the topic need to know of the token machine. */
  ghost predicate Grounded(s: Sys, m: TM.TM) {
    && s.coord == m.coord && s.log == m.log
    && s.coord.nextId !in m.hist.issued
    && (forall id :: id in s.coord.pending ==> id in m.hist.issued)
  }

  lemma LinkGrounds(s: Sys, m: TM.TM, places: map<Key, Place>)
    requires Link(s, m, places) && TM.AllStamped(m) && TM.Flagged(m)
    ensures Grounded(s, m)
  {}

  lemma CommandBooks(s: Sys, m: TM.TM, a: Action, l: Ledger)
    requires Grounded(s, m) && Books(s, m, l) && Pipeline.Enabled(s, a) && a.TakeCommand? && Fresh(l, a)
    ensures TM.Enabled(m, TM.Command(a.key, a.action, a.user, a.caller, a.now))
    ensures Books(Pipeline.Step(s, a), TM.Step(m, TM.Command(a.key, a.action, a.user, a.caller, a.now)),
                  Recorded(l, s, a))
  {
    var status := UserStatus(a.key, a.action, a.user, a.now);
    if UserAccepted(s.coord, a.key, a.action) {
      var id := s.coord.nextId;
      assert l.replies + [] == l.replies;
      AcceptBalances(s.coord.pending, l, id, a.caller, Request(a.key, status));
      AcceptHonest(s.coord.pending, m.hist.issued, l, s.log, id, a.caller, TM.Issue(a.key, status, true));
    } else {
      var r := Reply(a.caller, Some(StateNotAllowed(a.key, LatestState(s.coord, a.key), a.action.AsState())));
      RejectBalances(s.coord.pending, l, a.caller, Request(a.key, status), r);
      RejectHonest(s.coord.pending, m.hist.issued, l, s.log, Request(a.key, status), r);
    }
  }

  lemma SettleReplies(c: Coord, job: Job, ok: bool)
    ensures var eff := if ok then AfterSuccess(c, job) else AfterFailure(c, job);
            && eff.coord.pending == c.pending - {job.id}
            && eff.replies == Answer(c, job.id, if ok then None else Some(Internal(job.key)))
  {}

  lemma SettleFits(m: TM.TM, job: Job, ok: bool, r: Reply)
    requires TM.InPhase(m, job.key, TM.Finished(ok)) && m.tokens[job.key].job == job
    requires TP.JobFacts(m, job.key) && job.id in m.coord.pending
    requires r.error == if ok then None else Some(Internal(job.key))
    ensures job.id in m.hist.issued
    ensures Fits(r, Request(m.hist.issued[job.id].key, m.hist.issued[job.id].status), m.log)
  {
    if ok {
      TP.PublishedIsLogged(m.log, job.key, job.status);
    }
  }

  lemma AnsweredBooks(s: Sys, m: TM.TM, l: Ledger, job: Job, ok: bool)
    requires s.coord == m.coord && s.log == m.log && Books(s, m, l)
    requires TM.InPhase(m, job.key, TM.Finished(ok)) && m.tokens[job.key].job == job
    requires TP.JobFacts(m, job.key) && job.id in s.coord.pending
    ensures var r := Reply(s.coord.pending[job.id], if ok then None else Some(Internal(job.key)));
            var l' := l.(replies := l.replies + [r]);
            && Balanced(s.coord.pending - {job.id}, l')
            && Honest(s.coord.pending - {job.id}, m.hist.issued, l', s.log)
  {
    var r := Reply(s.coord.pending[job.id], if ok then None else Some(Internal(job.key)));
    AnswerBalances(s.coord.pending, l, job.id, r);
    assert Fits(r, Request(m.hist.issued[job.id].key, m.hist.issued[job.id].status), s.log) by {
      SettleFits(m, job, ok, r);
    }
    AnswerHonest(s.coord.pending, m.hist.issued, l, s.log, job.id, r);
  }

  /** The confirmation of a settled job, if there is one, goes out once, and as success only when the
      status asked for has been published. */
  lemma SettleBooks(s: Sys, m: TM.TM, l: Ledger, job: Job, ok: bool)
    requires s.coord == m.coord && s.log == m.log && Books(s, m, l)
    requires TM.InPhase(m, job.key, TM.Finished(ok)) && m.tokens[job.key].job == job
    requires TP.JobFacts(m, job.key)
    ensures var replies := Answer(s.coord, job.id, if ok then None else Some(Internal(job.key)));
            var l' := l.(replies := l.replies + replies);
            && Balanced(s.coord.pending - {job.id}, l')
            && Honest(s.coord.pending - {job.id}, m.hist.issued, l', s.log)
  {
    if job.id in s.coord.pending {
      AnsweredBooks(s, m, l, job, ok);
    } else {
      assert s.coord.pending - {job.id} == s.coord.pending;
      assert l.replies + [] == l.replies;
    }
  }

  lemma OutcomeBooks(s: Sys, m: TM.TM, places: map<Key, Place>, l: Ledger, job: Job, ok: bool, now: int)
    requires Implements(s, m, places) && Books(s, m, l) && Pipeline.Enabled(s, TakeOutcome(now))
    requires s.outcomes[0] == (if ok then Committed(job) else Failed(job))
    ensures TM.Enabled(m, TM.Settle(job.key))
    ensures Books(Pipeline.Step(s, TakeOutcome(now)), TM.Step(m, TM.Settle(job.key)),
                  Recorded(l, s, TakeOutcome(now)))
  {
    DropLinks(s, m, places, job, ok);
    TP.JobFactsHold(m, job.key);
    SettleBooks(s, m, l, job, ok);
    SettleReplies(s.coord, job, ok);
  }

  lemma InputIssues(m: TM.TM, status: Status)
    requires m.coord.nextId !in m.hist.issued
    ensures Extends(m.hist.issued, TM.Step(m, TM.Input(status)).hist.issued)
  {}

  lemma WakeIssues(m: TM.TM, key: Key, now: int)
    requires m.coord.nextId !in m.hist.issued && TM.Enabled(m, TM.WakeUp(key, now))
    ensures Extends(m.hist.issued, TM.Step(m, TM.WakeUp(key, now)).hist.issued)
  {}

  lemma OtherIssues(s: Sys, m: TM.TM, a: Action)
    requires Grounded(s, m) && Pipeline.Enabled(s, a)
    requires !a.TakeCommand? && (a.TakeOutcome? ==> s.outcomes[0].Wake?)
    requires Meaning(s, a).Some? ==> TM.Enabled(m, Meaning(s, a).value)
    ensures Extends(m.hist.issued, After(m, Meaning(s, a)).hist.issued)
  {
    match a
    case TakeInput(status) => InputIssues(m, status);
    case TakeOutcome(now) => WakeIssues(m, s.outcomes[0].key, now);
    case _ =>
  }

  lemma OtherPending(s: Sys, a: Action)
    requires Pipeline.Enabled(s, a) && !a.TakeCommand? && (a.TakeOutcome? ==> s.outcomes[0].Wake?)
    ensures Pipeline.Step(s, a).coord.pending == s.coord.pending
    ensures RepliesOf(s, a) == []
    ensures forall p :: p in s.log ==> p in Pipeline.Step(s, a).log
  {}

  /** Inputs and wakes allocate ids; the other tasks may append to the topic. Neither answers anyone. */
  lemma OtherBooks(s: Sys, m: TM.TM, a: Action, l: Ledger)
    requires Grounded(s, m) && Books(s, m, l) && Pipeline.Enabled(s, a)
    requires !a.TakeCommand? && (a.TakeOutcome? ==> s.outcomes[0].Wake?)
    requires Meaning(s, a).Some? ==> TM.Enabled(m, Meaning(s, a).value)
    ensures Books(Pipeline.Step(s, a), After(m, Meaning(s, a)), Recorded(l, s, a))
  {
    var (s', m') := (Pipeline.Step(s, a), After(m, Meaning(s, a)));
    assert l.replies + [] == l.replies;
    OtherIssues(s, m, a);
    OtherPending(s, a);
    HonestGrows(s.coord.pending, m.hist.issued, m'.hist.issued, l, s.log, s'.log);
  }

  lemma StepBooks(s: Sys, m: TM.TM, places: map<Key, Place>, a: Action, l: Ledger)
    requires Implements(s, m, places) && Books(s, m, l) && Pipeline.Enabled(s, a) && Fresh(l, a)
    requires Meaning(s, a).Some? ==> TM.Enabled(m, Meaning(s, a).value)
    ensures Books(Pipeline.Step(s, a), After(m, Meaning(s, a)), Recorded(l, s, a))
  {
    LinkGrounds(s, m, places);
    if a.TakeCommand? {
      CommandBooks(s, m, a, l);
    } else if a.TakeOutcome? && s.outcomes[0].Committed? {
      OutcomeBooks(s, m, places, l, s.outcomes[0].job, true, a.now);
    } else if a.TakeOutcome? && s.outcomes[0].Failed? {
      OutcomeBooks(s, m, places, l, s.outcomes[0].job, false, a.now);
    } else {
      OtherBooks(s, m, a, l);
    }
  }

  lemma {:induction false} RunBooks(s: Sys, m: TM.TM, places: map<Key, Place>, l: Ledger, actions: seq<Action>,
                                    s': Sys, l': Ledger)
    returns (m': TM.TM, places': map<Key, Place>)
    requires Implements(s, m, places) && Books(s, m, l) && RunsWith(s, l, actions, s', l')
    ensures Implements(s', m', places') && Books(s', m', l')
    decreases |actions|
  {
    if actions == [] {
      m', places' := m, places;
    } else {
      var a := actions[0];
      var places1 := StepImplements(s, m, places, a);
      StepBooks(s, m, places, a, l);
      m', places' := RunBooks(Pipeline.Step(s, a), After(m, Meaning(s, a)), places1, Recorded(l, s, a),
                               actions[1..], s', l');
    }
  }

  const BLANK := Ledger(map[], [])

  /** Over every run of the pipeline, callers are conserved: whoever sent a command is waiting or was
      answered exactly once; success is reported only when the very status asked for has been published
      under the key asked for, and an error names that key. */
  lemma CallersConserved(hydrated: map<Key, Status>, actions: seq<Action>, s: Sys, l: Ledger)
    requires TP.Hydration(hydrated) && RunsWith(Pipeline.Init(hydrated), BLANK, actions, s, l)
    ensures Balanced(s.coord.pending, l)
    ensures forall i :: 0 <= i < |l.replies| ==>
                          l.replies[i].to in l.asked && Fits(l.replies[i], l.asked[l.replies[i].to], s.log)
  {
    var m, places := LedgerRun(hydrated, actions, s, l);
  }

  /** The action of a pending caller is the latest intent of the key the caller asked for. */
  predicate IsCurrent(s: Sys, l: Ledger, id: nat)
    requires id in s.coord.pending && s.coord.pending[id] in l.asked
  {
    var k := l.asked[s.coord.pending[id]].key;
    k in s.coord.speculative && s.coord.speculative[k].id == id
  }

  lemma CurrentIffLatest(s: Sys, m: TM.TM, places: map<Key, Place>, l: Ledger, id: nat)
    requires Link(s, m, places) && TM.AllStamped(m) && TM.Flagged(m) && Books(s, m, l) && id in s.coord.pending
    ensures s.coord.pending[id] in l.asked
    ensures IsCurrent(s, l, id) <==> IsLatestIntent(s.coord.speculative, id)
    ensures forall k :: k in s.coord.speculative && s.coord.speculative[k].id == id ==>
                          k == l.asked[s.coord.pending[id]].key
  {
    assert id in m.hist.issued && id != HYDRATED_ID;
    forall k | k in s.coord.speculative && s.coord.speculative[k].id == id
      ensures k == m.hist.issued[id].key
    {
      assert TM.Stamped(m.hist, k, s.coord.speculative[k].status, s.coord.speculative[k].id);
    }
  }

  /** The coordinator answers a pending caller if and only if its action is the latest intent of the key
      it asked for, and the error names that key. */
  ghost predicate AnswersCurrent(s: Sys, l: Ledger, answers: map<nat, Reply>, id: nat) {
    id in s.coord.pending ==>
      var caller := s.coord.pending[id];
      && caller in l.asked
      && (id in answers <==> IsCurrent(s, l, id))
      && (id in answers ==> answers[id] == Reply(caller, Some(Internal(l.asked[caller].key))))
  }

  /** When the coordinator shuts down after any run, `FailAllConfirmations` answers exactly the pending
      callers whose action is current. An abandoned caller is dropped without an answer. */
  lemma ShutdownAnswers(hydrated: map<Key, Status>, actions: seq<Action>, s: Sys, l: Ledger, answers: map<nat, Reply>,
                        id: nat)
    requires TP.Hydration(hydrated) && RunsWith(Pipeline.Init(hydrated), BLANK, actions, s, l)
    requires FailsAll(s.coord.speculative, s.coord.pending, answers)
    ensures AnswersCurrent(s, l, answers, id)
    ensures id in answers ==> id in s.coord.pending && !Abandoned(s, id)
  {
    var m, places := LedgerRun(hydrated, actions, s, l);
    if id in s.coord.pending {
      CurrentIffLatest(s, m, places, l, id);
      FailsCurrent(s, l, answers, id);
    }
  }

  lemma FailsCurrent(s: Sys, l: Ledger, answers: map<nat, Reply>, id: nat)
    requires FailsAll(s.coord.speculative, s.coord.pending, answers)
    requires id in s.coord.pending && s.coord.pending[id] in l.asked
    requires IsCurrent(s, l, id) <==> IsLatestIntent(s.coord.speculative, id)
    requires forall k :: k in s.coord.speculative && s.coord.speculative[k].id == id ==>
                           k == l.asked[s.coord.pending[id]].key
    ensures AnswersCurrent(s, l, answers, id)
  {}

  lemma LedgerRun(hydrated: map<Key, Status>, actions: seq<Action>, s: Sys, l: Ledger)
    returns (m: TM.TM, places: map<Key, Place>)
    requires TP.Hydration(hydrated) && RunsWith(Pipeline.Init(hydrated), BLANK, actions, s, l)
    ensures Implements(s, m, places) && Books(s, m, l)
  {
    var m0, places0 := FirstBooks(hydrated);
    m, places := RunBooks(Pipeline.Init(hydrated), m0, places0, BLANK, actions, s, l);
  }

  lemma FirstBooks(hydrated: map<Key, Status>) returns (m: TM.TM, places: map<Key, Place>)
    requires TP.Hydration(hydrated)
    ensures Implements(Pipeline.Init(hydrated), m, places) && Books(Pipeline.Init(hydrated), m, BLANK)
  {
    InitImplements(hydrated);
    m, places := TM.Init(hydrated), map[];
  }

  // ---- Callers that are never answered ----

  /** A confirmation is pending, but its id is neither the latest intent of a key nor that of an
      outstanding job: a newer intent took its place before its turn came. */
  ghost predicate Abandoned(s: Sys, id: nat) {
    && id in s.coord.pending
    && (forall k :: k in s.coord.speculative ==> s.coord.speculative[k].id != id)
    && (forall job :: Outstanding(s, job) ==> job.id != id)
  }

  lemma AbandonedIsSuperseded(s: Sys, m: TM.TM, places: map<Key, Place>, id: nat)
    requires Link(s, m, places)
    ensures Abandoned(s, id) <==> Confirmations.Superseded(m, id)
  {
    forall k | k in m.tokens
      ensures Outstanding(s, m.tokens[k].job)
    {
      TokenIsOutstanding(s, m, places, k);
    }
    forall job | Outstanding(s, job)
      ensures job.key in m.tokens && m.tokens[job.key].job == job
    {
      OutstandingIsToken(s, m, places, job);
    }
  }

  /** Such a caller waits for as long as the service runs. */
  lemma AbandonedForever(hydrated: map<Key, Status>, s: Sys, actions: seq<Action>, s': Sys, id: nat)
    requires TP.Hydration(hydrated) && Pipeline.Reachable(hydrated, s) && Pipeline.Runs(s, actions, s')
    requires Abandoned(s, id)
    ensures Abandoned(s', id)
  {
    var m, places := ReachableImplements(hydrated, s);
    var m', places', events := RunImplements(s, m, places, actions, s');
    AbandonedIsSuperseded(s, m, places, id);
    Confirmations.SupersededForever(m, events, m', id);
    AbandonedIsSuperseded(s', m', places', id);
  }

  /** The key whose latest intent the action replaces. */
  function AcceptedKey(s: Sys, a: Action): Option<Key>
    requires Pipeline.Enabled(s, a)
  {
    match a
    case TakeInput(status) =>
      if ShouldPublish(StatusOf(Latest(s.coord, KeyOf(status))), status) then Some(KeyOf(status)) else None
    case TakeCommand(key, action, _, _, _) => if UserAccepted(s.coord, key, action) then Some(key) else None
    case TakeOutcome(_) =>
      if s.outcomes[0].Wake? && !IgnoresWake(s.coord, s.outcomes[0].key) then Some(s.outcomes[0].key) else None
    case _ => None
  }

  /** `id` is the latest intent of a key and still waits for its turn when the action replaces it. */
  ghost predicate TakesPlace(s: Sys, a: Action, id: nat)
    requires Pipeline.Enabled(s, a)
  {
    var key := AcceptedKey(s, a);
    && id in s.coord.pending && key.Some? && key.value in s.coord.speculative && s.coord.speculative[key.value].id == id
    && (forall job :: Outstanding(s, job) ==> job.id != id)
  }

  lemma WaitingMatches(s: Sys, m: TM.TM, places: map<Key, Place>, k: Key, id: nat)
    requires Link(s, m, places) && TM.AllStamped(m)
    requires id in m.hist.issued && id != HYDRATED_ID && m.hist.issued[id].key == k
    ensures (forall job :: Outstanding(s, job) ==> job.id != id) <==> (k in m.tokens ==> m.tokens[k].job.id != id)
  {
    TP.UserIdIsPrivate(m, k, id);
    if k in m.tokens {
      TokenIsOutstanding(s, m, places, k);
    }
    forall job | Outstanding(s, job)
      ensures job.key in m.tokens && m.tokens[job.key].job == job
    {
      OutstandingIsToken(s, m, places, job);
    }
  }

  lemma AcceptedMatches(s: Sys, m: TM.TM, a: Action)
    requires s.coord == m.coord && TM.AllOwned(m) && Pipeline.Enabled(s, a)
    requires Meaning(s, a).Some? ==> TM.Enabled(m, Meaning(s, a).value)
    ensures AcceptedKey(s, a) ==
            if Meaning(s, a).Some? then Confirmations.AcceptedBy(m, Meaning(s, a).value) else None
  {
    if a.TakeOutcome? && s.outcomes[0].Wake? {
      TP.WakeShape(m, s.outcomes[0].key, a.now);
      WakeIgnoredIff(s.coord, s.outcomes[0].key, a.now);
    }
  }

  lemma PlaceMatches(s: Sys, m: TM.TM, places: map<Key, Place>, a: Action, id: nat)
    requires Link(s, m, places) && TM.AllOwned(m) && TM.AllStamped(m) && TM.Flagged(m)
    requires Pipeline.Enabled(s, a) && id in s.coord.pending
    requires Meaning(s, a).Some? ==> TM.Enabled(m, Meaning(s, a).value)
    ensures id in m.hist.issued
    ensures TakesPlace(s, a, id) <==>
            Meaning(s, a).Some? && Confirmations.TakesPlace(m, Meaning(s, a).value, m.hist.issued[id].key, id)
  {
    assert id in m.hist.issued && id != HYDRATED_ID;
    AcceptedMatches(s, m, a);
    WaitingMatches(s, m, places, m.hist.issued[id].key, id);
    TP.UserIdIsPrivate(m, m.hist.issued[id].key, id);
  }

  /** An action of the pipeline newly abandons a pending caller exactly when it is an accepted input,
      command or wake for a key whose latest intent is the caller's and still waits for its turn. */
  lemma AbandonsIff(hydrated: map<Key, Status>, s: Sys, a: Action, id: nat)
    requires TP.Hydration(hydrated) && Pipeline.Reachable(hydrated, s)
    requires Pipeline.Enabled(s, a) && Pipeline.Admissible(a)
    requires id in s.coord.pending && !Abandoned(s, id)
    ensures Abandoned(Pipeline.Step(s, a), id) <==> TakesPlace(s, a, id)
  {
    var m, places := ReachableImplements(hydrated, s);
    var places' := StepImplements(s, m, places, a);
    AbandonedIsSuperseded(s, m, places, id);
    AbandonedIsSuperseded(Pipeline.Step(s, a), After(m, Meaning(s, a)), places', id);
    PlaceMatches(s, m, places, a, id);
    if Meaning(s, a).Some? {
      Confirmations.SupersededIff(m, Meaning(s, a).value, id);
    }
  }

  /** At some point of the run, an action replaces the latest intent `id` before its turn. */
  ghost predicate EverReplaced(s: Sys, actions: seq<Action>, id: nat)
    decreases |actions|
  {
    actions != [] && Pipeline.Enabled(s, actions[0])
    && (TakesPlace(s, actions[0], id) || EverReplaced(Pipeline.Step(s, actions[0]), actions[1..], id))
  }

  lemma AnsweredStays(s: Sys, a: Action, id: nat)
    requires Pipeline.Enabled(s, a) && id !in s.coord.pending && id < s.coord.nextId
    ensures id !in Pipeline.Step(s, a).coord.pending && id < Pipeline.Step(s, a).coord.nextId
  {}

  lemma {:induction false} AnsweredForGood(s: Sys, actions: seq<Action>, s': Sys, id: nat)
    requires Pipeline.Runs(s, actions, s') && id !in s.coord.pending && id < s.coord.nextId
    ensures id !in s'.coord.pending && !EverReplaced(s, actions, id)
    decreases |actions|
  {
    if actions != [] {
      AnsweredStays(s, actions[0], id);
      AnsweredForGood(Pipeline.Step(s, actions[0]), actions[1..], s', id);
    }
  }

  lemma PendingIsOld(hydrated: map<Key, Status>, s: Sys, id: nat)
    requires TP.Hydration(hydrated) && Pipeline.Reachable(hydrated, s) && id in s.coord.pending
    ensures id < s.coord.nextId
  {
    var m, places := ReachableImplements(hydrated, s);
    assert id in m.hist.issued;
  }

  lemma NextIdRises(s: Sys, a: Action)
    requires Pipeline.Enabled(s, a)
    ensures s.coord.nextId <= Pipeline.Step(s, a).coord.nextId
  {}

  /** Over any run, a pending caller ends up abandoned exactly if it was abandoned already or some action
      of the run replaced its intent before its turn. */
  lemma {:induction false} AbandonedIffReplaced(hydrated: map<Key, Status>, s: Sys, actions: seq<Action>, s': Sys,
                                                id: nat)
    requires TP.Hydration(hydrated) && Pipeline.Reachable(hydrated, s) && Pipeline.Runs(s, actions, s')
    requires id in s.coord.pending
    ensures Abandoned(s', id) <==> Abandoned(s, id) || EverReplaced(s, actions, id)
    decreases |actions|
  {
    if Abandoned(s, id) {
      AbandonedForever(hydrated, s, actions, s', id);
    } else if actions != [] {
      var (a, rest) := (actions[0], actions[1..]);
      var s1 := Pipeline.Step(s, a);
      ReachableStep(hydrated, s, a);
      AbandonsIff(hydrated, s, a, id);
      if id in s1.coord.pending {
        AbandonedIffReplaced(hydrated, s1, rest, s', id);
      } else {
        PendingIsOld(hydrated, s, id);
        NextIdRises(s, a);
        AnsweredForGood(s1, rest, s', id);
      }
    }
  }

  /** An accepted command for a key with an outstanding job only replaces the latest intent. */
  lemma ReplacesIntent(hydrated: map<Key, Status>, s: Sys, a: Action)
    requires Pipeline.Reachable(hydrated, s) && !s.broken && a.TakeCommand? && Normal(a.key)
    requires a.key in s.coord.speculative && UserAccepted(s.coord, a.key, a.action)
    ensures var (id, status) := (s.coord.nextId, UserStatus(a.key, a.action, a.user, a.now));
            && Pipeline.Reachable(hydrated, Pipeline.Step(s, a))
            && Pipeline.Step(s, a) ==
               s.(coord := Coord(s.coord.confirmed, s.coord.speculative[a.key := Entry(status, id)],
                                 s.coord.pending[id := a.caller], id + 1))
  {
    ReachableStep(hydrated, s, a);
    assert s.jobs + [] == s.jobs;
  }

  lemma AlarmArrives(hydrated: map<Key, Status>, alarm: Status) returns (s: Sys)
    requires KeyOf(alarm) !in hydrated && alarm.state == Alarmed && alarm.wake.None?
    ensures Pipeline.Reachable(hydrated, s)
    ensures var k := KeyOf(alarm);
            s == Pipeline.Init(hydrated).(
                 coord := Start(hydrated).(speculative := map[k := Entry(alarm, 1)], nextId := 2),
                 jobs := [Job(1, k, alarm, false)])
  {
    var s0 := Pipeline.Init(hydrated);
    assert Pipeline.Runs(s0, [], s0);
    ReachableStep(hydrated, s0, TakeInput(alarm));
    s := Pipeline.Step(s0, TakeInput(alarm));
  }

  lemma OnlyJob(s: Sys, job: Job)
    requires s.jobs == [job] && s.workflow == map[] && s.outcomes == []
    ensures forall other :: Outstanding(s, other) ==> other == job
  {}

  lemma SecondIntentWaits(hydrated: map<Key, Status>, s: Sys, alarm: Status) returns (s': Sys)
    requires KeyOf(alarm) !in hydrated && alarm.state == Alarmed && Pipeline.Reachable(hydrated, s)
    requires s == Pipeline.Init(hydrated).(
                  coord := Start(hydrated).(speculative := map[KeyOf(alarm) := Entry(alarm, 1)], nextId := 2),
                  jobs := [Job(1, KeyOf(alarm), alarm, false)])
    ensures Pipeline.Reachable(hydrated, s') && s' == s.(coord := s'.coord)
    ensures s'.coord.nextId == 3 && s'.coord.pending == map[2 := 0]
    ensures s'.coord.speculative == map[KeyOf(alarm) := Entry(UserStatus(KeyOf(alarm), Acknowledge, "", 0), 2)]
  {
    KeyOfIsNormal(alarm);
    var acknowledge := TakeCommand(KeyOf(alarm), Acknowledge, "", 0, 0);
    ReplacesIntent(hydrated, s, acknowledge);
    s' := Pipeline.Step(s, acknowledge);
  }

  /** Callers can be abandoned: while the publish of a new alarm is under way, an operator acknowledges
      it, and before the publish comes back another operator bypasses it. */
  lemma CommandCanBeAbandoned(hydrated: map<Key, Status>, alarm: Status) returns (s: Sys)
    requires KeyOf(alarm) !in hydrated && alarm.state == Alarmed && alarm.wake.None?
    ensures Pipeline.Reachable(hydrated, s) && Abandoned(s, 2)
  {
    var k := KeyOf(alarm);
    KeyOfIsNormal(alarm);
    var s1 := AlarmArrives(hydrated, alarm);
    var s2 := SecondIntentWaits(hydrated, s1, alarm);
    var bypass := TakeCommand(k, UserAction.Bypass(None), "", 1, 0);
    ReplacesIntent(hydrated, s2, bypass);
    s := Pipeline.Step(s2, bypass);
    OnlyJob(s, Job(1, k, alarm, false));
  }
}
