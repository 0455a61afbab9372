/** Every step of the token machine keeps its invariant. Each kind of step is first put into the form
    of a transition, a relation between the fields before and after; the proofs work on those. */
module TokenProofs {
  import opened Types
  import opened Keys
  import opened Policy
  import opened Coordinator
  import opened Messages
  import opened Snooze
  import opened Replay
  import opened TokenMachine

  // ---- Transitions ----

  /** Some input is accepted for `key`; a wake of that key may be used up by it. */
  ghost predicate Accepting(m: TM, m': TM, key: Key, status: Status, user: bool) {
    var id := m.coord.nextId;
    var job := Job(id, key, status, user);
    && m'.coord.speculative == m.coord.speculative[key := Entry(status, id)]
    && m'.coord.confirmed == m.coord.confirmed
    && m'.coord.pending.Keys == (if user then m.coord.pending.Keys + {id} else m.coord.pending.Keys)
    && |m'.coord.pending| == |m.coord.pending| + (if user then 1 else 0)
    && m'.coord.nextId == id + 1
    && m'.tokens == (if key in m.tokens then m.tokens else m.tokens[key := Token(job, Dispatched)])
    && m'.timers == m.timers
    && m'.log == m.log
    && (forall k :: k in m'.wakes ==> k in m.wakes)
    && (forall k :: k != key && k in m.wakes ==> k in m'.wakes)
    && m'.hist == m.hist.(
                  issued := m.hist.issued[id := Issue(key, status, user)],
                  marks := m.hist.marks + (if key in m.tokens then [] else [Sent(job)]),
                  accepted := m.hist.accepted + if user then 1 else 0)
  }

  /** The job dispatched for the speculative entry of a key. */
  function JobFor(key: Key, e: Entry, pending: set<nat>): Job {
    Job(e.id, key, e.status, e.id in pending)
  }

  /** What settling a job records, whatever its outcome. */
  ghost predicate Settling(m: TM, m': TM, key: Key, job: Job, ok: bool) {
    && m'.coord.pending.Keys == m.coord.pending.Keys - {job.id}
    && |m'.coord.pending| == |m.coord.pending| - (if job.id in m.coord.pending then 1 else 0)
    && m'.coord.nextId == m.coord.nextId
    && m'.timers == m.timers && m'.wakes == m.wakes && m'.log == m.log
    && m'.hist.hydrated == m.hist.hydrated && m'.hist.issued == m.hist.issued
    && m'.hist.accepted == m.hist.accepted
    && m'.hist.done == m.hist.done + {job.id}
    && m'.hist.failed == (if !ok && job.userInitiated then m.hist.failed + {job.id} else m.hist.failed)
    && m'.hist.answers == (if job.id in m.coord.pending then m.hist.answers + [Answer(job.id, ok)]
                           else m.hist.answers)
    && m'.hist.committed == (if ok then m.hist.committed[key := Entry(job.status, job.id)]
                             else m.hist.committed)
  }

  /** The job committed was the latest intent: the key comes to rest. */
  ghost predicate Resting(m: TM, m': TM, key: Key, job: Job) {
    && Settling(m, m', key, job, true)
    && m'.coord.confirmed == m.coord.confirmed[key := Entry(job.status, job.id)]
    && m'.coord.speculative == m.coord.speculative - {key}
    && m'.tokens == m.tokens - {key}
    && m'.hist.marks == m.hist.marks + [Done(job, true)]
  }

  /** The job settled, and the entry `e` is dispatched next. */
  ghost predicate Relaunching(m: TM, m': TM, key: Key, job: Job, ok: bool, e: Entry) {
    var next := JobFor(key, e, m.coord.pending.Keys - {job.id});
    && Settling(m, m', key, job, ok)
    && m'.coord.confirmed == (if ok then m.coord.confirmed[key := Entry(job.status, job.id)]
                              else m.coord.confirmed)
    && m'.coord.speculative == m.coord.speculative[key := e]
    && m'.tokens == m.tokens[key := Token(next, Dispatched)]
    && m'.hist.marks == m.hist.marks + [Done(job, ok)] + [Sent(next)]
  }

  predicate RollsBack(m: TM, key: Key)
    requires key in m.tokens && key in m.coord.speculative
  {
    m.tokens[key].job.userInitiated && m.coord.speculative[key].id == m.tokens[key].job.id
  }

  /** The entry dispatched next, when the key's job settles and something is still to be done. */
  function NextEntry(m: TM, key: Key, ok: bool): Entry
    requires key in m.tokens && key in m.coord.speculative
  {
    if !ok && RollsBack(m, key) then Fallback(m.coord, key) else m.coord.speculative[key]
  }

  lemma AcceptShape(m: TM, key: Key, status: Status, caller: Option<Confirmation>)
    requires OneToken(m)
    requires forall id :: id in m.coord.pending ==> id < m.coord.nextId
    ensures Accepting(m, Accept(m, key, status, caller), key, status, caller.Some?)
  {
    AcceptIs(m, key, status, caller);
    if caller.Some? {
      PendingMore(m.coord.pending, m.coord.nextId, caller.value);
    }
  }

  lemma AcceptIs(m: TM, key: Key, status: Status, caller: Option<Confirmation>)
    requires OneToken(m) && m.coord.nextId !in m.coord.pending
    ensures var id := m.coord.nextId;
            var job := Job(id, key, status, caller.Some?);
            Accept(m, key, status, caller) ==
            m.(coord := Coord(m.coord.confirmed, m.coord.speculative[key := Entry(status, id)],
                              if caller.Some? then m.coord.pending[id := caller.value] else m.coord.pending, id + 1),
               tokens := if key in m.tokens then m.tokens else m.tokens[key := Token(job, Dispatched)],
               hist := m.hist.(issued := m.hist.issued[id := Issue(key, status, caller.Some?)],
                               marks := m.hist.marks + (if key in m.tokens then [] else [Sent(job)]),
                               accepted := m.hist.accepted + if caller.Some? then 1 else 0))
  {
    assert key in m.tokens.Keys <==> key in m.coord.speculative.Keys;
    IntendShape(if caller.Some? then m.coord.(pending := m.coord.pending[m.coord.nextId := caller.value])
                else m.coord, key, status);
  }

  lemma PendingMore(pending: map<nat, Confirmation>, id: nat, caller: Confirmation)
    requires id !in pending
    ensures |pending[id := caller]| == |pending| + 1
    ensures pending[id := caller].Keys == pending.Keys + {id}
  {}

  lemma IntendShape(c: Coord, key: Key, status: Status)
    ensures var (id, eff) := (c.nextId, Intend(c, key, status));
            && eff.coord == c.(speculative := c.speculative[key := Entry(status, id)], nextId := id + 1)
            && eff.jobs == if key in c.speculative then [] else [Job(id, key, status, id in c.pending)]
  {}

  lemma PendingLess(pending: map<nat, Confirmation>, id: nat)
    ensures |pending - {id}| == |pending| - if id in pending then 1 else 0
    ensures (pending - {id}).Keys == pending.Keys - {id}
  {
    if id in pending {
      assert pending.Keys == (pending - {id}).Keys + {id};
    } else {
      assert pending - {id} == pending;
    }
  }

  lemma RestShape(m: TM, key: Key)
    requires OneToken(m) && InPhase(m, key, Finished(true)) && m.tokens[key].job.key == key
    requires key in m.coord.speculative && m.coord.speculative[key].id == m.tokens[key].job.id
    ensures Resting(m, Settled(m, key), key, m.tokens[key].job)
  {
    PendingLess(m.coord.pending, m.tokens[key].job.id);
  }

  lemma RecommitShape(m: TM, key: Key)
    requires OneToken(m) && InPhase(m, key, Finished(true)) && m.tokens[key].job.key == key
    requires key in m.coord.speculative && m.coord.speculative[key].id != m.tokens[key].job.id
    ensures Relaunching(m, Settled(m, key), key, m.tokens[key].job, true, m.coord.speculative[key])
  {
    var m' := Settled(m, key);
    PendingLess(m.coord.pending, m.tokens[key].job.id);
    assert m.coord.speculative == m.coord.speculative[key := m.coord.speculative[key]];
    assert (m.tokens - {key})[key := m'.tokens[key]] == m.tokens[key := m'.tokens[key]];
  }

  lemma FailShape(m: TM, key: Key)
    requires OneToken(m) && InPhase(m, key, Finished(false)) && m.tokens[key].job.key == key
    ensures key in m.coord.speculative
    ensures !AfterFailure(m.coord, m.tokens[key].job).lost
    ensures Relaunching(m, Settled(m, key), key, m.tokens[key].job, false, NextEntry(m, key, false))
  {
    var m' := Settled(m, key);
    assert key in m.tokens.Keys;
    PendingLess(m.coord.pending, m.tokens[key].job.id);
    FailEffect(m, key);
    assert (m.tokens - {key})[key := m'.tokens[key]] == m.tokens[key := m'.tokens[key]];
  }

  lemma FailEffect(m: TM, key: Key)
    requires key in m.tokens && m.tokens[key].job.key == key && key in m.coord.speculative
    ensures var (job, e) := (m.tokens[key].job, NextEntry(m, key, false));
            var eff := AfterFailure(m.coord, job);
            && !eff.lost
            && eff.coord == m.coord.(pending := m.coord.pending - {job.id},
                                     speculative := m.coord.speculative[key := e])
            && eff.jobs == [JobFor(key, e, (m.coord.pending - {job.id}).Keys)]
  {
    if !RollsBack(m, key) {
      assert m.coord.speculative == m.coord.speculative[key := m.coord.speculative[key]];
    }
  }

  // ---- Ownership ----

  lemma AcceptOwned(m: TM, m': TM, key: Key, status: Status, user: bool)
    requires Accepting(m, m', key, status, user) && AllOwned(m) && Owned(key, status)
    ensures AllOwned(m')
  {}

  lemma RestOwned(m: TM, m': TM, key: Key, job: Job)
    requires Resting(m, m', key, job) && AllOwned(m) && Owned(key, job.status)
    ensures AllOwned(m')
  {}

  lemma RelaunchOwned(m: TM, m': TM, key: Key, job: Job, ok: bool, e: Entry)
    requires Relaunching(m, m', key, job, ok, e) && AllOwned(m)
    requires Owned(key, job.status) && Owned(key, e.status)
    ensures AllOwned(m')
  {}

  // ---- Stamps ----

  lemma StampsCarryOver(h: History, h': History, cache: Cache)
    requires h'.hydrated == h.hydrated
    requires forall id :: id in h.issued ==> id in h'.issued && h'.issued[id] == h.issued[id]
    requires CacheStamped(h, cache)
    ensures CacheStamped(h', cache)
  {
    forall k | k in cache
      ensures Stamped(h', k, cache[k].status, cache[k].id)
    {
      assert Stamped(h, k, cache[k].status, cache[k].id);
    }
  }

  lemma AcceptStamped(m: TM, m': TM, key: Key, status: Status, user: bool)
    requires Accepting(m, m', key, status, user) && AllStamped(m)
    ensures AllStamped(m')
  {
    AcceptIssues(m, m', key, status, user);
    AcceptCachesStamped(m, m', key, status, user);
    AcceptTokensStamped(m, m', key, status, user);
  }

  lemma AcceptIssues(m: TM, m': TM, key: Key, status: Status, user: bool)
    requires Accepting(m, m', key, status, user) && AllStamped(m)
    ensures 1 <= m'.coord.nextId && forall id :: id in m'.hist.issued <==> 1 <= id < m'.coord.nextId
  {
    assert forall id :: id in m'.hist.issued <==> id in m.hist.issued || id == m.coord.nextId;
  }

  lemma AcceptCachesStamped(m: TM, m': TM, key: Key, status: Status, user: bool)
    requires Accepting(m, m', key, status, user) && AllStamped(m)
    ensures CacheStamped(m'.hist, m'.coord.speculative) && CacheStamped(m'.hist, m'.coord.confirmed)
  {
    StampsCarryOver(m.hist, m'.hist, m.coord.speculative);
    StampsCarryOver(m.hist, m'.hist, m.coord.confirmed);
    StampsWith(m'.hist, m.coord.speculative, key, Entry(status, m.coord.nextId));
  }

  lemma AcceptTokensStamped(m: TM, m': TM, key: Key, status: Status, user: bool)
    requires Accepting(m, m', key, status, user) && AllStamped(m)
    ensures forall k :: k in m'.tokens ==> Stamped(m'.hist, k, m'.tokens[k].job.status, m'.tokens[k].job.id)
  {
    forall k | k in m'.tokens
      ensures Stamped(m'.hist, k, m'.tokens[k].job.status, m'.tokens[k].job.id)
    {
      if k in m.tokens {
        assert Stamped(m.hist, k, m.tokens[k].job.status, m.tokens[k].job.id);
      }
    }
  }

  lemma StampsWithout(h: History, cache: Cache, key: Key)
    requires CacheStamped(h, cache)
    ensures CacheStamped(h, cache - {key})
  {}

  lemma StampsWith(h: History, cache: Cache, key: Key, e: Entry)
    requires CacheStamped(h, cache) && Stamped(h, key, e.status, e.id)
    ensures CacheStamped(h, cache[key := e])
  {}

  lemma RestStamped(m: TM, m': TM, key: Key, job: Job)
    requires Resting(m, m', key, job) && AllStamped(m) && Stamped(m.hist, key, job.status, job.id)
    ensures AllStamped(m')
  {
    StampsWithout(m.hist, m.coord.speculative, key);
    StampsWith(m.hist, m.coord.confirmed, key, Entry(job.status, job.id));
    StampsCarryOver(m.hist, m'.hist, m'.coord.speculative);
    StampsCarryOver(m.hist, m'.hist, m'.coord.confirmed);
    forall k | k in m'.tokens
      ensures Stamped(m'.hist, k, m'.tokens[k].job.status, m'.tokens[k].job.id)
    {
      assert Stamped(m.hist, k, m.tokens[k].job.status, m.tokens[k].job.id);
    }
  }

  lemma RelaunchStamped(m: TM, m': TM, key: Key, job: Job, ok: bool, e: Entry)
    requires Relaunching(m, m', key, job, ok, e) && AllStamped(m)
    requires Stamped(m.hist, key, job.status, job.id) && Stamped(m.hist, key, e.status, e.id)
    ensures AllStamped(m')
  {
    RelaunchCachesStamped(m, m', key, job, ok, e);
    RelaunchTokensStamped(m, m', key, job, ok, e);
  }

  lemma RelaunchCachesStamped(m: TM, m': TM, key: Key, job: Job, ok: bool, e: Entry)
    requires Relaunching(m, m', key, job, ok, e) && AllStamped(m)
    requires Stamped(m.hist, key, job.status, job.id) && Stamped(m.hist, key, e.status, e.id)
    ensures CacheStamped(m'.hist, m'.coord.speculative) && CacheStamped(m'.hist, m'.coord.confirmed)
  {
    StampsWith(m.hist, m.coord.speculative, key, e);
    StampsWith(m.hist, m.coord.confirmed, key, Entry(job.status, job.id));
    StampsCarryOver(m.hist, m'.hist, m'.coord.speculative);
    StampsCarryOver(m.hist, m'.hist, m'.coord.confirmed);
  }

  lemma RelaunchTokensStamped(m: TM, m': TM, key: Key, job: Job, ok: bool, e: Entry)
    requires Relaunching(m, m', key, job, ok, e) && AllStamped(m) && Stamped(m.hist, key, e.status, e.id)
    ensures forall k :: k in m'.tokens ==> Stamped(m'.hist, k, m'.tokens[k].job.status, m'.tokens[k].job.id)
  {
    forall k | k in m'.tokens
      ensures Stamped(m'.hist, k, m'.tokens[k].job.status, m'.tokens[k].job.id)
    {
      if k != key {
        assert Stamped(m.hist, k, m.tokens[k].job.status, m.tokens[k].job.id);
      }
    }
  }

  // ---- The chain of ids ----

  lemma AcceptChained(m: TM, m': TM, key: Key, status: Status, user: bool)
    requires Accepting(m, m', key, status, user) && AllStamped(m) && OneToken(m) && Chained(m)
    ensures Chained(m')
  {
    if key in m.coord.confirmed {
      assert Stamped(m.hist, key, m.coord.confirmed[key].status, m.coord.confirmed[key].id);
    }
    assert key in m.tokens.Keys <==> key in m.coord.speculative.Keys;
  }

  lemma RestChained(m: TM, m': TM, key: Key, job: Job)
    requires Resting(m, m', key, job) && Chained(m)
    ensures Chained(m')
  {}

  lemma RelaunchChained(m: TM, m': TM, key: Key, job: Job, ok: bool, e: Entry)
    requires Relaunching(m, m', key, job, ok, e) && Chained(m)
    requires (if ok then job.id else ConfirmedId(m.coord, key)) <= e.id < m.coord.nextId
    ensures Chained(m')
  {}

  // ---- Flags and pending confirmations ----

  lemma AcceptFlagged(m: TM, m': TM, key: Key, status: Status, user: bool)
    requires Accepting(m, m', key, status, user) && AllStamped(m) && Flagged(m)
    ensures Flagged(m')
  {
    forall k | k in m'.coord.confirmed
      ensures m'.coord.confirmed[k].id !in m'.coord.pending
    {
      assert Stamped(m.hist, k, m.coord.confirmed[k].status, m.coord.confirmed[k].id);
    }
    AcceptTokensFlagged(m, m', key, status, user);
  }

  lemma AcceptTokensFlagged(m: TM, m': TM, key: Key, status: Status, user: bool)
    requires Accepting(m, m', key, status, user) && AllStamped(m) && Flagged(m)
    ensures forall k :: k in m'.tokens ==>
                          (m'.tokens[k].job.userInitiated <==> m'.tokens[k].job.id in m'.coord.pending)
  {
    forall k | k in m'.tokens
      ensures m'.tokens[k].job.userInitiated <==> m'.tokens[k].job.id in m'.coord.pending
    {
      if k in m.tokens {
        assert Stamped(m.hist, k, m.tokens[k].job.status, m.tokens[k].job.id);
      }
    }
  }

  /** Jobs of different keys never share an id that was allocated. */
  lemma IdsOfKeys(m: TM, key: Key, other: Key)
    requires AllStamped(m) && key in m.tokens && other in m.tokens && key != other
    ensures m.tokens[key].job.id == m.tokens[other].job.id ==> m.tokens[key].job.id == HYDRATED_ID
  {}

  lemma SettleFlaggedTokens(m: TM, key: Key)
    requires AllStamped(m) && Flagged(m) && key in m.tokens
    ensures forall k :: k in m.tokens && k != key ==>
                          (m.tokens[k].job.userInitiated <==>
                           m.tokens[k].job.id in m.coord.pending.Keys - {m.tokens[key].job.id})
  {
    forall k | k in m.tokens && k != key
      ensures m.tokens[k].job.userInitiated <==>
              m.tokens[k].job.id in m.coord.pending.Keys - {m.tokens[key].job.id}
    {
      IdsOfKeys(m, key, k);
      assert HYDRATED_ID !in m.hist.issued;
    }
  }

  lemma SettlePending(m: TM, m': TM, key: Key, job: Job, ok: bool)
    requires Settling(m, m', key, job, ok) && AllStamped(m) && Flagged(m)
    requires Stamped(m.hist, key, job.status, job.id)
    ensures forall id :: id in m'.coord.pending <==>
                           id in m'.hist.issued && m'.hist.issued[id].user && id !in m'.hist.done
    ensures forall id :: id in m'.hist.done ==> id < m'.coord.nextId
  {}

  lemma RestFlagged(m: TM, m': TM, key: Key, job: Job)
    requires Resting(m, m', key, job) && AllStamped(m) && Flagged(m)
    requires key in m.tokens && m.tokens[key].job == job
    ensures Flagged(m')
  {
    SettlePending(m, m', key, job, true);
    SettleFlaggedTokens(m, key);
  }

  lemma RelaunchFlagged(m: TM, m': TM, key: Key, job: Job, ok: bool, e: Entry)
    requires Relaunching(m, m', key, job, ok, e) && AllStamped(m) && Flagged(m)
    requires key in m.tokens && m.tokens[key].job == job
    ensures Flagged(m')
  {
    SettlePending(m, m', key, job, ok);
    SettleFlaggedTokens(m, key);
  }

  // ---- Intents whose outcome came back ----

  lemma AcceptDone(m: TM, m': TM, key: Key, status: Status, user: bool)
    requires Accepting(m, m', key, status, user) && Flagged(m) && DoneIsConfirmed(m)
    requires forall k :: k in m.coord.speculative ==> m.coord.speculative[k].id < m.coord.nextId
    ensures DoneIsConfirmed(m')
  {}

  /** The settled id concerns no other key. */
  lemma SettleDoneElsewhere(m: TM, m': TM, key: Key, job: Job, ok: bool, k: Key)
    requires Settling(m, m', key, job, ok) && AllStamped(m) && DoneIsConfirmed(m)
    requires Stamped(m.hist, key, job.status, job.id)
    requires k in m.coord.speculative && k != key
    ensures var id := m.coord.speculative[k].id;
            id in m.hist.issued && m.hist.issued[id].user && id in m'.hist.done ==>
              k in m.coord.confirmed && m.coord.confirmed[k].id == id
  {
    assert Stamped(m.hist, k, m.coord.speculative[k].status, m.coord.speculative[k].id);
    assert HYDRATED_ID !in m.hist.issued;
  }

  lemma RestDone(m: TM, m': TM, key: Key, job: Job)
    requires Resting(m, m', key, job) && AllStamped(m) && DoneIsConfirmed(m)
    requires Stamped(m.hist, key, job.status, job.id)
    ensures DoneIsConfirmed(m')
  {
    forall k | k in m'.coord.speculative
      ensures var id := m'.coord.speculative[k].id;
              id in m'.hist.issued && m'.hist.issued[id].user && id in m'.hist.done ==>
                k in m'.coord.confirmed && m'.coord.confirmed[k].id == id
    {
      SettleDoneElsewhere(m, m', key, job, true, k);
    }
  }

  lemma RelaunchDone(m: TM, m': TM, key: Key, job: Job, ok: bool, e: Entry)
    requires Relaunching(m, m', key, job, ok, e) && AllStamped(m) && DoneIsConfirmed(m)
    requires Stamped(m.hist, key, job.status, job.id)
    requires e.id in m.hist.issued && m.hist.issued[e.id].user && e.id in m'.hist.done ==>
               key in m'.coord.confirmed && m'.coord.confirmed[key].id == e.id
    ensures DoneIsConfirmed(m')
  {
    forall k | k in m'.coord.speculative
      ensures var id := m'.coord.speculative[k].id;
              id in m'.hist.issued && m'.hist.issued[id].user && id in m'.hist.done ==>
                k in m'.coord.confirmed && m'.coord.confirmed[k].id == id
    {
      if k != key {
        SettleDoneElsewhere(m, m', key, job, ok, k);
      }
    }
  }

  /** The entry dispatched next, if its outcome came back before, is the confirmed one. */
  lemma NextEntryDone(m: TM, key: Key, ok: bool)
    requires JobFacts(m, key) && DoneIsConfirmed(m) && Flagged(m) && AllStamped(m)
    requires ok ==> m.coord.speculative[key].id != m.tokens[key].job.id
    ensures var e := NextEntry(m, key, ok);
            var job := m.tokens[key].job;
            e.id in m.hist.issued && m.hist.issued[e.id].user && e.id in m.hist.done + {job.id} ==>
              !ok && key in m.coord.confirmed && m.coord.confirmed[key].id == e.id
  {}

  // ---- The confirmed cache ----

  lemma UnionUpdate(a: Cache, b: Cache, k: Key, e: Entry)
    ensures a + b[k := e] == (a + b)[k := e]
  {}

  lemma SettleConfirmed(m: TM, m': TM, key: Key, job: Job, ok: bool)
    requires Settling(m, m', key, job, ok) && ConfirmedIsCommitted(m)
    requires m'.coord.confirmed == (if ok then m.coord.confirmed[key := Entry(job.status, job.id)]
                                    else m.coord.confirmed)
    ensures ConfirmedIsCommitted(m')
  {
    if ok {
      UnionUpdate(Start(m.hist.hydrated).confirmed, m.hist.committed, key, Entry(job.status, job.id));
    }
  }

  // ---- Timers ----

  lemma AcceptTimers(m: TM, m': TM, key: Key, status: Status, user: bool)
    requires Accepting(m, m', key, status, user) && AllStamped(m) && OneToken(m) && TimersAgree(m)
    ensures TimersAgree(m')
  {
    forall k
      ensures TimerAgrees(m', k)
    {
      assert TimerAgrees(m, k);
      if k == key && k in m.tokens {
        assert Stamped(m.hist, k, m.tokens[k].job.status, m.tokens[k].job.id);
      }
    }
  }

  lemma RestTimers(m: TM, m': TM, key: Key, job: Job)
    requires Resting(m, m', key, job) && TimersAgree(m)
    requires m.tokens.Keys == m.coord.speculative.Keys
    requires InPhase(m, key, Finished(true)) && m.tokens[key].job == job
    requires m.coord.speculative[key].id == job.id
    ensures TimersAgree(m')
  {
    forall k
      ensures TimerAgrees(m', k)
    {
      assert TimerAgrees(m, k);
    }
  }

  lemma RelaunchTimers(m: TM, m': TM, key: Key, job: Job, ok: bool, e: Entry)
    requires Relaunching(m, m', key, job, ok, e) && TimersAgree(m)
    ensures TimersAgree(m')
  {
    forall k
      ensures TimerAgrees(m', k)
    {
      assert TimerAgrees(m, k);
    }
  }

  // ---- The log ----

  lemma AcceptLog(m: TM, m': TM, key: Key, status: Status, user: bool)
    requires Accepting(m, m', key, status, user) && LogsAgree(m)
    ensures LogsAgree(m')
  {
    forall k
      ensures LogAgrees(m', k)
    {
      assert LogAgrees(m, k);
    }
  }

  /** What the log owes the history of committed jobs once `job` has been published. */
  lemma PublishedIsLogged(log: seq<Published>, k: Key, status: Status)
    requires LastPublished(log, k) == Some(status)
    ensures Published(k, status) in log
  {
    if log[|log| - 1].key != k {
      PublishedIsLogged(log[..|log| - 1], k, status);
    }
  }

  lemma RestLogAt(m: TM, m': TM, key: Key, job: Job, k: Key)
    requires Resting(m, m', key, job) && LogAgrees(m, k)
    requires InPhase(m, key, Finished(true)) && m.tokens[key].job == job
    requires Published(key, job.status) in m.log
    ensures LogAgrees(m', k)
  {}

  lemma RestLog(m: TM, m': TM, key: Key, job: Job)
    requires Resting(m, m', key, job) && LogsAgree(m)
    requires InPhase(m, key, Finished(true)) && m.tokens[key].job == job
    ensures LogsAgree(m')
  {
    assert LogAgrees(m, key);
    PublishedIsLogged(m.log, key, job.status);
    forall k
      ensures LogAgrees(m', k)
    {
      RestLogAt(m, m', key, job, k);
    }
  }

  lemma RelaunchLog(m: TM, m': TM, key: Key, job: Job, ok: bool, e: Entry)
    requires Relaunching(m, m', key, job, ok, e) && LogsAgree(m)
    requires InPhase(m, key, Finished(ok)) && m.tokens[key].job == job
    ensures LogsAgree(m')
  {
    assert LogAgrees(m, key);
    if ok {
      PublishedIsLogged(m.log, key, job.status);
    }
    forall k
      ensures LogAgrees(m', k)
    {
      assert LogAgrees(m, k);
    }
  }

  // ---- Conservation of the accepted user actions ----

  lemma AcceptConserved(m: TM, m': TM, key: Key, status: Status, user: bool)
    requires Accepting(m, m', key, status, user) && AllStamped(m) && Flagged(m) && Conserved(m)
    ensures Conserved(m')
  {}

  lemma SettleUnanswered(m: TM, m': TM, key: Key, job: Job, ok: bool)
    requires Settling(m, m', key, job, ok) && Flagged(m) && Conserved(m)
    requires job.id !in m.coord.pending
    ensures Conserved(m')
  {
    forall id | id in m'.hist.done && id in m'.hist.issued && m'.hist.issued[id].user
      ensures WasAnswered(m'.hist, id)
    {
      assert id in m.hist.done;
      assert WasAnswered(m.hist, id);
    }
  }

  lemma SettleAnswered(m: TM, m': TM, key: Key, job: Job, ok: bool)
    requires Settling(m, m', key, job, ok) && Flagged(m) && Conserved(m)
    requires job.id in m.coord.pending
    requires ok ==> Published(m.hist.issued[job.id].key, m.hist.issued[job.id].status) in m.log
    ensures Conserved(m')
  {
    var answer := Answer(job.id, ok);
    assert job.id !in m.hist.done;
    assert forall a :: a in m.hist.answers ==> a.id != job.id;
    assert answer in m'.hist.answers;
    forall id | id in m'.hist.done && id in m'.hist.issued && m'.hist.issued[id].user
      ensures WasAnswered(m'.hist, id)
    {
      if id != job.id {
        assert WasAnswered(m.hist, id);
      }
    }
  }

  // ---- Failed user ids ----

  lemma AcceptFailed(m: TM, m': TM, key: Key, status: Status, user: bool)
    requires Accepting(m, m', key, status, user) && Flagged(m) && FailedGone(m)
    ensures FailedGone(m')
  {}

  lemma RestFailed(m: TM, m': TM, key: Key, job: Job)
    requires Resting(m, m', key, job) && FailedGone(m)
    requires key in m.tokens && m.tokens[key].job == job
    ensures FailedGone(m')
  {
    assert m'.hist.failed == m.hist.failed;
    assert job.id !in m.hist.failed;
  }

  lemma RelaunchFailed(m: TM, m': TM, key: Key, job: Job, ok: bool, e: Entry)
    requires Relaunching(m, m', key, job, ok, e) && FailedGone(m)
    requires key in m.tokens && m.tokens[key].job == job
    requires job.userInitiated ==> job.id != HYDRATED_ID
    requires e.id !in m'.hist.failed
    requires !ok && job.userInitiated ==>
               && (forall k :: k in m.coord.speculative && k != key ==> m.coord.speculative[k].id != job.id)
               && (forall k :: k in m.coord.confirmed ==> m.coord.confirmed[k].id != job.id)
               && (forall k :: k in m.tokens && k != key ==> m.tokens[k].job.id != job.id)
    ensures FailedGone(m')
  {
    RelaunchFailedIds(m, m', key, job, ok, e);
    forall k | k in m'.tokens
      ensures m'.tokens[k].job.id !in m'.hist.failed
    {
      assert k != key ==> m'.tokens[k] == m.tokens[k];
    }
  }

  lemma RelaunchFailedIds(m: TM, m': TM, key: Key, job: Job, ok: bool, e: Entry)
    requires Relaunching(m, m', key, job, ok, e) && FailedGone(m)
    requires job.userInitiated ==> job.id != HYDRATED_ID
    ensures m'.hist.failed <= m'.hist.done && HYDRATED_ID !in m'.hist.failed
  {}

  // ---- Dispatch discipline ----

  lemma DoneDisciplined(marks: seq<Mark>, done: set<nat>, failed: set<nat>, tokens: map<Key, Token>, key: Key,
                        ok: bool)
    requires Disciplined(marks, done, failed, tokens)
    requires key in tokens && tokens[key].job.key == key
    ensures var job := tokens[key].job;
            Disciplined(marks + [Done(job, ok)], done + {job.id},
                        if !ok && job.userInitiated then failed + {job.id} else failed, tokens - {key})
  {}

  lemma SentDisciplined(marks: seq<Mark>, done: set<nat>, failed: set<nat>, tokens: map<Key, Token>, job: Job)
    requires Disciplined(marks, done, failed, tokens)
    requires job.key !in tokens && job.id !in failed
    requires job.userInitiated ==> job.id !in done && forall k :: k in tokens ==> tokens[k].job.id != job.id
    ensures Disciplined(marks + [Sent(job)], done, failed, tokens[job.key := Token(job, Dispatched)])
  {}

  // ---- Putting the transitions together ----

  lemma AcceptKeeps(m: TM, m': TM, key: Key, status: Status, user: bool)
    requires Inv(m) && Accepting(m, m', key, status, user) && Owned(key, status)
    ensures Inv(m')
  {
    AcceptKeepsIntents(m, m', key, status, user);
    AcceptTimers(m, m', key, status, user);
    AcceptLog(m, m', key, status, user);
    AcceptConserved(m, m', key, status, user);
    AcceptFailed(m, m', key, status, user);
    AcceptDisciplined(m, m', key, status, user);
  }

  lemma AcceptKeepsIntents(m: TM, m': TM, key: Key, status: Status, user: bool)
    requires AllOwned(m) && OneToken(m) && AllStamped(m) && Chained(m) && Flagged(m) && DoneIsConfirmed(m)
    requires Accepting(m, m', key, status, user) && Owned(key, status)
    ensures AllOwned(m') && OneToken(m') && AllStamped(m') && Chained(m') && Flagged(m') && DoneIsConfirmed(m')
  {
    AcceptOwned(m, m', key, status, user);
    AcceptStamped(m, m', key, status, user);
    AcceptChained(m, m', key, status, user);
    AcceptFlagged(m, m', key, status, user);
    AcceptDone(m, m', key, status, user);
  }

  lemma AcceptDisciplined(m: TM, m': TM, key: Key, status: Status, user: bool)
    requires Accepting(m, m', key, status, user) && AllStamped(m) && Flagged(m) && FailedGone(m)
    requires Disciplined(m.hist.marks, m.hist.done, m.hist.failed, m.tokens)
    ensures Disciplined(m'.hist.marks, m'.hist.done, m'.hist.failed, m'.tokens)
  {
    var id := m.coord.nextId;
    if key !in m.tokens {
      forall k | k in m.tokens
        ensures m.tokens[k].job.id != id
      {
        assert Stamped(m.hist, k, m.tokens[k].job.status, m.tokens[k].job.id);
      }
      SentDisciplined(m.hist.marks, m.hist.done, m.hist.failed, m.tokens, Job(id, key, status, user));
    } else {
      assert m'.hist.marks == m.hist.marks;
    }
  }

  /** What the invariant says of one outstanding job. */
  ghost predicate JobFacts(m: TM, key: Key) {
    && key in m.tokens && key in m.coord.speculative
    && var job := m.tokens[key].job;
       && job.key == key && Owned(key, job.status) && Stamped(m.hist, key, job.status, job.id)
       && ConfirmedId(m.coord, key) <= job.id <= m.coord.speculative[key].id < m.coord.nextId
       && (job.userInitiated <==> job.id in m.coord.pending)
       && (job.id in m.coord.pending ==> job.id in m.hist.issued && job.id != HYDRATED_ID)
       && TimerAgrees(m, key) && LogAgrees(m, key)
  }

  lemma JobFactsHold(m: TM, key: Key)
    requires Inv(m) && key in m.tokens
    ensures JobFacts(m, key)
  {
    assert key in m.tokens.Keys;
  }

  lemma RestKeeps(m: TM, m': TM, key: Key)
    requires Inv(m) && InPhase(m, key, Finished(true)) && Resting(m, m', key, m.tokens[key].job)
    requires JobFacts(m, key) && m.coord.speculative[key].id == m.tokens[key].job.id
    ensures Inv(m')
  {
    var job := m.tokens[key].job;
    RestOwned(m, m', key, job);
    RestStamped(m, m', key, job);
    RestChained(m, m', key, job);
    RestFlagged(m, m', key, job);
    RestDone(m, m', key, job);
    SettleConfirmed(m, m', key, job, true);
    RestTimers(m, m', key, job);
    RestLog(m, m', key, job);
    SettleConserves(m, m', key, true);
    RestFailed(m, m', key, job);
    DoneDisciplined(m.hist.marks, m.hist.done, m.hist.failed, m.tokens, key, true);
  }

  lemma SettleConserves(m: TM, m': TM, key: Key, ok: bool)
    requires JobFacts(m, key) && InPhase(m, key, Finished(ok)) && Settling(m, m', key, m.tokens[key].job, ok)
    requires Flagged(m) && Conserved(m)
    ensures Conserved(m')
  {
    var job := m.tokens[key].job;
    if job.id in m.coord.pending {
      if ok {
        PublishedIsLogged(m.log, key, job.status);
      }
      SettleAnswered(m, m', key, job, ok);
    } else {
      SettleUnanswered(m, m', key, job, ok);
    }
  }

  /** What the invariant says of the entry dispatched next. */
  lemma NextEntryFacts(m: TM, key: Key, ok: bool)
    requires Inv(m) && JobFacts(m, key)
    requires ok ==> m.coord.speculative[key].id != m.tokens[key].job.id
    ensures var e := NextEntry(m, key, ok);
            var job := m.tokens[key].job;
            && Owned(key, e.status) && Stamped(m.hist, key, e.status, e.id)
            && (if ok then job.id else ConfirmedId(m.coord, key)) <= e.id < m.coord.nextId
            && e.id !in m.hist.failed
            && (!ok && job.userInitiated ==> e.id != job.id)
            && (e.id in m.coord.pending ==> e.id != HYDRATED_ID && e.id !in m.hist.done)
  {
    if !ok && RollsBack(m, key) {
      if key !in m.coord.confirmed {
        assert key !in Start(m.hist.hydrated).confirmed;
      }
    }
  }

  /** No other key mentions the id of an outstanding user job. */
  lemma UserIdIsPrivate(m: TM, key: Key, id: nat)
    requires AllStamped(m) && id != HYDRATED_ID && id in m.hist.issued && m.hist.issued[id].key == key
    ensures forall k :: k in m.coord.speculative && k != key ==> m.coord.speculative[k].id != id
    ensures forall k :: k in m.coord.confirmed && k != key ==> m.coord.confirmed[k].id != id
    ensures forall k :: k in m.tokens && k != key ==> m.tokens[k].job.id != id
  {}

  lemma RelaunchDisciplined(m: TM, m': TM, key: Key, job: Job, ok: bool, e: Entry)
    requires AllStamped(m) && Disciplined(m.hist.marks, m.hist.done, m.hist.failed, m.tokens)
    requires key in m.tokens && m.tokens[key].job == job && job.key == key
    requires Relaunching(m, m', key, job, ok, e)
    requires Stamped(m.hist, key, e.status, e.id) && e.id !in m'.hist.failed
    requires e.id in m.coord.pending ==> e.id != HYDRATED_ID && e.id !in m.hist.done
    ensures Disciplined(m'.hist.marks, m'.hist.done, m'.hist.failed, m'.tokens)
  {
    var next := JobFor(key, e, m.coord.pending.Keys - {job.id});
    var tokens := m.tokens - {key};
    DoneDisciplined(m.hist.marks, m.hist.done, m.hist.failed, m.tokens, key, ok);
    if next.userInitiated {
      UserIdIsPrivate(m, key, e.id);
      assert forall k :: k in tokens ==> tokens[k].job.id != next.id;
    }
    SentDisciplined(m.hist.marks + [Done(job, ok)], m'.hist.done, m'.hist.failed, tokens, next);
    assert tokens[key := m'.tokens[key]] == m'.tokens;
  }

  lemma RelaunchFails(m: TM, m': TM, key: Key, ok: bool)
    requires Inv(m) && JobFacts(m, key)
    requires ok ==> m.coord.speculative[key].id != m.tokens[key].job.id
    requires Relaunching(m, m', key, m.tokens[key].job, ok, NextEntry(m, key, ok))
    ensures FailedGone(m')
  {
    var (job, e) := (m.tokens[key].job, NextEntry(m, key, ok));
    assert e.id !in m.hist.failed && (!ok && job.userInitiated ==> e.id != job.id) by {
      NextEntryFacts(m, key, ok);
    }
    PendingIdIsPrivate(m, key);
    RelaunchFailed(m, m', key, job, ok, e);
  }

  lemma PendingIdIsPrivate(m: TM, key: Key)
    requires AllStamped(m) && Flagged(m) && JobFacts(m, key)
    ensures var job := m.tokens[key].job;
            job.userInitiated ==>
              && (forall k :: k in m.coord.speculative && k != key ==> m.coord.speculative[k].id != job.id)
              && (forall k :: k in m.coord.confirmed ==> m.coord.confirmed[k].id != job.id)
              && (forall k :: k in m.tokens && k != key ==> m.tokens[k].job.id != job.id)
  {
    var job := m.tokens[key].job;
    if job.userInitiated {
      UserIdIsPrivate(m, key, job.id);
      if key in m.coord.confirmed {
        assert m.coord.confirmed[key].id !in m.coord.pending;
      }
    }
  }

  lemma RelaunchKeepsJobs(m: TM, m': TM, key: Key, job: Job, ok: bool, e: Entry)
    requires AllOwned(m) && AllStamped(m) && OneToken(m) && Chained(m) && Flagged(m)
    requires JobFacts(m, key) && m.tokens[key].job == job
    requires Relaunching(m, m', key, job, ok, e)
    requires Owned(key, e.status) && Stamped(m.hist, key, e.status, e.id)
    requires (if ok then job.id else ConfirmedId(m.coord, key)) <= e.id < m.coord.nextId
    ensures AllOwned(m') && OneToken(m') && AllStamped(m') && Chained(m') && Flagged(m')
  {
    RelaunchOwned(m, m', key, job, ok, e);
    RelaunchStamped(m, m', key, job, ok, e);
    RelaunchChained(m, m', key, job, ok, e);
    RelaunchFlagged(m, m', key, job, ok, e);
  }

  lemma RelaunchKeepsWorld(m: TM, m': TM, key: Key, job: Job, ok: bool, e: Entry)
    requires ConfirmedIsCommitted(m) && TimersAgree(m) && LogsAgree(m)
    requires InPhase(m, key, Finished(ok)) && m.tokens[key].job == job
    requires Relaunching(m, m', key, job, ok, e)
    ensures ConfirmedIsCommitted(m') && TimersAgree(m') && LogsAgree(m')
  {
    SettleConfirmed(m, m', key, job, ok);
    RelaunchTimers(m, m', key, job, ok, e);
    RelaunchLog(m, m', key, job, ok, e);
  }

  lemma RelaunchKeeps(m: TM, m': TM, key: Key, ok: bool)
    requires Inv(m) && JobFacts(m, key) && InPhase(m, key, Finished(ok))
    requires ok ==> m.coord.speculative[key].id != m.tokens[key].job.id
    requires Relaunching(m, m', key, m.tokens[key].job, ok, NextEntry(m, key, ok))
    ensures Inv(m')
  {
    NextEntryFacts(m, key, ok);
    NextEntryDone(m, key, ok);
    RelaunchDone(m, m', key, m.tokens[key].job, ok, NextEntry(m, key, ok));
    RelaunchKeepsJobs(m, m', key, m.tokens[key].job, ok, NextEntry(m, key, ok));
    RelaunchKeepsWorld(m, m', key, m.tokens[key].job, ok, NextEntry(m, key, ok));
    SettleConserves(m, m', key, ok);
    RelaunchFails(m, m', key, ok);
    RelaunchDisciplined(m, m', key, m.tokens[key].job, ok, NextEntry(m, key, ok));
  }

  lemma SettleKeeps(m: TM, key: Key)
    requires Inv(m) && Enabled(m, Settle(key))
    ensures Inv(Settled(m, key))
  {
    JobFactsHold(m, key);
    var m' := Settled(m, key);
    if InPhase(m, key, Finished(false)) {
      FailShape(m, key);
      RelaunchKeeps(m, m', key, false);
    } else if m.coord.speculative[key].id == m.tokens[key].job.id {
      RestShape(m, key);
      RestKeeps(m, m', key);
    } else {
      RecommitShape(m, key);
      RelaunchKeeps(m, m', key, true);
    }
  }

  // ---- The steps outside the coordinator ----

  /** A token moves on within its job; timers and log may change for that key only. */
  ghost predicate Moving(m: TM, m': TM, key: Key) {
    && key in m.tokens && key in m'.tokens
    && m'.coord == m.coord && m'.hist == m.hist && m'.wakes == m.wakes
    && m'.tokens == m.tokens[key := Token(m.tokens[key].job, m'.tokens[key].phase)]
    && (forall k :: k != key ==> (k in m'.timers <==> k in m.timers))
    && (forall k :: k != key ==> LastPublished(m'.log, k) == LastPublished(m.log, k))
    && (forall p :: p in m.log ==> p in m'.log)
    && (forall p :: p in m'.log ==> p in m.log || p == Published(key, m.tokens[key].job.status))
  }

  lemma MoveOwned(m: TM, m': TM, key: Key)
    requires AllOwned(m) && Moving(m, m', key)
    ensures AllOwned(m')
  {
    assert Owned(key, m.tokens[key].job.status);
    forall k | k in m'.timers
      ensures Normal(k)
    {
      assert k == key || k in m.timers;
    }
  }

  lemma MoveJobs(m: TM, m': TM, key: Key)
    requires OneToken(m) && AllStamped(m) && Chained(m) && Flagged(m) && FailedGone(m) && Moving(m, m', key)
    requires DoneIsConfirmed(m)
    ensures OneToken(m') && AllStamped(m') && Chained(m') && Flagged(m') && FailedGone(m') && DoneIsConfirmed(m')
  {
    assert m'.tokens.Keys == m.tokens.Keys;
    assert forall k :: k in m.tokens ==> m'.tokens[k].job == m.tokens[k].job;
  }

  lemma MoveHistory(m: TM, m': TM, key: Key)
    requires Moving(m, m', key) && Conserved(m)
    requires Disciplined(m.hist.marks, m.hist.done, m.hist.failed, m.tokens)
    ensures Conserved(m')
    ensures Disciplined(m'.hist.marks, m'.hist.done, m'.hist.failed, m'.tokens)
  {}

  lemma MoveAgrees(m: TM, m': TM, key: Key)
    requires Moving(m, m', key) && TimersAgree(m) && LogsAgree(m)
    requires TimerAgrees(m', key) && LogAgrees(m', key)
    ensures TimersAgree(m') && LogsAgree(m')
  {
    forall k
      ensures TimerAgrees(m', k) && LogAgrees(m', k)
    {
      assert TimerAgrees(m, k) && LogAgrees(m, k);
    }
  }

  lemma MoveKeeps(m: TM, m': TM, key: Key)
    requires Inv(m) && Moving(m, m', key)
    requires TimerAgrees(m', key) && LogAgrees(m', key)
    ensures Inv(m')
  {
    MoveOwned(m, m', key);
    MoveJobs(m, m', key);
    MoveHistory(m, m', key);
    MoveAgrees(m, m', key);
  }

  lemma ArmMoves(m: TM, key: Key, clock: Clock)
    requires Enabled(m, Arm(key, clock)) && JobFacts(m, key)
    ensures var m' := AfterArm(m, key, clock);
            Moving(m, m', key) && TimerAgrees(m', key) && LogAgrees(m', key)
  {
    CommandEffect(m.timers, SnoozeInput(key, m.tokens[key].job.status.wake), clock);
  }

  lemma ArmKeeps(m: TM, key: Key, clock: Clock)
    requires Inv(m) && Enabled(m, Arm(key, clock))
    ensures Inv(AfterArm(m, key, clock))
  {
    JobFactsHold(m, key);
    ArmMoves(m, key, clock);
    MoveKeeps(m, AfterArm(m, key, clock), key);
  }

  lemma AttemptKeeps(m: TM, key: Key, ok: bool, appended: bool, last: bool)
    requires Inv(m) && Enabled(m, Attempt(key, ok, appended, last))
    ensures Inv(AfterAttempt(m, key, ok, appended, last))
  {
    JobFactsHold(m, key);
    AttemptMoves(m, key, ok, appended, last);
    MoveKeeps(m, AfterAttempt(m, key, ok, appended, last), key);
  }

  lemma AttemptMoves(m: TM, key: Key, ok: bool, appended: bool, last: bool)
    requires Enabled(m, Attempt(key, ok, appended, last)) && JobFacts(m, key)
    ensures var m' := AfterAttempt(m, key, ok, appended, last);
            Moving(m, m', key) && TimerAgrees(m', key) && LogAgrees(m', key)
  {
    var m' := AfterAttempt(m, key, ok, appended, last);
    var p := Published(key, m.tokens[key].job.status);
    forall k
      ensures LastPublished(m'.log, k) == if appended && k == key then Some(p.status) else LastPublished(m.log, k)
    {
      LastPublishedAppend(m.log, p, k);
    }
  }

  /** Only timers and wakes change, and every key's timer still agrees. */
  lemma ClockKeeps(m: TM, m': TM)
    requires Inv(m)
    requires m' == m.(timers := m'.timers, wakes := m'.wakes)
    requires forall k :: k in m'.timers ==> k in m.timers
    requires forall k :: k in m'.wakes ==> k in m.wakes || k in m.timers
    requires forall k :: TimerAgrees(m', k)
    ensures Inv(m')
  {
    forall k
      ensures LogAgrees(m', k)
    {
      assert LogAgrees(m, k);
    }
  }

  lemma FireKeeps(m: TM, key: Key)
    requires Inv(m) && key in m.timers
    ensures Inv(Step(m, Fire(key)))
  {
    var m' := Step(m, Fire(key));
    forall k
      ensures TimerAgrees(m', k)
    {
      assert TimerAgrees(m, k);
    }
    ClockKeeps(m, m');
  }

  /** A wake is refused only when its key is not snoozed: at rest its confirmed status, otherwise its
      latest intent, is not bypassed. */
  lemma RefusedWakeKeeps(m: TM, key: Key, now: int)
    requires Inv(m) && key in m.wakes && !AcceptsInput(m, WakeStatus(key, now))
    ensures Inv(Step(m, WakeUp(key, now)))
  {
    var m' := Step(m, WakeUp(key, now));
    WakeShape(m, key, now);
    assert key in m.tokens.Keys <==> key in m.coord.speculative.Keys;
    if key in m.tokens {
      JobFactsHold(m, key);
    }
    forall k
      ensures TimerAgrees(m', k)
    {
      assert TimerAgrees(m, k);
    }
    ClockKeeps(m, m');
  }

  lemma WakeShape(m: TM, key: Key, now: int)
    requires AllOwned(m) && key in m.wakes
    ensures KeyOf(WakeStatus(key, now)) == key && Owned(key, WakeStatus(key, now))
  {}

  lemma AcceptedWakeShape(m: TM, key: Key, now: int)
    requires AllOwned(m) && OneToken(m) && AllStamped(m) && Flagged(m)
    requires key in m.wakes && AcceptsInput(m, WakeStatus(key, now))
    ensures Accepting(m, Step(m, WakeUp(key, now)), key, WakeStatus(key, now), false)
  {
    WakeShape(m, key, now);
    AcceptShape(m.(wakes := m.wakes - multiset{key}), key, WakeStatus(key, now), None);
  }

  lemma WakeKeeps(m: TM, key: Key, now: int)
    requires Inv(m) && key in m.wakes
    ensures Inv(Step(m, WakeUp(key, now)))
  {
    WakeShape(m, key, now);
    if AcceptsInput(m, WakeStatus(key, now)) {
      AcceptedWakeShape(m, key, now);
      AcceptKeeps(m, Step(m, WakeUp(key, now)), key, WakeStatus(key, now), false);
    } else {
      RefusedWakeKeeps(m, key, now);
    }
  }

  lemma InputKeeps(m: TM, key: Key, status: Status, caller: Option<Confirmation>)
    requires Inv(m) && Owned(key, status)
    ensures Inv(Accept(m, key, status, caller))
  {
    AcceptShape(m, key, status, caller);
    AcceptKeeps(m, Accept(m, key, status, caller), key, status, caller.Some?);
  }

  lemma InputEventKeeps(m: TM, status: Status)
    requires Inv(m) && status.wake.None?
    ensures Inv(Step(m, Input(status)))
  {
    KeyOfIsNormal(status);
    InputKeeps(m, KeyOf(status), status, None);
  }

  lemma CommandEventKeeps(m: TM, e: Event)
    requires Inv(m) && e.Command? && Normal(e.key)
    ensures Inv(Step(m, e))
  {
    if UserAccepted(m.coord, e.key, e.action) {
      CommandOwned(e);
      InputKeeps(m, e.key, UserStatus(e.key, e.action, e.user, e.now), Some(e.caller));
    }
  }

  lemma CommandOwned(e: Event)
    requires e.Command? && Normal(e.key)
    ensures Owned(e.key, UserStatus(e.key, e.action, e.user, e.now))
  {}

  /** Every step from a state satisfying the invariant, on admissible inputs, satisfies it again. */
  lemma StepKeeps(m: TM, e: Event)
    requires Inv(m) && Enabled(m, e) && Admissible(e)
    ensures Inv(Step(m, e))
  {
    match e
    case Input(status) => InputEventKeeps(m, status);
    case Command(_, _, _, _, _) => CommandEventKeeps(m, e);
    case WakeUp(key, now) => WakeKeeps(m, key, now);
    case Settle(key) => SettleKeeps(m, key);
    case Arm(key, clock) => ArmKeeps(m, key, clock);
    case Attempt(key, ok, appended, last) => AttemptKeeps(m, key, ok, appended, last);
    case Fire(key) => FireKeeps(m, key);
  }

  /** Statuses hydrated at startup sit under normal keys of their own source and carry a wake time only
      when bypassed. */
  ghost predicate Hydration(hydrated: map<Key, Status>) {
    forall k :: k in hydrated ==> Owned(k, hydrated[k])
  }

  lemma InitHolds(hydrated: map<Key, Status>)
    requires Hydration(hydrated)
    ensures Inv(Init(hydrated))
  {
    var m := Init(hydrated);
    assert m.coord.confirmed + m.hist.committed == m.coord.confirmed;
  }

  ghost predicate Runs(m: TM, events: seq<Event>, m': TM)
    decreases |events|
  {
    if events == [] then m' == m
    else Enabled(m, events[0]) && Admissible(events[0]) && Runs(Step(m, events[0]), events[1..], m')
  }

  ghost predicate Reachable(hydrated: map<Key, Status>, m: TM) {
    exists events :: Runs(Init(hydrated), events, m)
  }

  lemma {:induction false} RunKeeps(m: TM, events: seq<Event>, m': TM)
    requires Inv(m) && Runs(m, events, m')
    ensures Inv(m')
    decreases |events|
  {
    if events != [] {
      StepKeeps(m, events[0]);
      RunKeeps(Step(m, events[0]), events[1..], m');
    }
  }

  /** The invariant holds in every reachable state. */
  lemma ReachableHolds(hydrated: map<Key, Status>, m: TM)
    requires Hydration(hydrated) && Reachable(hydrated, m)
    ensures Inv(m)
  {
    var events :| Runs(Init(hydrated), events, m);
    InitHolds(hydrated);
    RunKeeps(Init(hydrated), events, m);
  }

  // ---- Keys without any job in this run ----

  /** A key that has neither a job nor a commit has no timer and no wake under way. */
  ghost predicate Untouched(m: TM, k: Key) {
    k !in m.tokens && k !in m.hist.committed ==> k !in m.timers && k !in m.wakes
  }

  lemma SettleUntouched(m: TM, key: Key, k: Key)
    requires Inv(m) && Enabled(m, Settle(key)) && Untouched(m, k)
    ensures Untouched(Settled(m, key), k)
  {
    JobFactsHold(m, key);
    if InPhase(m, key, Finished(false)) {
      FailShape(m, key);
    } else if m.coord.speculative[key].id == m.tokens[key].job.id {
      RestShape(m, key);
    } else {
      RecommitShape(m, key);
    }
  }

  lemma AcceptUntouched(m: TM, key: Key, status: Status, caller: Option<Confirmation>, k: Key)
    requires Untouched(m, k)
    ensures Untouched(Accept(m, key, status, caller), k)
  {}

  lemma MoveUntouched(m: TM, e: Event, k: Key)
    requires Enabled(m, e) && (e.Arm? || e.Attempt? || e.Fire?) && Untouched(m, k)
    ensures Untouched(Step(m, e), k)
  {
    match e
    case Arm(key, clock) => assert key in AfterArm(m, key, clock).tokens;
    case Attempt(key, ok, appended, last) => assert key in AfterAttempt(m, key, ok, appended, last).tokens;
    case Fire(key) =>
  }

  lemma StepUntouched(m: TM, e: Event, k: Key)
    requires Enabled(m, e) && !e.Settle? && Untouched(m, k)
    ensures Untouched(Step(m, e), k)
  {
    match e
    case Input(status) => AcceptUntouched(m, KeyOf(status), status, None, k);
    case Command(key, action, user, caller, now) =>
      AcceptUntouched(m, key, UserStatus(key, action, user, now), Some(caller), k);
    case WakeUp(key, now) =>
      AcceptUntouched(m.(wakes := m.wakes - multiset{key}), KeyOf(WakeStatus(key, now)), WakeStatus(key, now), None, k);
    case _ => MoveUntouched(m, e, k);
  }

  lemma {:induction false} RunUntouched(m: TM, events: seq<Event>, m': TM, k: Key)
    requires Inv(m) && Runs(m, events, m') && Untouched(m, k)
    ensures Untouched(m', k)
    decreases |events|
  {
    if events != [] {
      if events[0].Settle? {
        SettleUntouched(m, events[0].key, k);
      } else {
        StepUntouched(m, events[0], k);
      }
      StepKeeps(m, events[0]);
      RunUntouched(Step(m, events[0]), events[1..], m', k);
    }
  }

  lemma ReachableUntouched(hydrated: map<Key, Status>, m: TM, k: Key)
    requires Hydration(hydrated) && Reachable(hydrated, m)
    ensures Untouched(m, k)
  {
    var events :| Runs(Init(hydrated), events, m);
    InitHolds(hydrated);
    RunUntouched(Init(hydrated), events, m, k);
  }
}
