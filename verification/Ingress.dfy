/** Automated ingress under overload: any number of handle clones, one drain task, one bounded queue.
    Every lock section, `try_send` and `send` is one atomic step, in any order. */
module Ingress {
  import opened Types
  import opened Keys

  /** The retained updates in order of first arrival, one per key. */
  type Pending = seq<(Key, Status)>

  predicate Distinct(pending: Pending) {
    forall i, j :: 0 <= i < j < |pending| ==> pending[i].0 != pending[j].0
  }

  /** Inserting replaces the value of a retained key where it stands; a new key goes to the back. */
  function Insert(pending: Pending, key: Key, status: Status): Pending {
    if pending == [] then [(key, status)]
    else if pending[0].0 == key then [(key, status)] + pending[1..]
    else [pending[0]] + Insert(pending[1..], key, status)
  }

  function Statuses(pending: Pending): seq<Status> {
    seq(|pending|, i requires 0 <= i < |pending| => pending[i].1)
  }

  predicate KeyedByStatus(pending: Pending) {
    forall i :: 0 <= i < |pending| ==> pending[i].0 == KeyOf(pending[i].1)
  }

  datatype Drain = Waiting | Active | Holding(status: Status)

  /** Where a clone stands in its call: between calls, past the first lock section with the update in
      hand, or refused by the full queue. */
  datatype Sender = Idle | Offering(status: Status) | Refused(status: Status)

  datatype Overload = Overload(mode: bool, entered: bool, pending: Pending)

  datatype Metrics = Metrics(retained: nat, entries: nat, exits: nat, queueFull: nat)

  datatype Ingress = Ingress(
    senders: map<nat, Sender>,
    overload: Overload,
    permit: bool,
    drain: Drain,
    capacity: nat,
    /** Everything ever put on the queue; the coordinator has taken the first `taken`. */
    delivered: seq<Status>,
    taken: nat,
    metrics: Metrics,
    /** Every update whose call has returned, in the order of the returns. */
    sent: seq<Status>)

  function Start(clones: set<nat>, capacity: nat): Ingress {
    Ingress(map i | i in clones :: Idle, Overload(false, false, []), false, Waiting, capacity, [], 0,
            Metrics(0, 0, 0, 0), [])
  }

  datatype Event =
    | Call(clone: nat, status: Status)
    | Offer(clone: nat)
    | Retain(clone: nat)
    | Wake
    | Pop
    | Send
    | Take

  predicate HasRoom(s: Ingress) {
    |s.delivered| - s.taken < s.capacity
  }

  predicate Enabled(s: Ingress, e: Event) {
    match e
    case Call(i, _) => i in s.senders && s.senders[i] == Idle
    case Offer(i) => i in s.senders && s.senders[i].Offering?
    case Retain(i) => i in s.senders && s.senders[i].Refused?
    case Wake => s.drain.Waiting? && s.permit
    case Pop => s.drain.Active?
    case Send => s.drain.Holding? && HasRoom(s)
    case Take => s.taken < |s.delivered|
  }

  // ---- The lock sections, as functions on what the lock protects ----

  datatype Locked = Locked(overload: Overload, metrics: Metrics)

  /** First lock section of a call: in overload mode the update is retained and the call is over. */
  function AfterCall(l: Locked, status: Status): Locked {
    if l.overload.mode then
      var pending := Insert(l.overload.pending, KeyOf(status), status);
      Locked(l.overload.(pending := pending), l.metrics.(retained := |pending|))
    else l
  }

  /** Second lock section, entered when the queue was full. */
  function AfterRefusal(l: Locked, status: Status): Locked {
    var pending := Insert(l.overload.pending, KeyOf(status), status);
    Locked(Overload(true, true, pending),
           l.metrics.(retained := |pending|, entries := l.metrics.entries + 1))
  }

  /** The drain task's lock section: the oldest retained update, or the end of overload mode. */
  function AfterPop(l: Locked): (Locked, Option<Status>) {
    var pending := l.overload.pending;
    if pending != [] then
      (Locked(l.overload.(pending := pending[1..]), l.metrics.(retained := |pending| - 1)), Some(pending[0].1))
    else
      (Locked(Overload(false, false, []),
              l.metrics.(retained := 0, exits := l.metrics.exits + if l.overload.entered then 1 else 0)), None)
  }

  function LockedPart(s: Ingress): Locked {
    Locked(s.overload, s.metrics)
  }

  function WithLocked(s: Ingress, l: Locked): Ingress {
    s.(overload := l.overload, metrics := l.metrics)
  }

  function Step(s: Ingress, e: Event): Ingress
    requires Enabled(s, e)
  {
    match e
    case Call(i, status) =>
      var s1 := WithLocked(s, AfterCall(LockedPart(s), status));
      if s.overload.mode then s1.(sent := s.sent + [status])
      else s1.(senders := s.senders[i := Offering(status)])
    case Offer(i) =>
      var status := s.senders[i].status;
      if HasRoom(s) then
        s.(delivered := s.delivered + [status], sent := s.sent + [status], senders := s.senders[i := Idle])
      else
        s.(senders := s.senders[i := Refused(status)],
        metrics := s.metrics.(queueFull := s.metrics.queueFull + 1))
    case Retain(i) =>
      var status := s.senders[i].status;
      WithLocked(s, AfterRefusal(LockedPart(s), status)).(
      permit := true, sent := s.sent + [status], senders := s.senders[i := Idle])
    case Wake => s.(drain := Active, permit := false)
    case Pop =>
      var (l, next) := AfterPop(LockedPart(s));
      WithLocked(s, l).(drain := if next.Some? then Holding(next.value) else Waiting)
    case Send => s.(delivered := s.delivered + [s.drain.status], drain := Active)
    case Take => s.(taken := s.taken + 1)
  }

  ghost predicate Runs(s: Ingress, events: seq<Event>, s': Ingress)
    decreases |events|
  {
    if events == [] then s' == s
    else Enabled(s, events[0]) && Runs(Step(s, events[0]), events[1..], s')
  }

  ghost predicate Reachable(clones: set<nat>, capacity: nat, s: Ingress) {
    exists events :: Runs(Start(clones, capacity), events, s)
  }

  // ---- The retained map ----

  predicate Retains(pending: Pending, key: Key) {
    exists i :: 0 <= i < |pending| && pending[i].0 == key
  }

  lemma RetainsTail(pending: Pending, key: Key)
    requires pending != [] && pending[0].0 != key
    ensures Retains(pending, key) <==> Retains(pending[1..], key)
  {
    var tail := pending[1..];
    if Retains(tail, key) {
      var i :| 0 <= i < |tail| && tail[i].0 == key;
      assert pending[i + 1].0 == key;
    }
    if Retains(pending, key) {
      var i :| 0 <= i < |pending| && pending[i].0 == key;
      assert tail[i - 1].0 == key;
    }
  }

  /** After an insertion the keys are distinct, the inserted key has the inserted value, every other
      value is where it was. */
  lemma {:induction false} InsertSpec(pending: Pending, key: Key, status: Status)
    requires Distinct(pending)
    ensures var after := Insert(pending, key, status);
            && Distinct(after)
            && |after| == |pending| + (if Retains(pending, key) then 0 else 1)
            && (forall i :: 0 <= i < |pending| ==>
                  after[i] == if pending[i].0 == key then (key, status) else pending[i])
            && (!Retains(pending, key) ==> after == pending + [(key, status)])
  {
    if pending != [] {
      var (head, tail) := (pending[0], pending[1..]);
      assert forall i :: 0 <= i < |tail| ==> tail[i] == pending[i + 1];
      if head.0 == key {
        assert Retains(pending, key);
      } else {
        InsertSpec(tail, key, status);
        RetainsTail(pending, key);
      }
    }
  }

  // ---- No lost wake-up ----

  /** Whatever is retained will be drained: retaining means overload mode, and overload mode means that
      the drain task is at work or has a permit waiting. The gauge counts what is retained. */
  ghost predicate Safe(s: Ingress) {
    && Distinct(s.overload.pending)
    && KeyedByStatus(s.overload.pending)
    && (s.overload.pending != [] ==> s.overload.mode)
    && (s.overload.mode ==> !s.drain.Waiting? || s.permit)
    && (s.drain.Holding? ==> s.overload.mode)
    && s.overload.entered == s.overload.mode
    && s.metrics.retained == |s.overload.pending|
    && s.metrics.exits + (if s.overload.mode then 1 else 0) <= s.metrics.entries
    && s.taken <= |s.delivered| <= s.taken + s.capacity
  }

  lemma InsertSafe(pending: Pending, key: Key, status: Status)
    requires Distinct(pending) && KeyedByStatus(pending) && key == KeyOf(status)
    ensures var after := Insert(pending, key, status);
            Distinct(after) && KeyedByStatus(after) && after != []
  {
    InsertSpec(pending, key, status);
    var after := Insert(pending, key, status);
    forall i | 0 <= i < |after|
      ensures after[i].0 == KeyOf(after[i].1)
    {
      if i < |pending| {
        assert after[i] == if pending[i].0 == key then (key, status) else pending[i];
      }
    }
  }

  lemma StepSafe(s: Ingress, e: Event)
    requires Safe(s) && Enabled(s, e)
    ensures Safe(Step(s, e))
  {
    match e
    case Call(i, status) => InsertSafe(s.overload.pending, KeyOf(status), status);
    case Retain(i) => InsertSafe(s.overload.pending, KeyOf(s.senders[i].status), s.senders[i].status);
    case _ =>
  }

  /** What each step counts: a refusal by a full queue, an update retained after one, and the end of overload
      mode; the gauge follows what is retained. A call goes straight through exactly if the queue has room. */
  lemma StepCounts(s: Ingress, e: Event)
    requires Safe(s) && Enabled(s, e)
    ensures var s' := Step(s, e);
            && s'.metrics.retained == |s'.overload.pending|
            && s'.metrics.entries == s.metrics.entries + (if e.Retain? then 1 else 0)
            && s'.metrics.exits == s.metrics.exits + (if s.overload.mode && !s'.overload.mode then 1 else 0)
            && s'.metrics.queueFull == s.metrics.queueFull
                                       + (if e.Offer? && |s.delivered| >= s.taken + s.capacity then 1 else 0)
            && (e.Offer? ==> (s'.delivered == s.delivered + [s.senders[e.clone].status] <==>
                              |s.delivered| < s.taken + s.capacity))
            && (s'.overload.mode != s.overload.mode ==> if s.overload.mode then e.Pop? else e.Retain?)
  {
    if e.Retain? {
      InsertSafe(s.overload.pending, KeyOf(s.senders[e.clone].status), s.senders[e.clone].status);
    }
  }

  lemma {:induction false} RunSafe(s: Ingress, events: seq<Event>, s': Ingress)
    requires Safe(s) && Runs(s, events, s')
    ensures Safe(s')
    decreases |events|
  {
    if events != [] {
      StepSafe(s, events[0]);
      RunSafe(Step(s, events[0]), events[1..], s');
    }
  }

  /** For any number of clones and at every interleaving. */
  lemma NoLostWakeUp(clones: set<nat>, capacity: nat, s: Ingress)
    requires Reachable(clones, capacity, s)
    ensures s.overload.pending != [] ==> s.overload.mode && (!s.drain.Waiting? || Enabled(s, Event.Wake))
    ensures !s.overload.mode ==> s.overload.pending == [] && !s.drain.Holding?
    ensures Distinct(s.overload.pending) && s.metrics.retained == |s.overload.pending|
    ensures s.metrics.exits <= s.metrics.entries
    ensures |s.delivered| - s.taken <= capacity
  {
    var events :| Runs(Start(clones, capacity), events, s);
    RunSafe(Start(clones, capacity), events, s);
    CapacityFixed(Start(clones, capacity), events, s);
  }

  lemma {:induction false} CapacityFixed(s: Ingress, events: seq<Event>, s': Ingress)
    requires Runs(s, events, s')
    ensures s'.capacity == s.capacity && s'.senders.Keys == s.senders.Keys
    decreases |events|
  {
    if events != [] {
      CapacityFixed(Step(s, events[0]), events[1..], s');
    }
  }

  // ---- Coalescing ----

  /** The statuses of one key, in order. */
  function Of(key: Key, statuses: seq<Status>): seq<Status> {
    if statuses == [] then []
    else
      var (front, last) := (statuses[..|statuses| - 1], statuses[|statuses| - 1]);
      if KeyOf(last) == key then Of(key, front) + [last] else Of(key, front)
  }

  predicate Subsequence(a: seq<Status>, b: seq<Status>) {
    if a == [] then true
    else if b == [] then false
    else if a[|a| - 1] == b[|b| - 1] && Subsequence(a[..|a| - 1], b[..|b| - 1]) then true
    else Subsequence(a, b[..|b| - 1])
  }

  /** `out` leaves out some of `all`, but not the last one. */
  predicate Coalesces(out: seq<Status>, all: seq<Status>) {
    && Subsequence(out, all)
    && (all == [] <==> out == [])
    && (all != [] && out != [] ==> out[|out| - 1] == all[|all| - 1])
  }

  lemma SubsequenceBoth(a: seq<Status>, b: seq<Status>, x: Status)
    requires Subsequence(a, b)
    ensures Subsequence(a + [x], b + [x])
  {
    assert (a + [x])[..|a|] == a && (b + [x])[..|b|] == b;
  }

  lemma SubsequenceMore(a: seq<Status>, b: seq<Status>, x: Status)
    requires Subsequence(a, b)
    ensures Subsequence(a, b + [x])
  {
    assert (b + [x])[..|b|] == b;
    if a != [] && a[|a| - 1] == x && !Subsequence(a[..|a| - 1], b) {
    }
  }

  lemma {:induction false} SubsequenceLess(a: seq<Status>, y: Status, b: seq<Status>)
    requires Subsequence(a + [y], b)
    ensures Subsequence(a, b)
  {
    assert (a + [y])[..|a|] == a;
    if a != [] {
      var front := b[..|b| - 1];
      assert b == front + [b[|b| - 1]];
      if !(y == b[|b| - 1] && Subsequence(a, front)) {
        SubsequenceLess(a, y, front);
      }
      SubsequenceMore(a, front, b[|b| - 1]);
    }
  }

  lemma {:induction false} OfAppend(key: Key, a: seq<Status>, b: seq<Status>)
    ensures Of(key, a + b) == Of(key, a) + Of(key, b)
  {
    if b == [] {
      assert a + b == a;
    } else {
      var (front, last) := (b[..|b| - 1], b[|b| - 1]);
      assert (a + b)[..|a + b| - 1] == a + front;
      OfAppend(key, a, front);
    }
  }

  lemma OfOne(key: Key, a: seq<Status>, x: Status)
    ensures Of(key, a + [x]) == if KeyOf(x) == key then Of(key, a) + [x] else Of(key, a)
  {
    assert (a + [x])[..|a|] == a;
  }

  lemma {:induction false} SubsequencePrefix(a: seq<Status>, b: seq<Status>, all: seq<Status>)
    requires Subsequence(a + b, all)
    ensures Subsequence(a, all)
    decreases |b|
  {
    if b == [] {
      assert a + b == a;
    } else {
      var (front, last) := (b[..|b| - 1], b[|b| - 1]);
      assert a + b == (a + front) + [last];
      SubsequenceLess(a + front, last, all);
      SubsequencePrefix(a, front, all);
    }
  }

  lemma OfFirst(key: Key, x: Status, rest: seq<Status>)
    ensures Of(key, [x] + rest) == if KeyOf(x) == key then [x] + Of(key, rest) else Of(key, rest)
  {
    OfAppend(key, [x], rest);
    OfOne(key, [], x);
    assert [] + [x] == [x];
  }

  lemma OfPending(head: (Key, Status), tail: Pending, key: Key)
    ensures Of(key, Statuses([head] + tail)) ==
            if KeyOf(head.1) == key then [head.1] + Of(key, Statuses(tail)) else Of(key, Statuses(tail))
  {
    assert Statuses([head] + tail) == [head.1] + Statuses(tail);
    OfFirst(key, head.1, Statuses(tail));
  }

  lemma {:induction false} OfNotRetained(pending: Pending, key: Key)
    requires KeyedByStatus(pending) && !Retains(pending, key)
    ensures Of(key, Statuses(pending)) == []
  {
    if pending != [] {
      var (head, tail) := (pending[0], pending[1..]);
      assert pending == [head] + tail;
      OfPending(head, tail, key);
      assert forall i :: 0 <= i < |tail| ==> tail[i] == pending[i + 1];
      OfNotRetained(tail, key);
    }
  }

  /** Inserting leaves one status of the inserted key, the new one, and touches no other key. */
  lemma {:induction false} InsertOf(pending: Pending, key: Key, status: Status, k: Key)
    requires Distinct(pending) && KeyedByStatus(pending) && key == KeyOf(status)
    ensures Of(k, Statuses(Insert(pending, key, status)))
         == if k == key then [status] else Of(k, Statuses(pending))
  {
    if pending == [] {
      OfPending((key, status), [], k);
    } else {
      var (head, tail) := (pending[0], pending[1..]);
      assert pending == [head] + tail;
      OfPending(head, tail, k);
      if head.0 == key {
        OfPending((key, status), tail, k);
        assert !Retains(tail, key);
        OfNotRetained(tail, key);
      } else {
        OfPending(head, Insert(tail, key, status), k);
        InsertOf(tail, key, status, k);
      }
    }
  }

  function Hand(s: Ingress): seq<Status> {
    if s.drain.Holding? then [s.drain.status] else []
  }

  /** What the coordinator gets if no further update comes. */
  function Ahead(s: Ingress): seq<Status> {
    s.delivered + Hand(s) + Statuses(s.overload.pending)
  }

  ghost predicate Sound(s: Ingress) {
    forall key :: Coalesces(Of(key, Ahead(s)), Of(key, s.sent))
  }

  /** A retained update is replaced by a newer one of its key. */
  lemma CoalescesInsert(key: Key, front: seq<Status>, pending: Pending, sent: seq<Status>, x: Status)
    requires Distinct(pending) && KeyedByStatus(pending)
    requires Coalesces(Of(key, front + Statuses(pending)), Of(key, sent))
    ensures Coalesces(Of(key, front + Statuses(Insert(pending, KeyOf(x), x))), Of(key, sent + [x]))
  {
    var (before, after) := (Statuses(pending), Statuses(Insert(pending, KeyOf(x), x)));
    InsertOf(pending, KeyOf(x), x, key);
    OfAppend(key, front, before);
    OfAppend(key, front, after);
    OfOne(key, sent, x);
    if KeyOf(x) == key {
      var (head, all) := (Of(key, front), Of(key, sent));
      SubsequencePrefix(head, Of(key, before), all);
      SubsequenceBoth(head, all, x);
    }
  }

  /** What waits to be delivered for a key: the update in the drain task's hand and the retained one. */
  function Undelivered(s: Ingress, key: Key): seq<Status> {
    Of(key, Hand(s) + Statuses(s.overload.pending))
  }

  /** The event puts no update on the queue directly while another one of its key waits. */
  predicate Uncontested(s: Ingress, e: Event)
    requires Enabled(s, e)
  {
    e.Offer? && HasRoom(s) ==> Undelivered(s, KeyOf(s.senders[e.clone].status)) == []
  }

  lemma AheadSplits(s: Ingress, key: Key)
    ensures Of(key, Ahead(s)) == Of(key, s.delivered) + Undelivered(s, key)
  {
    assert Ahead(s) == s.delivered + (Hand(s) + Statuses(s.overload.pending));
    OfAppend(key, s.delivered, Hand(s) + Statuses(s.overload.pending));
  }

  lemma OfferSound(s: Ingress, i: nat, key: Key)
    requires Enabled(s, Offer(i)) && HasRoom(s) && Uncontested(s, Offer(i))
    requires Coalesces(Of(key, Ahead(s)), Of(key, s.sent))
    ensures var s' := Step(s, Offer(i)); Coalesces(Of(key, Ahead(s')), Of(key, s'.sent))
  {
    var x := s.senders[i].status;
    OfferAhead(s, i, key);
    OfOne(key, s.sent, x);
    if KeyOf(x) == key {
      SubsequenceBoth(Of(key, Ahead(s)), Of(key, s.sent), x);
    }
  }

  lemma OfferAhead(s: Ingress, i: nat, key: Key)
    requires Enabled(s, Offer(i)) && HasRoom(s) && Uncontested(s, Offer(i))
    ensures var x := s.senders[i].status;
            Of(key, Ahead(Step(s, Offer(i)))) == if KeyOf(x) == key then Of(key, Ahead(s)) + [x] else Of(key, Ahead(s))
  {
    AheadSplits(s, key);
    OfferSplits(s, i, key);
  }

  lemma StepSound(s: Ingress, e: Event)
    requires Safe(s) && Sound(s) && Enabled(s, e) && Uncontested(s, e)
    ensures Sound(Step(s, e))
  {
    var s' := Step(s, e);
    forall key
      ensures Coalesces(Of(key, Ahead(s')), Of(key, s'.sent))
    {
      StepSoundAt(s, e, key);
    }
  }

  lemma StepSoundAt(s: Ingress, e: Event, key: Key)
    requires Safe(s) && Enabled(s, e) && Uncontested(s, e)
    requires Coalesces(Of(key, Ahead(s)), Of(key, s.sent))
    ensures var s' := Step(s, e); Coalesces(Of(key, Ahead(s')), Of(key, s'.sent))
  {
    match e {
      case Call(_, status) =>
        if s.overload.mode {
          CoalescesInsert(key, s.delivered + Hand(s), s.overload.pending, s.sent, status);
        }
      case Offer(i) =>
        if HasRoom(s) {
          OfferSound(s, i, key);
        }
      case Retain(i) =>
        CoalescesInsert(key, s.delivered + Hand(s), s.overload.pending, s.sent, s.senders[i].status);
      case _ => DrainKeepsAhead(s, e);
    }
  }

  lemma DrainKeepsAhead(s: Ingress, e: Event)
    requires Enabled(s, e) && (e.Wake? || e.Pop? || e.Send? || e.Take?)
    ensures Ahead(Step(s, e)) == Ahead(s) && Step(s, e).sent == s.sent
  {
    var pending := s.overload.pending;
    if e.Pop? && pending != [] {
      assert Statuses(pending) == [pending[0].1] + Statuses(pending[1..]);
    }
  }

  function Newest(key: Key, statuses: seq<Status>): Option<Status> {
    var mine := Of(key, statuses);
    if mine == [] then None else Some(mine[|mine| - 1])
  }

  /** And the condition is exact: when an update is put on the queue directly, the newest update of its key
      is still the newest sent if and only if none of that key waits, or the last one that waits is the
      same update. */
  lemma DirectSendIff(s: Ingress, i: nat)
    requires Enabled(s, Offer(i)) && HasRoom(s)
    ensures var x := s.senders[i].status;
            var (s', waiting) := (Step(s, Offer(i)), Undelivered(s, KeyOf(x)));
            Newest(KeyOf(x), Ahead(s')) == Newest(KeyOf(x), s'.sent) <==>
            waiting == [] || waiting[|waiting| - 1] == x
  {
    var x := s.senders[i].status;
    OfferSplits(s, i, KeyOf(x));
    OfOne(KeyOf(x), s.sent, x);
  }

  lemma OfferSplits(s: Ingress, i: nat, key: Key)
    requires Enabled(s, Offer(i)) && HasRoom(s)
    ensures var x := s.senders[i].status;
            Of(key, Ahead(Step(s, Offer(i)))) ==
            Of(key, s.delivered) + (if KeyOf(x) == key then [x] else []) + Undelivered(s, key)
  {
    var s' := Step(s, Offer(i));
    assert s'.overload == s.overload && s'.drain == s.drain && s'.delivered == s.delivered + [s.senders[i].status];
    AheadSplits(s', key);
    OfOne(key, s.delivered, s.senders[i].status);
  }

  ghost predicate AllUncontested(s: Ingress, events: seq<Event>)
    decreases |events|
  {
    events == [] ||
    (Enabled(s, events[0]) && Uncontested(s, events[0]) && AllUncontested(Step(s, events[0]), events[1..]))
  }

  lemma {:induction false} RunSound(s: Ingress, events: seq<Event>, s': Ingress)
    requires Safe(s) && Sound(s) && Runs(s, events, s') && AllUncontested(s, events)
    ensures Safe(s') && Sound(s')
    decreases |events|
  {
    if events != [] {
      StepSafe(s, events[0]);
      StepSound(s, events[0]);
      RunSound(Step(s, events[0]), events[1..], s');
    }
  }

  // ---- Calls that do not overlap ----

  /** A clone is called only when no call is under way. */
  predicate Alone(s: Ingress, e: Event) {
    e.Call? ==> forall i :: i in s.senders ==> s.senders[i] == Idle
  }

  ghost predicate AllAlone(s: Ingress, events: seq<Event>)
    decreases |events|
  {
    events == [] ||
    (Enabled(s, events[0]) && Alone(s, events[0]) && AllAlone(Step(s, events[0]), events[1..]))
  }

  /** At most one call is under way, and then overload mode is off. */
  ghost predicate OneAtATime(s: Ingress) {
    && (forall i, j :: i in s.senders && j in s.senders && s.senders[i] != Idle && s.senders[j] != Idle ==> i == j)
    && (forall i :: i in s.senders && s.senders[i] != Idle ==> !s.overload.mode)
  }

  lemma StepAlone(s: Ingress, e: Event)
    requires Safe(s) && OneAtATime(s) && Enabled(s, e) && Alone(s, e)
    ensures OneAtATime(Step(s, e)) && Uncontested(s, e)
  {}

  lemma {:induction false} RunAlone(s: Ingress, events: seq<Event>)
    requires Safe(s) && OneAtATime(s) && AllAlone(s, events)
    ensures AllUncontested(s, events)
    decreases |events|
  {
    if events != [] {
      StepSafe(s, events[0]);
      StepAlone(s, events[0]);
      RunAlone(Step(s, events[0]), events[1..]);
    }
  }

  /** Coalescing is sound for any number of clones, as long as their calls do not overlap: at every
      interleaving with the drain task and the coordinator, the newest status of each key over what is
      delivered, then in the drain task's hand, then retained, is the newest one sent; what is delivered
      for a key is a subsequence of what was sent for it; and once nothing of the key waits, the queue
      itself ends with the newest. */
  lemma CoalescingIsSound(clones: set<nat>, capacity: nat, events: seq<Event>, s: Ingress, key: Key)
    requires Runs(Start(clones, capacity), events, s) && AllAlone(Start(clones, capacity), events)
    ensures Newest(key, Ahead(s)) == Newest(key, s.sent)
    ensures Subsequence(Of(key, s.delivered), Of(key, s.sent))
    ensures Undelivered(s, key) == [] ==> Newest(key, s.delivered) == Newest(key, s.sent)
  {
    AloneRunSound(clones, capacity, events, s);
    SoundAt(s, key);
  }

  lemma AloneRunSound(clones: set<nat>, capacity: nat, events: seq<Event>, s: Ingress)
    requires Runs(Start(clones, capacity), events, s) && AllAlone(Start(clones, capacity), events)
    ensures Sound(s)
  {
    var start := Start(clones, capacity);
    assert Ahead(start) == [];
    RunAlone(start, events);
    RunSound(start, events, s);
  }

  lemma SoundAt(s: Ingress, key: Key)
    requires Sound(s)
    ensures Newest(key, Ahead(s)) == Newest(key, s.sent)
    ensures Subsequence(Of(key, s.delivered), Of(key, s.sent))
    ensures Undelivered(s, key) == [] ==> Newest(key, s.delivered) == Newest(key, s.sent)
  {
    assert Coalesces(Of(key, Ahead(s)), Of(key, s.sent));
    AheadSplits(s, key);
    SubsequencePrefix(Of(key, s.delivered), Undelivered(s, key), Of(key, s.sent));
  }

  lemma {:induction false} LoneSenderIsAlone(s: Ingress, clone: nat, events: seq<Event>, s': Ingress)
    requires s.senders.Keys == {clone} && Runs(s, events, s')
    ensures AllAlone(s, events)
    decreases |events|
  {
    if events != [] {
      assert forall i :: i in s.senders ==> i == clone;
      LoneSenderIsAlone(Step(s, events[0]), clone, events[1..], s');
    }
  }

  /** With one clone, every run is such a run. */
  lemma OneSenderIsSound(clone: nat, capacity: nat, events: seq<Event>, s: Ingress, key: Key)
    requires Runs(Start({clone}, capacity), events, s)
    ensures Newest(key, Ahead(s)) == Newest(key, s.sent)
    ensures Subsequence(Of(key, s.delivered), Of(key, s.sent))
  {
    LoneSenderIsAlone(Start({clone}, capacity), clone, events, s);
    CoalescingIsSound({clone}, capacity, events, s, key);
  }

  // ---- Calls that overlap ----

  /** A finished call: what it sent, and when it was called and returned. */
  datatype Op = Op(status: Status, called: nat, returned: nat)

  /** The number of steps so far, when each call under way began, and the finished calls in the order of
      their returns. */
  datatype History = History(now: nat, started: map<nat, nat>, done: seq<Op>)

  const NEW := History(0, map[], [])

  function StartOf(h: History, i: nat): nat {
    if i in h.started then h.started[i] else 0
  }

  function Chronicled(h: History, s: Ingress, e: Event): History
    requires Enabled(s, e)
  {
    var h1 := h.(now := h.now + 1);
    match e
    case Call(i, x) =>
      if s.overload.mode then h1.(done := h.done + [Op(x, h.now, h.now)])
      else h1.(started := h.started[i := h.now])
    case Offer(i) =>
      if HasRoom(s) then h1.(done := h.done + [Op(s.senders[i].status, StartOf(h, i), h.now)]) else h1
    case Retain(i) => h1.(done := h.done + [Op(s.senders[i].status, StartOf(h, i), h.now)])
    case _ => h1
  }

  ghost predicate RunsWith(s: Ingress, h: History, events: seq<Event>, s': Ingress, h': History)
    decreases |events|
  {
    if events == [] then s' == s && h' == h
    else Enabled(s, events[0]) && RunsWith(Step(s, events[0]), Chronicled(h, s, events[0]), events[1..], s', h')
  }

  function StatusesOf(ops: seq<Op>): seq<Status> {
    seq(|ops|, i requires 0 <= i < |ops| => ops[i].status)
  }

  function OpsOf(key: Key, ops: seq<Op>): seq<Op> {
    if ops == [] then []
    else
      var (front, last) := (ops[..|ops| - 1], ops[|ops| - 1]);
      if KeyOf(last.status) == key then OpsOf(key, front) + [last] else OpsOf(key, front)
  }

  lemma OpsOfOne(key: Key, ops: seq<Op>, op: Op)
    ensures OpsOf(key, ops + [op]) == if KeyOf(op.status) == key then OpsOf(key, ops) + [op] else OpsOf(key, ops)
  {
    assert (ops + [op])[..|ops|] == ops;
  }

  /** No call comes before one that had returned when it was called. */
  ghost predicate RealTime(ops: seq<Op>) {
    forall i, j :: 0 <= i < j < |ops| ==> ops[i].called <= ops[j].returned
  }

  /** An order of the finished calls of one key, in three parts: those merged into what is delivered, into
      what the drain task has in hand, and into what is retained. */
  datatype Order = Order(passed: seq<Op>, inHand: seq<Op>, retained: seq<Op>) {
    function Whole(): seq<Op> {
      passed + (inHand + retained)
    }
  }

  function Extended(o: Order, s: Ingress, h: History, e: Event, key: Key): Order
    requires Enabled(s, e)
  {
    match e
    case Call(_, x) =>
      if s.overload.mode && KeyOf(x) == key then o.(retained := o.retained + [Op(x, h.now, h.now)]) else o
    case Offer(i) =>
      var x := s.senders[i].status;
      if HasRoom(s) && KeyOf(x) == key then o.(passed := o.passed + [Op(x, StartOf(h, i), h.now)]) else o
    case Retain(i) =>
      var x := s.senders[i].status;
      if KeyOf(x) == key then o.(retained := o.retained + [Op(x, StartOf(h, i), h.now)]) else o
    case Pop =>
      var pending := s.overload.pending;
      if pending != [] && pending[0].0 == key then Order(o.passed, o.retained, []) else o
    case Send =>
      if KeyOf(s.drain.status) == key then Order(o.passed + o.inHand, [], o.retained) else o
    case _ => o
  }

  ghost predicate Merged(s: Ingress, o: Order, key: Key) {
    && Coalesces(Of(key, s.delivered), StatusesOf(o.passed))
    && Coalesces(Of(key, Hand(s)), StatusesOf(o.inHand))
    && Coalesces(Of(key, Statuses(s.overload.pending)), StatusesOf(o.retained))
  }

  /** Calls take time; and a call under way began before anything that waits now was sent, because it found
      overload mode off. */
  ghost predicate Timely(s: Ingress, h: History, o: Order) {
    && (forall op :: op in o.Whole() ==> op.called <= op.returned <= h.now)
    && (forall i :: i in s.senders && s.senders[i] != Idle ==>
          StartOf(h, i) <= h.now && forall op :: op in o.inHand + o.retained ==> StartOf(h, i) <= op.returned)
  }

  ghost predicate Linear(s: Ingress, h: History, o: Order, key: Key) {
    && multiset(o.Whole()) == multiset(OpsOf(key, h.done))
    && RealTime(o.Whole())
    && Merged(s, o, key)
    && Timely(s, h, o)
  }

  lemma {:induction false} SubsequenceConcat(a: seq<Status>, b: seq<Status>, c: seq<Status>, d: seq<Status>)
    requires Subsequence(a, b) && Subsequence(c, d)
    ensures Subsequence(a + c, b + d)
    decreases |d|
  {
    if d == [] {
      assert a + c == a && b + d == b;
    } else {
      var (front, last) := (d[..|d| - 1], d[|d| - 1]);
      assert b + d == (b + front) + [last];
      if c != [] && c[|c| - 1] == last && Subsequence(c[..|c| - 1], front) {
        assert a + c == (a + c[..|c| - 1]) + [last];
        SubsequenceConcat(a, b, c[..|c| - 1], front);
        SubsequenceBoth(a + c[..|c| - 1], b + front, last);
      } else {
        SubsequenceConcat(a, b, c, front);
        SubsequenceMore(a + c, b + front, last);
      }
    }
  }

  lemma CoalescesConcat(a: seq<Status>, b: seq<Status>, c: seq<Status>, d: seq<Status>)
    requires Coalesces(a, b) && Coalesces(c, d)
    ensures Coalesces(a + c, b + d)
  {
    SubsequenceConcat(a, b, c, d);
  }

  lemma StatusesOfConcat(a: seq<Op>, b: seq<Op>)
    ensures StatusesOf(a + b) == StatusesOf(a) + StatusesOf(b)
  {}

  lemma CoalescesOne(out: seq<Status>, ops: seq<Op>, op: Op)
    requires Coalesces(out, StatusesOf(ops))
    ensures Coalesces(out + [op.status], StatusesOf(ops + [op]))
  {
    StatusesOfConcat(ops, [op]);
    SubsequenceBoth(out, StatusesOf(ops), op.status);
  }

  lemma MergesInto(ops: seq<Op>, op: Op)
    ensures Coalesces([op.status], StatusesOf(ops + [op]))
  {
    StatusesOfConcat(ops, [op]);
    SubsequenceBoth([], StatusesOf(ops), op.status);
    assert [] + [op.status] == [op.status];
  }

  lemma StartLinear(clones: set<nat>, capacity: nat, key: Key)
    ensures Linear(Start(clones, capacity), NEW, Order([], [], []), key)
  {
    assert StatusesOf([]) == [] && Statuses([]) == [];
    assert Order([], [], []).Whole() == [];
  }

  /** A finished call is put at the end: nothing had returned later than now. */
  lemma RetainLinear(h: History, o: Order, key: Key, op: Op)
    requires RealTime(o.Whole()) && multiset(o.Whole()) == multiset(OpsOf(key, h.done))
    requires forall a :: a in o.Whole() ==> a.called <= a.returned <= op.returned
    ensures var o' := o.(retained := o.retained + [op]);
            RealTime(o'.Whole()) && multiset(o'.Whole()) == multiset(OpsOf(key, h.done) + [op])
  {
    var (all, all') := (o.Whole(), o.(retained := o.retained + [op]).Whole());
    assert all' == all + [op];
    forall i, j | 0 <= i < j < |all'|
      ensures all'[i].called <= all'[j].returned
    {
      assert all'[i] in all;
    }
  }

  /** A call that went straight through is put before everything that waits, all of which returned after
      it had begun. */
  lemma OfferLinear(h: History, o: Order, key: Key, op: Op)
    requires RealTime(o.Whole()) && multiset(o.Whole()) == multiset(OpsOf(key, h.done))
    requires forall a :: a in o.Whole() ==> a.called <= a.returned <= op.returned
    requires forall b :: b in o.inHand + o.retained ==> op.called <= b.returned
    ensures var o' := o.(passed := o.passed + [op]);
            RealTime(o'.Whole()) && multiset(o'.Whole()) == multiset(OpsOf(key, h.done) + [op])
  {
    var (front, back) := (o.passed, o.inHand + o.retained);
    var (all, all') := (front + back, (front + [op]) + back);
    var n := |front|;
    assert forall i :: 0 <= i < |all'| && i != n ==> all'[i] == all[if i < n then i else i - 1];
    forall i, j | 0 <= i < j < |all'|
      ensures all'[i].called <= all'[j].returned
    {
      if i == n {
        assert all'[j] in back;
      } else if j == n {
        assert all'[i] in all;
      } else {
        var (i0, j0) := (if i < n then i else i - 1, if j < n then j else j - 1);
        assert all[i0].called <= all[j0].returned;
      }
    }
  }

  lemma MovesKeepWhole(o: Order, s: Ingress, h: History, e: Event, key: Key)
    requires Enabled(s, e) && (e.Wake? || e.Pop? || e.Send? || e.Take?)
    requires e.Pop? ==> o.inHand == []
    ensures Extended(o, s, h, e, key).Whole() == o.Whole()
    ensures forall op :: op in Extended(o, s, h, e, key).inHand + Extended(o, s, h, e, key).retained ==>
                           op in o.inHand + o.retained
  {}

  lemma OrderLinear(s: Ingress, h: History, o: Order, key: Key, e: Event)
    requires Linear(s, h, o, key) && Enabled(s, e)
    ensures var o' := Extended(o, s, h, e, key);
            RealTime(o'.Whole()) && multiset(o'.Whole()) == multiset(OpsOf(key, Chronicled(h, s, e).done))
  {
    match e
    case Call(_, x) =>
      if s.overload.mode {
        OpsOfOne(key, h.done, Op(x, h.now, h.now));
        RetainLinear(h, o, key, Op(x, h.now, h.now));
      }
    case Offer(i) =>
      if HasRoom(s) {
        var op := Op(s.senders[i].status, StartOf(h, i), h.now);
        OpsOfOne(key, h.done, op);
        OfferLinear(h, o, key, op);
      }
    case Retain(i) =>
      var op := Op(s.senders[i].status, StartOf(h, i), h.now);
      OpsOfOne(key, h.done, op);
      RetainLinear(h, o, key, op);
    case _ => MovesKeepWhole(o, s, h, e, key);
  }

  lemma InsertMerged(s: Ingress, o: Order, key: Key, op: Op)
    requires Safe(s) && Merged(s, o, key)
    ensures var pending := Insert(s.overload.pending, KeyOf(op.status), op.status);
            Coalesces(Of(key, Statuses(pending)),
                      StatusesOf(if KeyOf(op.status) == key then o.retained + [op] else o.retained))
  {
    InsertOf(s.overload.pending, KeyOf(op.status), op.status, key);
    MergesInto(o.retained, op);
  }

  lemma PopMerged(s: Ingress, h: History, o: Order, key: Key)
    requires Safe(s) && Merged(s, o, key) && Enabled(s, Pop)
    ensures Merged(Step(s, Pop), Extended(o, s, h, Pop, key), key)
  {
    var pending := s.overload.pending;
    if pending != [] {
      OldestOf(pending, key);
    }
  }

  /** The oldest retained update is the only one of its key. */
  lemma OldestOf(pending: Pending, key: Key)
    requires Distinct(pending) && KeyedByStatus(pending) && pending != []
    ensures Of(key, [pending[0].1]) == if pending[0].0 == key then [pending[0].1] else []
    ensures pending[0].0 == key ==>
              Of(key, Statuses(pending)) == [pending[0].1] && Of(key, Statuses(pending[1..])) == []
    ensures pending[0].0 != key ==> Of(key, Statuses(pending[1..])) == Of(key, Statuses(pending))
  {
    var (head, tail) := (pending[0], pending[1..]);
    assert pending == [head] + tail;
    OfPending(head, tail, key);
    OfOne(key, [], head.1);
    assert [] + [head.1] == [head.1];
    if head.0 == key {
      assert !Retains(tail, key);
      OfNotRetained(tail, key);
    }
  }

  lemma SendMerged(s: Ingress, h: History, o: Order, key: Key)
    requires Merged(s, o, key) && Enabled(s, Send)
    ensures Merged(Step(s, Send), Extended(o, s, h, Send, key), key)
  {
    var x := s.drain.status;
    OfOne(key, s.delivered, x);
    OfOne(key, [], x);
    assert [] + [x] == [x];
    if KeyOf(x) == key {
      assert Coalesces(Of(key, s.delivered) + [x], StatusesOf(o.passed + o.inHand)) by {
        CoalescesConcat(Of(key, s.delivered), StatusesOf(o.passed), [x], StatusesOf(o.inHand));
        StatusesOfConcat(o.passed, o.inHand);
      }
    }
    NothingCoalesces();
  }

  lemma NothingCoalesces()
    ensures Coalesces([], StatusesOf([]))
  {
    assert StatusesOf([]) == [];
  }

  lemma OfferMerged(s: Ingress, h: History, o: Order, key: Key, i: nat)
    requires Merged(s, o, key) && Enabled(s, Offer(i))
    ensures Merged(Step(s, Offer(i)), Extended(o, s, h, Offer(i), key), key)
  {
    if HasRoom(s) {
      var op := Op(s.senders[i].status, StartOf(h, i), h.now);
      OfOne(key, s.delivered, op.status);
      CoalescesOne(Of(key, s.delivered), o.passed, op);
    }
  }

  lemma StepMerged(s: Ingress, h: History, o: Order, key: Key, e: Event)
    requires Safe(s) && Merged(s, o, key) && Enabled(s, e)
    ensures Merged(Step(s, e), Extended(o, s, h, e, key), key)
  {
    match e
    case Call(_, x) =>
      if s.overload.mode {
        InsertMerged(s, o, key, Op(x, h.now, h.now));
      }
    case Offer(i) => OfferMerged(s, h, o, key, i);
    case Retain(i) => InsertMerged(s, o, key, Op(s.senders[i].status, StartOf(h, i), h.now));
    case Pop => PopMerged(s, h, o, key);
    case Send => SendMerged(s, h, o, key);
    case _ =>
  }

  lemma NothingWaits(s: Ingress, o: Order, key: Key)
    requires Safe(s) && Merged(s, o, key) && !s.overload.mode
    ensures o.inHand + o.retained == []
  {
    assert StatusesOf(o.inHand) == [] && StatusesOf(o.retained) == [];
  }

  lemma NothingInHand(s: Ingress, o: Order, key: Key)
    requires Merged(s, o, key) && !s.drain.Holding?
    ensures o.inHand == []
  {
    assert StatusesOf(o.inHand) == [];
  }

  lemma StepTimely(s: Ingress, h: History, o: Order, key: Key, e: Event)
    requires Safe(s) && Linear(s, h, o, key) && Enabled(s, e)
    ensures Timely(Step(s, e), Chronicled(h, s, e), Extended(o, s, h, e, key))
  {
    match e
    case Call(i, x) => CallTimely(s, h, o, key, i, x);
    case Offer(i) => OfferTimely(s, h, o, key, i);
    case Retain(i) => RetainTimely(s, h, o, key, i);
    case _ =>
      if e.Pop? {
        NothingInHand(s, o, key);
      }
      MovesKeepWhole(o, s, h, e, key);
  }

  /** A call that gets past the lock finds that nothing waits. */
  lemma CallTimely(s: Ingress, h: History, o: Order, key: Key, i: nat, x: Status)
    requires Safe(s) && Merged(s, o, key) && Timely(s, h, o) && Enabled(s, Call(i, x))
    ensures Timely(Step(s, Call(i, x)), Chronicled(h, s, Call(i, x)), Extended(o, s, h, Call(i, x), key))
  {
    if !s.overload.mode {
      NothingWaits(s, o, key);
    }
  }

  lemma OfferTimely(s: Ingress, h: History, o: Order, key: Key, i: nat)
    requires Timely(s, h, o) && Enabled(s, Offer(i))
    ensures Timely(Step(s, Offer(i)), Chronicled(h, s, Offer(i)), Extended(o, s, h, Offer(i), key))
  {}

  lemma RetainTimely(s: Ingress, h: History, o: Order, key: Key, i: nat)
    requires Timely(s, h, o) && Enabled(s, Retain(i))
    ensures Timely(Step(s, Retain(i)), Chronicled(h, s, Retain(i)), Extended(o, s, h, Retain(i), key))
  {}

  lemma StepLinear(s: Ingress, h: History, o: Order, key: Key, e: Event)
    requires Safe(s) && Linear(s, h, o, key) && Enabled(s, e)
    ensures Linear(Step(s, e), Chronicled(h, s, e), Extended(o, s, h, e, key), key)
  {
    if e.Pop? {
      NothingInHand(s, o, key);
    }
    OrderLinear(s, h, o, key, e);
    StepMerged(s, h, o, key, e);
    StepTimely(s, h, o, key, e);
  }

  lemma {:induction false} RunLinear(s: Ingress, h: History, o: Order, key: Key, events: seq<Event>, s': Ingress,
                                     h': History)
    returns (o': Order)
    requires Safe(s) && Linear(s, h, o, key) && RunsWith(s, h, events, s', h')
    ensures Linear(s', h', o', key)
    decreases |events|
  {
    if events == [] {
      o' := o;
    } else {
      StepSafe(s, events[0]);
      StepLinear(s, h, o, key, events[0]);
      o' := RunLinear(Step(s, events[0]), Chronicled(h, s, events[0]), Extended(o, s, h, events[0], key), key,
                      events[1..], s', h');
    }
  }

  /** In general, for any number of clones and at every interleaving, coalescing is sound up to the order of
      calls that overlap: the finished calls of each key can be ordered so that a call that returned before
      another was called comes first, the newest update of the key is the last of the order, and what is
      delivered is a subsequence of it. */
  lemma CoalescingIsLinearizable(clones: set<nat>, capacity: nat, events: seq<Event>, s: Ingress, h: History, key: Key)
    returns (order: seq<Op>)
    requires RunsWith(Start(clones, capacity), NEW, events, s, h)
    ensures multiset(order) == multiset(OpsOf(key, h.done)) && RealTime(order)
    ensures Newest(key, Ahead(s)) == if order == [] then None else Some(order[|order| - 1].status)
    ensures Subsequence(Of(key, s.delivered), StatusesOf(order))
  {
    StartLinear(clones, capacity, key);
    var o := RunLinear(Start(clones, capacity), NEW, Order([], [], []), key, events, s, h);
    order := o.Whole();
    WholeMerged(s, o, key);
    NewestOf(key, Ahead(s), order);
  }

  lemma NewestOf(key: Key, ahead: seq<Status>, order: seq<Op>)
    requires Coalesces(Of(key, ahead), StatusesOf(order))
    ensures Newest(key, ahead) == if order == [] then None else Some(order[|order| - 1].status)
  {
    assert StatusesOf(order) == [] <==> order == [];
  }

  lemma WholeMerged(s: Ingress, o: Order, key: Key)
    requires Merged(s, o, key)
    ensures Coalesces(Of(key, Ahead(s)), StatusesOf(o.Whole()))
    ensures Subsequence(Of(key, s.delivered), StatusesOf(o.Whole()))
  {
    var (hand, pending) := (Of(key, Hand(s)), Of(key, Statuses(s.overload.pending)));
    OfAppend(key, Hand(s), Statuses(s.overload.pending));
    AheadSplits(s, key);
    CoalescesConcat(hand, StatusesOf(o.inHand), pending, StatusesOf(o.retained));
    StatusesOfConcat(o.inHand, o.retained);
    CoalescesConcat(Of(key, s.delivered), StatusesOf(o.passed), hand + pending, StatusesOf(o.inHand + o.retained));
    StatusesOfConcat(o.passed, o.inHand + o.retained);
    SubsequencePrefix(Of(key, s.delivered), hand + pending, StatusesOf(o.Whole()));
  }

  /** The finished calls are those whose updates count as sent. */
  lemma {:induction false} DoneIsSent(s: Ingress, h: History, events: seq<Event>, s': Ingress, h': History)
    requires RunsWith(s, h, events, s', h') && StatusesOf(h.done) == s.sent
    ensures StatusesOf(h'.done) == s'.sent
    decreases |events|
  {
    if events != [] {
      var h1 := Chronicled(h, s, events[0]);
      if h1.done != h.done {
        assert h1.done == h.done + [h1.done[|h.done|]];
        StatusesOfConcat(h.done, [h1.done[|h.done|]]);
      }
      DoneIsSent(Step(s, events[0]), h1, events[1..], s', h');
    }
  }

  lemma {:induction false} RunsExtend(s: Ingress, events: seq<Event>, s1: Ingress, e: Event)
    requires Runs(s, events, s1) && Enabled(s1, e)
    ensures Runs(s, events + [e], Step(s1, e))
    decreases |events|
  {
    if events == [] {
      assert Runs(Step(s1, e), [], Step(s1, e));
      assert (events + [e])[1..] == [];
    } else {
      RunsExtend(Step(s, events[0]), events[1..], s1, e);
      assert (events + [e])[1..] == events[1..] + [e];
    }
  }

  lemma ReachableStep(clones: set<nat>, capacity: nat, s: Ingress, e: Event)
    requires Reachable(clones, capacity, s) && Enabled(s, e)
    ensures Reachable(clones, capacity, Step(s, e))
  {
    var events :| Runs(Start(clones, capacity), events, s);
    RunsExtend(Start(clones, capacity), events, s, e);
  }

  /** The queue is full and both clones are past the first lock section. */
  function Race(x: Status, y: Status): Ingress {
    Start({0, 1}, 1).(senders := map[0 := Offering(x), 1 := Offering(y)], delivered := [y], sent := [y])
  }

  lemma RaceReachable(x: Status, y: Status)
    ensures Reachable({0, 1}, 1, Race(x, y))
  {
    var s0 := Start({0, 1}, 1);
    assert Runs(s0, [], s0);
    ReachableStep({0, 1}, 1, s0, Call(1, y));
    var s1 := Step(s0, Call(1, y));
    ReachableStep({0, 1}, 1, s1, Offer(1));
    var s2 := Step(s1, Offer(1));
    ReachableStep({0, 1}, 1, s2, Call(0, x));
    var s3 := Step(s2, Call(0, x));
    ReachableStep({0, 1}, 1, s3, Call(1, y));
    assert Step(s3, Call(1, y)) == Race(x, y);
  }

  /** The order that `CoalescingIsLinearizable` finds need not be that of the returns: clone 1 is refused and
      retains `y` while clone 0, which was called before that and is past the lock, still puts `x` on the
      queue directly and returns last. In the order of the calls, `x` comes before the second `y`. */
  lemma OverlappingClonesCanSwap(x: Status, y: Status)
    requires KeyOf(x) == KeyOf(y)
    ensures exists s :: && Reachable({0, 1}, 1, s)
                        && Newest(KeyOf(x), s.sent) == Some(x) && Newest(KeyOf(x), Ahead(s)) == Some(y)
  {
    var s := RaceEnds(x, y);
    OfOne(KeyOf(x), [y, y], x);
    OfOne(KeyOf(x), [y, x], y);
  }

  lemma RaceEnds(x: Status, y: Status) returns (s: Ingress)
    ensures Reachable({0, 1}, 1, s) && s.sent == [y, y] + [x] && Ahead(s) == [y, x] + [y]
  {
    var s0 := Race(x, y);
    RaceReachable(x, y);
    ReachableStep({0, 1}, 1, s0, Offer(1));
    var s1 := Step(s0, Offer(1));
    ReachableStep({0, 1}, 1, s1, Retain(1));
    var s2 := Step(s1, Retain(1));
    ReachableStep({0, 1}, 1, s2, Take);
    var s3 := Step(s2, Take);
    ReachableStep({0, 1}, 1, s3, Offer(0));
    s := Step(s3, Offer(0));
  }

  // ---- The shared state under its lock ----

  /** What the handle clones and the drain task share, and the counters written under its lock. Each
      method is one lock section. */
  class OverloadState {
    var overloadMode: bool
    var entered: bool
    var pending: Pending
    var metrics: Metrics

    function View(): Locked
      reads this
    {
      Locked(Overload(overloadMode, entered, pending), metrics)
    }

    constructor ()
      ensures View() == LockedPart(Start({}, 0))
      ensures !overloadMode && !entered && pending == [] && metrics == Metrics(0, 0, 0, 0)
    {
      overloadMode, entered, pending, metrics := false, false, [], Metrics(0, 0, 0, 0);
    }

    /** Finds the retained update of `key` and replaces it in place, or appends. */
    method InsertPending(key: Key, status: Status)
      requires Distinct(pending)
      modifies this`pending
      ensures pending == Insert(old(pending), key, status)
    {
      InsertSpec(pending, key, status);
      ghost var before := pending;
      var i := 0;
      while i < |pending| && pending[i].0 != key
        invariant 0 <= i <= |pending|
        invariant forall j :: 0 <= j < i ==> pending[j].0 != key
      {
        i := i + 1;
      }
      if i < |pending| {
        assert Retains(before, key);
        pending := pending[i := (key, status)];
        assert pending == Insert(before, key, status);
      } else {
        pending := pending + [(key, status)];
      }
    }

    method RetainIfOverloaded(status: Status) returns (retained: bool)
      requires Distinct(pending)
      modifies this
      ensures View() == AfterCall(old(View()), status)
      ensures retained == old(overloadMode)
      ensures Distinct(pending)
    {
      retained := overloadMode;
      if overloadMode {
        InsertSpec(pending, KeyOf(status), status);
        InsertPending(KeyOf(status), status);
        metrics := metrics.(retained := |pending|);
      }
    }

    method RetainRefused(status: Status)
      requires Distinct(pending)
      modifies this
      ensures View() == AfterRefusal(old(View()), status)
      ensures Distinct(pending)
    {
      InsertSpec(pending, KeyOf(status), status);
      InsertPending(KeyOf(status), status);
      overloadMode := true;
      entered := true;
      metrics := metrics.(retained := |pending|, entries := metrics.entries + 1);
    }

    method PopOldest() returns (next: Option<Status>)
      requires Distinct(pending)
      modifies this
      ensures (View(), next) == AfterPop(old(View()))
      ensures Distinct(pending)
    {
      if pending != [] {
        next := Some(pending[0].1);
        pending := pending[1..];
        metrics := metrics.(retained := |pending|);
      } else {
        next := None;
        metrics := metrics.(retained := 0);
        overloadMode := false;
        if entered {
          entered := false;
          metrics := metrics.(exits := metrics.exits + 1);
        }
      }
    }
  }
}
