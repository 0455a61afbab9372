/** The snooze scheduler: one timer per key, kept in a registry and a delay queue that must agree. */
module Snooze {
  import opened Types
  import opened Messages

  /** Both clocks the scheduler reads: the wall clock in nanoseconds since the Unix epoch, and the
      monotonic clock in nanoseconds. */
  datatype Clock = Clock(utc: int, instant: int)

  const NANOS_PER_SECOND := 1_000_000_000
  const MAX_DELAY := 365 * 24 * 3600 * NANOS_PER_SECOND

  /** The range of seconds that a UTC date-time can represent. */
  const MIN_UTC_SECONDS := -8_334_601_228_800
  const MAX_UTC_SECONDS := 8_210_266_876_799

  function WakeInstant(wake: Timestamp, clock: Clock): Option<int> {
    if MIN_UTC_SECONDS <= wake.seconds <= MAX_UTC_SECONDS then
      var duration := wake.seconds * NANOS_PER_SECOND - clock.utc;
      if duration < 0 then None
      else Some(clock.instant + if duration <= MAX_DELAY then duration else MAX_DELAY)
    else
      None
  }

  datatype Decision = Set(key: Key, wake: Timestamp) | Cancel(key: Key)

  function Decide(input: SnoozeInput): Decision {
    match input.wake
    case Some(timestamp) => Set(input.key, timestamp)
    case None => Cancel(input.key)
  }

  /** The timers as a caller sees them: each key with its deadline. */
  type Timers = map<Key, int>

  datatype Scheduled = Scheduled(timers: Timers, outcome: SnoozeOutcome)

  function OnInput(timers: Timers, input: SnoozeInput, clock: Clock): Scheduled {
    match Decide(input)
    case Set(key, wake) =>
      (match WakeInstant(wake, clock)
       case Some(instant) => Scheduled(timers[key := instant], Accepted(key))
       case None => Scheduled(timers, InvalidWake(key)))
    case Cancel(key) => Scheduled(timers - {key}, Accepted(key))
  }

  /** The wake's second is one that a UTC date-time can represent, and it has not passed. */
  predicate IsFuture(wake: Timestamp, clock: Clock) {
    -8_334_601_228_800 <= wake.seconds <= 8_210_266_876_799 && clock.utc <= wake.seconds * 1_000_000_000
  }

  /** The wake's second on the monotonic clock, or one year (365 days, in nanoseconds) from now. */
  function Deadline(wake: Timestamp, clock: Clock): int {
    var delay := wake.seconds * 1_000_000_000 - clock.utc;
    clock.instant + if delay <= 31_536_000_000_000_000 then delay else 31_536_000_000_000_000
  }

  /** A wake is accepted exactly when its second is representable and has not passed; the timer then
      waits until that second or for one year, whichever is sooner. A wake equal to the present
      instant is accepted and fires at once. */
  lemma WakeDeadline(wake: Timestamp, clock: Clock)
    ensures WakeInstant(wake, clock).Some? <==>
            MIN_UTC_SECONDS <= wake.seconds <= MAX_UTC_SECONDS && clock.utc <= wake.seconds * NANOS_PER_SECOND
    ensures WakeInstant(wake, clock).Some? ==>
              var delay := WakeInstant(wake, clock).value - clock.instant;
              && 0 <= delay <= MAX_DELAY
              && (delay < MAX_DELAY ==> clock.utc + delay == wake.seconds * NANOS_PER_SECOND)
              && clock.utc + delay <= wake.seconds * NANOS_PER_SECOND
    ensures WakeInstant(wake, clock) == if IsFuture(wake, clock) then Some(Deadline(wake, clock)) else None
    ensures forall nanos :: WakeInstant(Timestamp(wake.seconds, nanos), clock) == WakeInstant(wake, clock)
  {}

  /** What a command does to the timers: an accepted command leaves its key a timer exactly when it
      asked for a wake, at the deadline of that wake whether or not it had one before; a rejected one
      changes nothing, and no other key is ever touched. */
  lemma CommandEffect(timers: Timers, input: SnoozeInput, clock: Clock)
    ensures var after := OnInput(timers, input, clock);
            && (forall k :: k != input.key ==>
                  (k in after.timers <==> k in timers) && (k in timers ==> after.timers[k] == timers[k]))
            && after.outcome.key == input.key && !after.outcome.Expired?
            && (after.outcome.Accepted? ==> (input.key in after.timers <==> input.wake.Some?))
            && (after.outcome.InvalidWake? ==> after.timers == timers && input.wake.Some?)
            && (input.wake.None? ==> after.outcome.Accepted?)
            && (input.wake.Some? ==> (after.outcome.Accepted? <==> IsFuture(input.wake.value, clock)))
            && (after.outcome.Accepted? && input.wake.Some? ==>
                  after.timers == timers[input.key := Deadline(input.wake.value, clock)])
            && (after.outcome.Accepted? && input.wake.None? ==> after.timers == timers - {input.key})
  {}

  datatype Timer = Timer(key: Key, deadline: int)

  /** Registry and queue are inverse to each other, and `next` is a handle not in use. */
  ghost predicate Paired(registry: map<Key, nat>, queue: map<nat, Timer>, next: nat) {
    && (forall k :: k in registry ==> registry[k] in queue && queue[registry[k]].key == k)
    && (forall h :: h in queue ==> queue[h].key in registry && registry[queue[h].key] == h)
    && (forall h :: h in queue ==> h < next)
  }

  ghost function Deadlines(registry: map<Key, nat>, queue: map<nat, Timer>): Timers
    requires forall k :: k in registry ==> registry[k] in queue
  {
    map k | k in registry :: queue[registry[k]].deadline
  }

  lemma ResetPairs(registry: map<Key, nat>, queue: map<nat, Timer>, next: nat, key: Key, instant: int)
    requires Paired(registry, queue, next) && key in registry
    ensures var queue' := queue[registry[key] := Timer(key, instant)];
            && Paired(registry, queue', next)
            && Deadlines(registry, queue') == Deadlines(registry, queue)[key := instant]
  {}

  lemma InsertPairs(registry: map<Key, nat>, queue: map<nat, Timer>, next: nat, key: Key, instant: int)
    requires Paired(registry, queue, next) && key !in registry
    ensures var (registry', queue') := (registry[key := next], queue[next := Timer(key, instant)]);
            && Paired(registry', queue', next + 1)
            && Deadlines(registry', queue') == Deadlines(registry, queue)[key := instant]
            && |registry'| == |registry| + 1
  {
    assert next !in queue;
  }

  lemma DropPairs(registry: map<Key, nat>, queue: map<nat, Timer>, next: nat, key: Key)
    requires Paired(registry, queue, next) && key in registry
    ensures var (registry', queue') := (registry - {key}, queue - {registry[key]});
            && Paired(registry', queue', next)
            && Deadlines(registry', queue') == Deadlines(registry, queue) - {key}
            && |registry'| == |registry| - 1
  {
    assert registry.Keys == (registry - {key}).Keys + {key};
  }

  class SnoozeScheduler {
    /** Handles into the delay queue, by alarm key. */
    var registry: map<Key, nat>
    var delayQueue: map<nat, Timer>
    var nextHandle: nat

    var snoozeSets: nat
    var snoozeCancels: nat
    var snoozeInvalidWakes: nat
    var snoozeExpirations: nat
    var inFlightSnoozeTimers: int

    /** One timer per registered key, and the gauge counts the timers. */
    ghost predicate Valid()
      reads this
    {
      && Paired(registry, delayQueue, nextHandle)
      && inFlightSnoozeTimers == |registry|
      && inFlightSnoozeTimers == snoozeSets - snoozeCancels - snoozeExpirations
    }

    ghost function Pending(): Timers
      requires Valid()
      reads this
    {
      Deadlines(registry, delayQueue)
    }

    constructor ()
      ensures Valid() && Pending() == map[]
      ensures snoozeSets == snoozeCancels == snoozeInvalidWakes == snoozeExpirations == 0
    {
      registry, delayQueue, nextHandle := map[], map[], 0;
      snoozeSets, snoozeCancels, snoozeInvalidWakes, snoozeExpirations := 0, 0, 0, 0;
      inFlightSnoozeTimers := 0;
    }

    method ResetTimer(key: Key, instant: int)
      requires Valid() && key in registry
      modifies this`delayQueue
      ensures Valid() && Pending() == old(Pending())[key := instant]
    {
      ResetPairs(registry, delayQueue, nextHandle, key, instant);
      delayQueue := delayQueue[registry[key] := Timer(key, instant)];
    }

    method InsertTimer(key: Key, instant: int)
      requires Valid() && key !in registry
      modifies this`registry, this`delayQueue, this`nextHandle, this`snoozeSets, this`inFlightSnoozeTimers
      ensures Valid() && Pending() == old(Pending())[key := instant]
      ensures snoozeSets == old(snoozeSets) + 1
    {
      InsertPairs(registry, delayQueue, nextHandle, key, instant);
      var handle := nextHandle;
      nextHandle := nextHandle + 1;
      delayQueue := delayQueue[handle := Timer(key, instant)];
      registry := registry[key := handle];
      snoozeSets := snoozeSets + 1;
      inFlightSnoozeTimers := inFlightSnoozeTimers + 1;
    }

    /** Removes a timer from both structures. */
    method DropTimer(key: Key)
      requires Paired(registry, delayQueue, nextHandle) && key in registry
      modifies this`registry, this`delayQueue
      ensures Paired(registry, delayQueue, nextHandle) && |registry| == |old(registry)| - 1
      ensures Deadlines(registry, delayQueue) == Deadlines(old(registry), old(delayQueue)) - {key}
    {
      DropPairs(registry, delayQueue, nextHandle, key);
      var handle := registry[key];
      registry := registry - {key};
      delayQueue := delayQueue - {handle};
    }

    method CancelTimer(key: Key)
      requires Valid()
      modifies this
      ensures Valid() && Pending() == old(Pending()) - {key}
      ensures snoozeCancels == old(snoozeCancels) + if old(key in registry) then 1 else 0
      ensures snoozeSets == old(snoozeSets) && snoozeInvalidWakes == old(snoozeInvalidWakes)
      ensures snoozeExpirations == old(snoozeExpirations)
    {
      if key in registry {
        DropTimer(key);
        snoozeCancels := snoozeCancels + 1;
        inFlightSnoozeTimers := inFlightSnoozeTimers - 1;
      } else {
        assert Pending() - {key} == Pending();
      }
    }

    method HandleSnoozeInput(input: SnoozeInput, clock: Clock) returns (outcome: SnoozeOutcome)
      requires Valid()
      modifies this
      ensures Valid() && Scheduled(Pending(), outcome) == OnInput(old(Pending()), input, clock)
      ensures outcome == if input.wake.Some? && !IsFuture(input.wake.value, clock)
                         then InvalidWake(input.key) else Accepted(input.key)
      ensures Pending() == if outcome.InvalidWake? then old(Pending())
                           else if input.wake.Some?
                           then old(Pending())[input.key := Deadline(input.wake.value, clock)]
                           else old(Pending()) - {input.key}
      ensures snoozeSets == old(snoozeSets) +
                            if outcome.Accepted? && input.wake.Some? && input.key !in old(Pending()) then 1 else 0
      ensures snoozeCancels == old(snoozeCancels) +
                               if input.wake.None? && input.key in old(Pending()) then 1 else 0
      ensures snoozeInvalidWakes == old(snoozeInvalidWakes) + if outcome.InvalidWake? then 1 else 0
      ensures snoozeExpirations == old(snoozeExpirations)
    {
      match Decide(input) {
        case Set(key, wake) =>
          match WakeInstant(wake, clock) {
            case Some(instant) =>
              if key in registry {
                ResetTimer(key, instant);
              } else {
                InsertTimer(key, instant);
              }
              outcome := Accepted(key);
            case None =>
              snoozeInvalidWakes := snoozeInvalidWakes + 1;
              outcome := InvalidWake(key);
          }
        case Cancel(key) =>
          CancelTimer(key);
          outcome := Accepted(key);
      }
    }

    /** The delay queue yields the timer behind `handle`; exactly that key's timer disappears. */
    method HandleExpiry(handle: nat) returns (outcome: SnoozeOutcome)
      requires Valid() && handle in delayQueue
      modifies this
      ensures Valid() && outcome.Expired? && outcome.key == old(delayQueue)[handle].key
      ensures outcome.key in old(Pending()) && Pending() == old(Pending()) - {outcome.key}
      ensures snoozeExpirations == old(snoozeExpirations) + 1
      ensures snoozeSets == old(snoozeSets) && snoozeCancels == old(snoozeCancels)
      ensures snoozeInvalidWakes == old(snoozeInvalidWakes)
    {
      var key := delayQueue[handle].key;
      DropTimer(key);
      snoozeExpirations := snoozeExpirations + 1;
      inFlightSnoozeTimers := inFlightSnoozeTimers - 1;
      outcome := Expired(key);
    }
  }
}
