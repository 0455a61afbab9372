/** The workflow handler: runs each job through its effects, one at a time. */
module Workflow {
  import opened Types
  import opened Messages

  datatype WorkflowEffect = SnoozeEffect | PublishEffect

  const WORKFLOW_ORDER: seq<WorkflowEffect> := [SnoozeEffect, PublishEffect]

  datatype Tracked = Tracked(job: Job, step: nat)

  type Jobs = map<Key, Tracked>

  /** What handling one message does: either a panic (an `expect` that failed), or new tracked jobs
      together with the messages sent; `overran` marks a job pushed past its last effect. */
  datatype Handled =
    | Panic
    | Handled(jobs: Jobs, snoozes: seq<SnoozeInput>, publishes: seq<Publish>, outcomes: seq<JobOutcome>,
              overran: bool)

  function PublishFor(job: Job): Publish {
    var details := PublishDetails(job.key, job.status);
    if job.userInitiated then User(details) else Automated(details)
  }

  function Fail(jobs: Jobs, key: Key, overran: bool): Handled {
    if key !in jobs then Panic
    else Handled(jobs - {key}, [], [], [Failed(jobs[key].job)], overran)
  }

  function Advance(jobs: Jobs, key: Key): Handled {
    if key !in jobs then Panic
    else
      var Tracked(job, step) := jobs[key];
      var jobs' := jobs[key := Tracked(job, step + 1)];
      if step < |WORKFLOW_ORDER| then
        match WORKFLOW_ORDER[step]
        case SnoozeEffect => Handled(jobs', [SnoozeInput(key, job.status.wake)], [], [], false)
        case PublishEffect => Handled(jobs', [], [PublishFor(job)], [], false)
      else
        Fail(jobs', key, true)
  }

  /** A job at step 0 asks for its snooze, at step 1 for its publish, and from then on has overrun: it is
      dropped and reported as failed. Only a key without a job is a panic. */
  lemma AdvanceEffect(jobs: Jobs, key: Key)
    ensures Advance(jobs, key).Panic? <==> key !in jobs
    ensures key in jobs ==>
              var h := Advance(jobs, key);
              var Tracked(job, step) := jobs[key];
              && h.snoozes == (if step == 0 then [SnoozeInput(key, job.status.wake)] else [])
              && h.publishes == (if step != 1 then []
                                 else if job.userInitiated then [User(PublishDetails(job.key, job.status))]
                                 else [Automated(PublishDetails(job.key, job.status))])
              && h.outcomes == (if step < 2 then [] else [Failed(job)])
              && h.jobs == (if step < 2 then jobs[key := Tracked(job, step + 1)] else jobs - {key})
              && (h.overran <==> step >= 2)
  {
    if key in jobs && jobs[key].step >= 2 {
      assert jobs[key := Tracked(jobs[key].job, jobs[key].step + 1)] - {key} == jobs - {key};
    }
  }

  function OnJob(jobs: Jobs, job: Job): Handled {
    Advance(jobs[job.key := Tracked(job, 0)], job.key)
  }

  function OnSnooze(jobs: Jobs, outcome: SnoozeOutcome): Handled {
    match outcome
    case Accepted(key) => Advance(jobs, key)
    case Expired(key) => Handled(jobs, [], [], [Wake(key)], false)
    case InvalidWake(key) => Fail(jobs, key, false)
  }

  function OnResult(jobs: Jobs, result: PublishResult): Handled {
    if result.key !in jobs then Panic
    else
      var job := jobs[result.key].job;
      Handled(jobs - {result.key}, [], [], [if result.ok then Committed(job) else Failed(job)], false)
  }

  /** Handles the results of a batch from first to last. */
  function OnResults(jobs: Jobs, results: seq<PublishResult>): Handled {
    if results == [] then Handled(jobs, [], [], [], false)
    else
      var first := OnResult(jobs, results[0]);
      if first.Panic? then Panic
      else
        var rest := OnResults(first.jobs, results[1..]);
        if rest.Panic? then Panic else rest.(outcomes := first.outcomes + rest.outcomes)
  }

  predicate DistinctKeys(results: seq<PublishResult>) {
    forall i, j :: 0 <= i < j < |results| ==> results[i].key != results[j].key
  }

  predicate AllTracked(jobs: Jobs, results: seq<PublishResult>) {
    forall i :: 0 <= i < |results| ==> results[i].key in jobs
  }

  function KeysOf(results: seq<PublishResult>): set<Key> {
    set i | 0 <= i < |results| :: results[i].key
  }

  function OutcomeOf(jobs: Jobs, result: PublishResult): JobOutcome
    requires result.key in jobs
  {
    if result.ok then Committed(jobs[result.key].job) else Failed(jobs[result.key].job)
  }

  lemma HeadAndTail(jobs: Jobs, results: seq<PublishResult>)
    requires results != []
    ensures var (head, tail) := (results[0], results[1..]);
            && (DistinctKeys(results) && AllTracked(jobs, results) <==>
                  head.key in jobs && DistinctKeys(tail) && AllTracked(jobs - {head.key}, tail))
            && KeysOf(results) == {head.key} + KeysOf(tail)
  {
    var (head, tail) := (results[0], results[1..]);
    assert forall i {:trigger results[i]} :: 1 <= i < |results| ==> results[i] == tail[i - 1];
    assert forall i {:trigger tail[i]} :: 0 <= i < |tail| ==> tail[i] == results[i + 1];
  }

  /** A batch is handled without panic exactly when its keys are distinct and all tracked. */
  lemma {:induction false} BatchHandledIff(jobs: Jobs, results: seq<PublishResult>)
    ensures OnResults(jobs, results).Handled? <==> DistinctKeys(results) && AllTracked(jobs, results)
  {
    if results != [] {
      HeadAndTail(jobs, results);
      BatchHandledIff(jobs - {results[0].key}, results[1..]);
    }
  }

  /** A batch that is handled untracks precisely its keys and reports its results in order, each with
      the job that was tracked for it. */
  lemma {:induction false} BatchOutcomes(jobs: Jobs, results: seq<PublishResult>)
    requires DistinctKeys(results) && AllTracked(jobs, results)
    ensures var h := OnResults(jobs, results);
            && h.Handled?
            && h.jobs == jobs - KeysOf(results)
            && |h.outcomes| == |results|
            && forall i :: 0 <= i < |results| ==> h.outcomes[i] == OutcomeOf(jobs, results[i])
  {
    BatchHandledIff(jobs, results);
    if results != [] {
      var (head, tail) := (results[0], results[1..]);
      var rest := jobs - {head.key};
      HeadAndTail(jobs, results);
      BatchOutcomes(rest, tail);
      var h := OnResults(jobs, results);
      forall i | 0 <= i < |results|
        ensures h.outcomes[i] == OutcomeOf(jobs, results[i])
      {
        if i > 0 {
          assert OnResults(rest, tail).outcomes[i - 1] == OutcomeOf(rest, tail[i - 1]);
        }
      }
    }
  }

  function CommittedCount(outcomes: seq<JobOutcome>): nat {
    if outcomes == [] then 0
    else
      CommittedCount(outcomes[..|outcomes| - 1]) + if outcomes[|outcomes| - 1].Committed? then 1 else 0
  }

  lemma CommittedOne(outcomes: seq<JobOutcome>, next: JobOutcome)
    ensures CommittedCount(outcomes + [next]) == CommittedCount(outcomes) + if next.Committed? then 1 else 0
  {
    assert (outcomes + [next])[..|outcomes|] == outcomes;
  }

  function After(outcomes: seq<JobOutcome>, h: Handled): Handled {
    if h.Panic? then Panic else h.(outcomes := outcomes + h.outcomes)
  }

  lemma OneMoreResult(jobs: Jobs, jobs': Jobs, results: seq<PublishResult>, outcomes: seq<JobOutcome>, next: JobOutcome)
    requires results != [] && OnResult(jobs, results[0]) == Handled(jobs', [], [], [next], false)
    ensures After(outcomes, OnResults(jobs, results)) == After(outcomes + [next], OnResults(jobs', results[1..]))
  {
    var rest := OnResults(jobs', results[1..]);
    assert rest.Handled? ==> outcomes + ([next] + rest.outcomes) == (outcomes + [next]) + rest.outcomes;
  }

  class WorkflowHandler {
    var jobs: Jobs
    var jobsDispatched: nat
    var jobsCommitted: nat
    var jobsFailed: nat
    var snoozeWakes: nat

    constructor ()
      ensures jobs == map[] && jobsDispatched == jobsCommitted == jobsFailed == snoozeWakes == 0
    {
      jobs := map[];
      jobsDispatched, jobsCommitted, jobsFailed, snoozeWakes := 0, 0, 0, 0;
    }

    method RemoveWork(key: Key) returns (job: Job)
      requires key in jobs
      modifies this`jobs
      ensures job == old(jobs)[key].job && jobs == old(jobs) - {key}
    {
      job := jobs[key].job;
      jobs := jobs - {key};
    }

    method SendFailed(key: Key) returns (outcomes: seq<JobOutcome>)
      requires key in jobs
      modifies this`jobs, this`jobsFailed
      ensures Handled(jobs, [], [], outcomes, false) == Fail(old(jobs), key, false)
      ensures jobsFailed == old(jobsFailed) + 1
    {
      jobsFailed := jobsFailed + 1;
      var job := RemoveWork(key);
      outcomes := [Failed(job)];
    }

    method AdvanceWorkflow(key: Key)
      returns (snoozes: seq<SnoozeInput>, publishes: seq<Publish>, outcomes: seq<JobOutcome>, overran: bool)
      requires key in jobs
      modifies this`jobs, this`jobsFailed
      ensures Handled(jobs, snoozes, publishes, outcomes, overran) == Advance(old(jobs), key)
      ensures jobsFailed == old(jobsFailed) + |outcomes|
    {
      snoozes, publishes, outcomes, overran := [], [], [], false;
      var next := jobs[key].step;
      var job := jobs[key].job;
      jobs := jobs[key := Tracked(job, next + 1)];
      if next < |WORKFLOW_ORDER| {
        match WORKFLOW_ORDER[next] {
          case SnoozeEffect => snoozes := [SnoozeInput(key, job.status.wake)];
          case PublishEffect => publishes := [PublishFor(job)];
        }
      } else {
        overran := true;
        outcomes := SendFailed(key);
      }
    }

    method HandleNewJob(job: Job)
      returns (snoozes: seq<SnoozeInput>, publishes: seq<Publish>, outcomes: seq<JobOutcome>, overran: bool)
      modifies this
      ensures Handled(jobs, snoozes, publishes, outcomes, overran) == OnJob(old(jobs), job)
      ensures jobsDispatched == old(jobsDispatched) + 1
      ensures jobsCommitted == old(jobsCommitted) && jobsFailed == old(jobsFailed) && snoozeWakes == old(snoozeWakes)
    {
      jobsDispatched := jobsDispatched + 1;
      jobs := jobs[job.key := Tracked(job, 0)];
      snoozes, publishes, outcomes, overran := AdvanceWorkflow(job.key);
    }

    /** Reports a panic instead of raising it. */
    method HandleSnoozeResult(result: SnoozeOutcome)
      returns (panicked: bool, snoozes: seq<SnoozeInput>, publishes: seq<Publish>, outcomes: seq<JobOutcome>,
               overran: bool)
      modifies this
      ensures panicked <==> OnSnooze(old(jobs), result).Panic?
      ensures !panicked ==> Handled(jobs, snoozes, publishes, outcomes, overran) == OnSnooze(old(jobs), result)
      ensures !panicked ==> jobsFailed == old(jobsFailed) + if result.Expired? then 0 else |outcomes|
      ensures snoozeWakes == old(snoozeWakes) + if result.Expired? then 1 else 0
      ensures jobsDispatched == old(jobsDispatched) && jobsCommitted == old(jobsCommitted)
    {
      panicked, snoozes, publishes, outcomes, overran := false, [], [], [], false;
      match result {
        case Accepted(key) =>
          if key !in jobs {
            panicked := true;
          } else {
            snoozes, publishes, outcomes, overran := AdvanceWorkflow(key);
          }
        case Expired(key) =>
          snoozeWakes := snoozeWakes + 1;
          outcomes := [Wake(key)];
        case InvalidWake(key) =>
          if key !in jobs {
            panicked := true;
          } else {
            outcomes := SendFailed(key);
          }
      }
    }

    method DispatchPublishResult(result: PublishResult) returns (outcome: JobOutcome)
      requires result.key in jobs
      modifies this`jobs, this`jobsCommitted, this`jobsFailed
      ensures Handled(jobs, [], [], [outcome], false) == OnResult(old(jobs), result)
      ensures jobsCommitted == old(jobsCommitted) + if result.ok then 1 else 0
      ensures jobsFailed == old(jobsFailed) + if result.ok then 0 else 1
    {
      var job := RemoveWork(result.key);
      if result.ok {
        jobsCommitted := jobsCommitted + 1;
        outcome := Committed(job);
      } else {
        jobsFailed := jobsFailed + 1;
        outcome := Failed(job);
      }
    }

    /** Handles the results of an outcome in turn, stopping where the source would panic. */
    method HandlePublishOutcome(outcome: PublishOutcome) returns (panicked: bool, outcomes: seq<JobOutcome>)
      modifies this
      ensures panicked <==> OnResults(old(jobs), Items(outcome)).Panic?
      ensures !panicked ==> Handled(jobs, [], [], outcomes, false) == OnResults(old(jobs), Items(outcome))
      ensures jobsCommitted == old(jobsCommitted) + CommittedCount(outcomes)
      ensures jobsCommitted + jobsFailed == old(jobsCommitted + jobsFailed) + |outcomes|
      ensures jobsDispatched == old(jobsDispatched) && snoozeWakes == old(snoozeWakes)
    {
      panicked, outcomes := false, [];
      var results := Items(outcome);
      var i := 0;
      while i < |results|
        invariant 0 <= i <= |results|
        invariant jobsCommitted == old(jobsCommitted) + CommittedCount(outcomes)
        invariant jobsCommitted + jobsFailed == old(jobsCommitted + jobsFailed) + |outcomes|
        invariant jobsDispatched == old(jobsDispatched) && snoozeWakes == old(snoozeWakes)
        invariant OnResults(old(jobs), results) ==
                  After(outcomes, OnResults(jobs, results[i..]))
      {
        assert results[i..][0] == results[i];
        if results[i].key !in jobs {
          assert OnResults(jobs, results[i..]).Panic?;
          panicked := true;
          return;
        }
        ghost var before := jobs;
        var next := DispatchPublishResult(results[i]);
        OneMoreResult(before, jobs, results[i..], outcomes, next);
        assert results[i..][1..] == results[i + 1..];
        CommittedOne(outcomes, next);
        outcomes := outcomes + [next];
        i := i + 1;
      }
      assert results[i..] == [] && outcomes + [] == outcomes;
    }
  }
}
