/** Messages between the workflow handler, the snooze scheduler and the publish engine. */
module Messages {
  import opened Types

  datatype SnoozeInput = SnoozeInput(key: Key, wake: Option<Timestamp>)

  datatype SnoozeOutcome = Expired(key: Key) | InvalidWake(key: Key) | Accepted(key: Key)

  datatype PublishDetails = PublishDetails(key: Key, status: Status)

  datatype Publish = Automated(details: PublishDetails) | User(details: PublishDetails)

  datatype PublishResult = PublishResult(key: Key, ok: bool)

  datatype PublishOutcome = Batch(results: seq<PublishResult>) | Single(result: PublishResult)

  function Items(outcome: PublishOutcome): seq<PublishResult> {
    match outcome
    case Batch(results) => results
    case Single(result) => [result]
  }

  /** All results held by a queue of outcomes, in order. */
  function Flatten(outcomes: seq<PublishOutcome>): seq<PublishResult> {
    if outcomes == [] then [] else Items(outcomes[0]) + Flatten(outcomes[1..])
  }

  lemma {:induction false} FlattenAppend(outcomes: seq<PublishOutcome>, more: seq<PublishOutcome>)
    ensures Flatten(outcomes + more) == Flatten(outcomes) + Flatten(more)
  {
    if outcomes == [] {
      assert outcomes + more == more;
    } else {
      FlattenAppend(outcomes[1..], more);
      assert (outcomes + more)[1..] == outcomes[1..] + more;
    }
  }
}
