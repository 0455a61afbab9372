/** Bookkeeping for tokens spread over channels: which channel holds the token of which key. */
module Places {
  import opened Types

  /** The channels and buffers of the pipeline through which tokens travel. */
  datatype Channel =
    | JobChannel | SnoozeChannel | ReplyChannel | PublishChannel
    | AttemptPool | BatchBuffer | ResultChannel | OutcomeChannel

  /** Where a token is, with what is already decided about it. */
  datatype Place =
    | InJobs
    | InSnoozes
    | InReplies(accepted: bool)
    | InPublishes
    | InAttempts(count: nat)
    | InBatch(ok: bool)
    | InResults(ok: bool)
    | InOutcomes(ok: bool)
  {
    function Where(): Channel {
      match this
      case InJobs => JobChannel
      case InSnoozes => SnoozeChannel
      case InReplies(_) => ReplyChannel
      case InPublishes => PublishChannel
      case InAttempts(_) => AttemptPool
      case InBatch(_) => BatchBuffer
      case InResults(_) => ResultChannel
      case InOutcomes(_) => OutcomeChannel
    }
  }

  /** A token as one channel holds it. */
  datatype Held = Held(key: Key, place: Place)

  type Contents = map<Channel, seq<Held>>

  lemma EveryChannel(contents: Contents)
    requires JobChannel in contents && SnoozeChannel in contents && ReplyChannel in contents
    requires PublishChannel in contents && AttemptPool in contents && BatchBuffer in contents
    requires ResultChannel in contents && OutcomeChannel in contents
    ensures forall channel: Channel :: channel in contents
  {
    forall channel: Channel
      ensures channel in contents
    {
      match channel
      case JobChannel =>
      case _ =>
    }
  }

  /** The channel holds each of its keys once, and exactly those that are placed in it. */
  ghost predicate Holds(held: seq<Held>, places: map<Key, Place>, channel: Channel) {
    && (forall i :: 0 <= i < |held| ==>
          held[i].key in places && places[held[i].key] == held[i].place && held[i].place.Where() == channel)
    && (forall i, j :: 0 <= i < j < |held| ==> held[i].key != held[j].key)
    && (forall k :: k in places && places[k].Where() == channel ==> Held(k, places[k]) in held)
  }

  ghost predicate AllHold(contents: Contents, places: map<Key, Place>) {
    forall channel: Channel :: channel in contents && Holds(contents[channel], places, channel)
  }

  function Without(held: seq<Held>, i: nat): seq<Held>
    requires i < |held|
  {
    held[..i] + held[i + 1..]
  }

  lemma WithoutAt(held: seq<Held>, i: nat, j: nat)
    requires i < |held| && j < |held| - 1
    ensures Without(held, i)[j] == held[if j < i then j else j + 1]
  {}

  lemma WithoutKeeps(held: seq<Held>, i: nat, h: Held)
    requires i < |held| && h in held && h != held[i]
    ensures h in Without(held, i)
  {
    var j :| 0 <= j < |held| && held[j] == h;
    WithoutAt(held, i, if j < i then j else j - 1);
  }

  lemma DropHolder(held: seq<Held>, places: map<Key, Place>, channel: Channel, i: nat)
    requires Holds(held, places, channel) && i < |held|
    ensures Holds(Without(held, i), places - {held[i].key}, channel)
  {
    var rest := Without(held, i);
    var left := places - {held[i].key};
    forall j | 0 <= j < |rest|
      ensures rest[j].key in left && left[rest[j].key] == rest[j].place && rest[j].place.Where() == channel
    {
      WithoutAt(held, i, j);
    }
    forall j, l | 0 <= j < l < |rest|
      ensures rest[j].key != rest[l].key
    {
      WithoutAt(held, i, j);
      WithoutAt(held, i, l);
    }
    forall k | k in left && left[k].Where() == channel
      ensures Held(k, left[k]) in rest
    {
      WithoutKeeps(held, i, Held(k, places[k]));
    }
  }

  lemma DropOther(held: seq<Held>, places: map<Key, Place>, channel: Channel, k: Key)
    requires Holds(held, places, channel) && k in places && places[k].Where() != channel
    ensures Holds(held, places - {k}, channel)
  {}

  lemma AddHolder(held: seq<Held>, places: map<Key, Place>, channel: Channel, k: Key, place: Place)
    requires Holds(held, places, channel) && k !in places && place.Where() == channel
    ensures Holds(held + [Held(k, place)], places[k := place], channel)
  {}

  lemma AddOther(held: seq<Held>, places: map<Key, Place>, channel: Channel, k: Key, place: Place)
    requires Holds(held, places, channel) && k !in places && place.Where() != channel
    ensures Holds(held, places[k := place], channel)
  {}

  function Removed(contents: Contents, from: Channel, i: nat): Contents
    requires from in contents && i < |contents[from]|
  {
    contents[from := Without(contents[from], i)]
  }

  function Added(contents: Contents, k: Key, place: Place): Contents
    requires place.Where() in contents
  {
    contents[place.Where() := contents[place.Where()] + [Held(k, place)]]
  }

  lemma RemoveKeeps(contents: Contents, places: map<Key, Place>, from: Channel, i: nat)
    requires AllHold(contents, places) && i < |contents[from]|
    ensures AllHold(Removed(contents, from, i), places - {contents[from][i].key})
  {
    var k := contents[from][i].key;
    assert Holds(contents[from], places, from);
    forall channel: Channel
      ensures channel in Removed(contents, from, i)
      ensures Holds(Removed(contents, from, i)[channel], places - {k}, channel)
    {
      if channel == from {
        DropHolder(contents[from], places, from, i);
      } else {
        DropOther(contents[channel], places, channel, k);
      }
    }
  }

  lemma AddKeeps(contents: Contents, places: map<Key, Place>, k: Key, place: Place)
    requires AllHold(contents, places) && k !in places
    ensures AllHold(Added(contents, k, place), places[k := place])
  {
    forall channel: Channel
      ensures channel in Added(contents, k, place)
      ensures Holds(Added(contents, k, place)[channel], places[k := place], channel)
    {
      if channel == place.Where() {
        AddHolder(contents[channel], places, channel, k, place);
      } else {
        AddOther(contents[channel], places, channel, k, place);
      }
    }
  }

  /** A token moves from position `i` of one channel to the end of another. */
  lemma MoveKeeps(contents: Contents, places: map<Key, Place>, from: Channel, i: nat, place: Place)
    requires AllHold(contents, places) && i < |contents[from]|
    ensures var k := contents[from][i].key;
            AllHold(Added(Removed(contents, from, i), k, place), places[k := place])
  {
    var k := contents[from][i].key;
    RemoveKeeps(contents, places, from, i);
    AddKeeps(Removed(contents, from, i), places - {k}, k, place);
    assert (places - {k})[k := place] == places[k := place];
  }

  predicate Absent(held: seq<Held>, k: Key) {
    forall i :: 0 <= i < |held| ==> held[i].key != k
  }

  /** Whoever is placed elsewhere is not in the channel. */
  lemma NotHere(contents: Contents, places: map<Key, Place>, channel: Channel, k: Key)
    requires AllHold(contents, places) && (k !in places || places[k].Where() != channel)
    ensures Absent(contents[channel], k)
  {
    assert Holds(contents[channel], places, channel);
  }

  // ---- The whole batch becomes one message ----

  function Flushed(places: map<Key, Place>): map<Key, Place> {
    map k | k in places :: if places[k].InBatch? then InResults(places[k].ok) else places[k]
  }

  function Reported(batch: seq<Held>): seq<Held> {
    seq(|batch|, i requires 0 <= i < |batch| =>
      if batch[i].place.InBatch? then Held(batch[i].key, InResults(batch[i].place.ok)) else batch[i])
  }

  lemma FlushResults(results: seq<Held>, batch: seq<Held>, places: map<Key, Place>)
    requires Holds(results, places, ResultChannel) && Holds(batch, places, BatchBuffer)
    ensures Holds(results + Reported(batch), Flushed(places), ResultChannel)
  {
    var all := results + Reported(batch);
    forall i, j | 0 <= i < j < |all|
      ensures all[i].key != all[j].key
    {
      if i < |results| <= j {
        assert results[i].place.Where() == ResultChannel && batch[j - |results|].place.Where() == BatchBuffer;
      }
    }
    forall k | k in Flushed(places) && Flushed(places)[k].Where() == ResultChannel
      ensures Held(k, Flushed(places)[k]) in all
    {
      if places[k].InBatch? {
        assert Held(k, places[k]) in batch;
        var i :| 0 <= i < |batch| && batch[i] == Held(k, places[k]);
        assert all[|results| + i] == Held(k, Flushed(places)[k]);
      } else {
        assert Held(k, places[k]) in results;
      }
    }
  }

  lemma FlushOther(held: seq<Held>, places: map<Key, Place>, channel: Channel)
    requires Holds(held, places, channel) && channel != ResultChannel && channel != BatchBuffer
    ensures Holds(held, Flushed(places), channel)
  {}

  lemma FlushKeeps(contents: Contents, places: map<Key, Place>)
    requires AllHold(contents, places)
    ensures AllHold(contents[ResultChannel := contents[ResultChannel] + Reported(contents[BatchBuffer])]
                            [BatchBuffer := []], Flushed(places))
  {
    var results := contents[ResultChannel] + Reported(contents[BatchBuffer]);
    var after := contents[ResultChannel := results][BatchBuffer := []];
    forall channel: Channel
      ensures channel in after && Holds(after[channel], Flushed(places), channel)
    {
      assert Holds(contents[channel], places, channel);
      if channel == ResultChannel {
        FlushResults(contents[ResultChannel], contents[BatchBuffer], places);
      } else if channel != BatchBuffer {
        FlushOther(contents[channel], places, channel);
      }
    }
  }

  // ---- Each token is in one place, and the lengths add up ----

  function PlacedIn(places: map<Key, Place>, channel: Channel): set<Key> {
    set k | k in places && places[k].Where() == channel
  }

  lemma {:induction false} DistinctCount(held: seq<Held>)
    requires forall i, j :: 0 <= i < j < |held| ==> held[i].key != held[j].key
    ensures |set i | 0 <= i < |held| :: held[i].key| == |held|
  {
    var keys := set i | 0 <= i < |held| :: held[i].key;
    if held == [] {
      assert keys == {};
    } else {
      var (front, last) := (held[..|held| - 1], held[|held| - 1]);
      var before := set i | 0 <= i < |front| :: front[i].key;
      DistinctCount(front);
      assert forall i :: 0 <= i < |front| ==> front[i] == held[i];
      assert keys == before + {last.key};
    }
  }

  lemma ChannelCount(held: seq<Held>, places: map<Key, Place>, channel: Channel)
    requires Holds(held, places, channel)
    ensures |PlacedIn(places, channel)| == |held|
  {
    DistinctCount(held);
    assert PlacedIn(places, channel) == set i | 0 <= i < |held| :: held[i].key;
  }

  function Outside(places: map<Key, Place>, channels: set<Channel>): set<Key> {
    set k | k in places && places[k].Where() !in channels
  }

  lemma OutsideCount(places: map<Key, Place>, channels: set<Channel>, channel: Channel)
    requires channel !in channels
    ensures |Outside(places, channels)| ==
            |Outside(places, channels + {channel})| + |PlacedIn(places, channel)|
  {
    assert Outside(places, channels) == Outside(places, channels + {channel}) + PlacedIn(places, channel);
  }

  function Total(contents: Contents): nat
    requires forall channel: Channel :: channel in contents
  {
    |contents[JobChannel]| + |contents[SnoozeChannel]| + |contents[ReplyChannel]| + |contents[PublishChannel]|
    + |contents[AttemptPool]| + |contents[BatchBuffer]| + |contents[ResultChannel]| + |contents[OutcomeChannel]|
  }

  function TotalPlaced(places: map<Key, Place>): nat {
    |PlacedIn(places, JobChannel)| + |PlacedIn(places, SnoozeChannel)| + |PlacedIn(places, ReplyChannel)|
    + |PlacedIn(places, PublishChannel)| + |PlacedIn(places, AttemptPool)| + |PlacedIn(places, BatchBuffer)|
    + |PlacedIn(places, ResultChannel)| + |PlacedIn(places, OutcomeChannel)|
  }

  lemma PlacedUpToPublishes(places: map<Key, Place>)
    ensures |places.Keys| ==
            |PlacedIn(places, JobChannel)| + |PlacedIn(places, SnoozeChannel)| + |PlacedIn(places, ReplyChannel)|
            + |PlacedIn(places, PublishChannel)|
            + |Outside(places, {} + {JobChannel} + {SnoozeChannel} + {ReplyChannel} + {PublishChannel})|
  {
    assert Outside(places, {}) == places.Keys;
    OutsideCount(places, {}, JobChannel);
    OutsideCount(places, {} + {JobChannel}, SnoozeChannel);
    OutsideCount(places, {} + {JobChannel} + {SnoozeChannel}, ReplyChannel);
    OutsideCount(places, {} + {JobChannel} + {SnoozeChannel} + {ReplyChannel}, PublishChannel);
  }

  lemma AllPlaced(places: map<Key, Place>)
    ensures TotalPlaced(places) == |places.Keys|
  {
    PlacedUpToPublishes(places);
    PlacedBeyondPublishes(places, {} + {JobChannel} + {SnoozeChannel} + {ReplyChannel} + {PublishChannel});
  }

  lemma PlacedBeyondPublishes(places: map<Key, Place>, front: set<Channel>)
    requires front == {JobChannel, SnoozeChannel, ReplyChannel, PublishChannel}
    ensures |Outside(places, front)| ==
            |PlacedIn(places, AttemptPool)| + |PlacedIn(places, BatchBuffer)|
            + |PlacedIn(places, ResultChannel)| + |PlacedIn(places, OutcomeChannel)|
  {
    OutsideCount(places, front, AttemptPool);
    OutsideCount(places, front + {AttemptPool}, BatchBuffer);
    OutsideCount(places, front + {AttemptPool} + {BatchBuffer}, ResultChannel);
    OutsideCount(places, front + {AttemptPool} + {BatchBuffer} + {ResultChannel}, OutcomeChannel);
    assert Outside(places, front + {AttemptPool} + {BatchBuffer} + {ResultChannel} + {OutcomeChannel}) == {};
  }

  /** The channels together hold as many tokens as there are keys with a token. */
  lemma Occupancy(contents: Contents, places: map<Key, Place>)
    requires AllHold(contents, places)
    ensures Total(contents) == |places|
  {
    forall channel: Channel
      ensures |PlacedIn(places, channel)| == |contents[channel]|
    {
      ChannelCount(contents[channel], places, channel);
    }
    AllPlaced(places);
  }
}
