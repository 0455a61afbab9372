/** Startup replay: reduces the records of the Kafka topic to the EPICS bypasses in force. */
module Replay {
  import opened Types
  import opened Keys

  /** A Kafka record: an optional key text and a value text. */
  datatype Record = Record(key: Option<string>, value: string)

  /** The JSON encoding of statuses, kept abstract. */
  datatype Codec = Codec(encode: Status -> string, decode: string -> Option<Status>)

  predicate IsTombstone(value: string) {
    Trim(value) == "" || Upper(Trim(value)) == "NULL"
  }

  /** What the model asks of the encoding: it reads back, and no encoded status looks like a tombstone. */
  ghost predicate Faithful(codec: Codec) {
    forall s: Status :: codec.decode(codec.encode(s)) == Some(s) && !IsTombstone(codec.encode(s))
  }

  /** The EPICS key a record is about. */
  function RecordKey(record: Record): Option<Key> {
    if record.key.None? then None
    else
      var key := Parse(record.key.value);
      if key.Some? && key.value.source == Epics then key else None
  }

  /** What a record says about its key: nothing, that no bypass is in force, or which one is. */
  datatype Verdict = Silent | Cleared | InForce(status: Status)

  function VerdictOf(codec: Codec, record: Record): Verdict {
    if RecordKey(record).None? then Silent
    else if IsTombstone(record.value) then Cleared
    else
      match codec.decode(record.value)
      case None => Silent
      case Some(status) =>
        if status.source != Epics then Silent
        else if status.state == Bypassed then InForce(status)
        else Cleared
  }

  predicate Decides(codec: Codec, record: Record, k: Key) {
    RecordKey(record) == Some(k) && VerdictOf(codec, record) != Silent
  }

  /** The verdict of the last record that decides `k`; `Cleared` when none does. */
  function LastVerdict(codec: Codec, records: seq<Record>, k: Key): (v: Verdict)
    ensures v != Silent
  {
    if records == [] then Cleared
    else
      var last := records[|records| - 1];
      if Decides(codec, last, k) then VerdictOf(codec, last)
      else LastVerdict(codec, records[..|records| - 1], k)
  }

  function BypassOf(v: Verdict): Option<Status> {
    if v.InForce? then Some(v.status) else None
  }

  function Lookup(m: map<Key, Status>, k: Key): Option<Status> {
    if k in m then Some(m[k]) else None
  }

  // ---- What the records say, without verdicts ----

  /** Nothing but white space, or the letters of `null` in either case between white space. */
  ghost predicate Blank(value: string) {
    || (forall c :: c in value ==> c in BLANKS)
    || exists lead, n, u, l1, l2, trail :: NullText(value, lead, n, u, l1, l2, trail)
  }

  ghost predicate NullText(value: string, lead: string, n: char, u: char, l1: char, l2: char, trail: string) {
    && value == lead + [n, u, l1, l2] + trail
    && (forall c :: c in lead || c in trail ==> c in BLANKS)
    && n in {'n', 'N'} && u in {'u', 'U'} && l1 in {'l', 'L'} && l2 in {'l', 'L'}
  }

  lemma UpperIsNull(t: string)
    ensures Upper(t) == "NULL" <==>
            |t| == 4 && t[0] in {'n', 'N'} && t[1] in {'u', 'U'} && t[2] in {'l', 'L'} && t[3] in {'l', 'L'}
  {
    var r := Upper(t);
    assert |r| == |t|;
    if |t| == 4 {
      assert r == [UpperChar(t[0]), UpperChar(t[1]), UpperChar(t[2]), UpperChar(t[3])];
      assert "NULL" == ['N', 'U', 'L', 'L'];
      UpperCharIs4(t[0]);
      UpperCharIs4(t[1]);
      UpperCharIs4(t[2]);
      UpperCharIs4(t[3]);
    }
  }

  lemma UpperCharIs4(c: char)
    ensures UpperChar(c) == 'N' <==> c in {'n', 'N'}
    ensures UpperChar(c) == 'U' <==> c in {'u', 'U'}
    ensures UpperChar(c) == 'L' <==> c in {'l', 'L'}
  {}

  /** The tombstones are exactly the blank values. */
  lemma TombstoneIff(value: string)
    ensures IsTombstone(value) <==> Blank(value)
  {
    var inner := Trim(value);
    UpperIsNull(inner);
    var lead, trail := TrimSurrounds(value);
    if Upper(inner) == "NULL" {
      assert inner == [inner[0], inner[1], inner[2], inner[3]];
      assert NullText(value, lead, inner[0], inner[1], inner[2], inner[3], trail);
    }
    if inner == "" {
      assert value == lead + trail;
    }
    if forall c :: c in value ==> c in BLANKS {
      assert value == value + "" + "";
      SurroundedIsTrimmed(value, value, "", "");
    } else if lead0, n, u, l1, l2, trail0 :| NullText(value, lead0, n, u, l1, l2, trail0) {
      SurroundedIsTrimmed(value, lead0, [n, u, l1, l2], trail0);
    }
  }

  /** The record's key text parses to `k`. */
  predicate About(record: Record, k: Key) {
    record.key.Some? && Parse(record.key.value) == Some(k)
  }

  /** The record puts the bypass `status` in force. */
  ghost predicate Enforces(codec: Codec, record: Record, k: Key, status: Status) {
    && About(record, k) && !Blank(record.value) && codec.decode(record.value) == Some(status)
    && status.source == Epics && status.state == Bypassed
  }

  /** The record makes all earlier ones about `k` irrelevant: it is blank or decodes to an EPICS status. */
  ghost predicate Supersedes(codec: Codec, record: Record, k: Key) {
    && About(record, k)
    && (Blank(record.value)
        || (codec.decode(record.value).Some? && codec.decode(record.value).value.source == Epics))
  }

  /** Record `i` puts the bypass `status` of `k` in force and no later one supersedes it. */
  ghost predicate StaysInForce(codec: Codec, records: seq<Record>, i: int, k: Key, status: Status) {
    && 0 <= i < |records| && Enforces(codec, records[i], k, status)
    && forall j :: i < j < |records| ==> !Supersedes(codec, records[j], k)
  }

  lemma RecordVerdict(codec: Codec, record: Record, k: Key)
    requires k.source == Epics
    ensures Supersedes(codec, record, k) <==> Decides(codec, record, k)
    ensures forall status :: Enforces(codec, record, k, status) <==>
                               Decides(codec, record, k) && VerdictOf(codec, record) == InForce(status)
  {
    TombstoneIff(record.value);
  }

  lemma LaterInForce(codec: Codec, front: seq<Record>, last: Record, k: Key, status: Status)
    requires !Supersedes(codec, last, k)
    ensures (exists i :: StaysInForce(codec, front + [last], i, k, status)) <==>
            (exists i :: StaysInForce(codec, front, i, k, status))
  {
    var all := front + [last];
    assert !Enforces(codec, last, k, status);
    forall i
      ensures StaysInForce(codec, all, i, k, status) <==> StaysInForce(codec, front, i, k, status)
    {
      if StaysInForce(codec, all, i, k, status) {
        assert i != |front|;
        forall j | i < j < |front|
          ensures !Supersedes(codec, front[j], k)
        {
          assert all[j] == front[j];
        }
      }
      if StaysInForce(codec, front, i, k, status) {
        forall j | i < j < |all|
          ensures !Supersedes(codec, all[j], k)
        {
          assert j < |front| ==> all[j] == front[j];
        }
      }
    }
  }

  lemma LastInForce(codec: Codec, front: seq<Record>, last: Record, k: Key, status: Status)
    requires Supersedes(codec, last, k)
    ensures (exists i :: StaysInForce(codec, front + [last], i, k, status)) <==> Enforces(codec, last, k, status)
  {
    var all := front + [last];
    assert all[|front|] == last;
    if Enforces(codec, last, k, status) {
      assert StaysInForce(codec, all, |front|, k, status);
    }
    if i :| StaysInForce(codec, all, i, k, status) {
      assert i == |front|;
    }
  }

  /** The last verdict on an EPICS key is a bypass exactly if some record puts that bypass in force and no
      later record supersedes it. */
  lemma {:induction false} InForceIff(codec: Codec, records: seq<Record>, k: Key, status: Status)
    requires k.source == Epics
    ensures LastVerdict(codec, records, k) == InForce(status) <==>
            exists i :: StaysInForce(codec, records, i, k, status)
  {
    if records != [] {
      var (front, last) := (records[..|records| - 1], records[|records| - 1]);
      assert records == front + [last];
      RecordVerdict(codec, last, k);
      InForceIff(codec, front, k, status);
      if Supersedes(codec, last, k) {
        LastInForce(codec, front, last, k, status);
      } else {
        LaterInForce(codec, front, last, k, status);
      }
    }
  }

  lemma OnlyEpicsInForce(codec: Codec, records: seq<Record>, k: Key)
    requires LastVerdict(codec, records, k).InForce?
    ensures k.source == Epics
  {
    RestoredIsBypassed(codec, records, k);
  }

  /** `hydrated` holds exactly the bypasses of EPICS keys that some record puts in force and no later
      record supersedes. */
  ghost predicate HoldsInForce(codec: Codec, records: seq<Record>, hydrated: map<Key, Status>) {
    forall k, status :: Lookup(hydrated, k) == Some(status) <==>
                          k.source == Epics && exists i :: StaysInForce(codec, records, i, k, status)
  }

  lemma VerdictsHoldInForce(codec: Codec, records: seq<Record>, hydrated: map<Key, Status>)
    requires forall k :: Lookup(hydrated, k) == BypassOf(LastVerdict(codec, records, k))
    ensures HoldsInForce(codec, records, hydrated)
  {
    forall k, status
      ensures Lookup(hydrated, k) == Some(status) <==>
              k.source == Epics && exists i :: StaysInForce(codec, records, i, k, status)
    {
      if k.source == Epics {
        InForceIff(codec, records, k, status);
      } else if LastVerdict(codec, records, k).InForce? {
        OnlyEpicsInForce(codec, records, k);
      }
    }
  }

  /** What the last record about a key does. A blank one, or one that decodes to an EPICS status other than
      a bypass, leaves nothing; an EPICS bypass is restored; an undecodable or foreign payload leaves the
      answer of the records before it. */
  lemma LastRecordDecides(codec: Codec, front: seq<Record>, last: Record, k: Key, hydrated: map<Key, Status>,
                          earlier: map<Key, Status>)
    requires HoldsInForce(codec, front + [last], hydrated) && HoldsInForce(codec, front, earlier)
    requires About(last, k) && k.source == Epics
    ensures var status := codec.decode(last.value);
            Lookup(hydrated, k) ==
            if Blank(last.value) then None
            else if status.None? || status.value.source != Epics then Lookup(earlier, k)
            else if status.value.state == Bypassed then status
            else None
  {
    forall status
      ensures Lookup(hydrated, k) == Some(status) <==>
              if Supersedes(codec, last, k) then Enforces(codec, last, k, status)
              else Lookup(earlier, k) == Some(status)
    {
      if Supersedes(codec, last, k) {
        LastInForce(codec, front, last, k, status);
      } else {
        LaterInForce(codec, front, last, k, status);
      }
    }
  }

  /** Replays the records in order: the result holds, for each key, the status of the last decisive
      record when that status is a bypass, and nothing otherwise. */
  method ReduceSnapshot(codec: Codec, records: seq<Record>) returns (hydrated: map<Key, Status>)
    ensures forall k :: Lookup(hydrated, k) == BypassOf(LastVerdict(codec, records, k))
    ensures HoldsInForce(codec, records, hydrated)
  {
    hydrated := map[];
    var i := 0;
    while i < |records|
      invariant 0 <= i <= |records|
      invariant forall k :: Lookup(hydrated, k) == BypassOf(LastVerdict(codec, records[..i], k))
    {
      assert records[..i + 1][..i] == records[..i];
      var record := records[i];
      i := i + 1;
      if record.key.None? {
        continue;
      }
      var parsed := Parse(record.key.value);
      if parsed.None? {
        continue;
      }
      var key := parsed.value;
      if key.source != Epics {
        continue;
      }
      if IsTombstone(record.value) {
        hydrated := hydrated - {key};
        continue;
      }
      var decoded := codec.decode(record.value);
      if decoded.None? {
        continue;
      }
      var status := decoded.value;
      if status.source != Epics {
        continue;
      }
      if status.state == Bypassed {
        hydrated := hydrated[key := status];
      } else {
        hydrated := hydrated - {key};
      }
    }
    assert records[..i] == records;
    VerdictsHoldInForce(codec, records, hydrated);
  }

  /** Everything a replay restores is a bypassed EPICS status under a canonical EPICS key. */
  lemma {:induction false} RestoredIsBypassed(codec: Codec, records: seq<Record>, k: Key)
    requires LastVerdict(codec, records, k).InForce?
    ensures var status := LastVerdict(codec, records, k).status;
            status.state == Bypassed && status.source == Epics && k.source == Epics && Canonical(k)
  {
    var last := records[|records| - 1];
    if Decides(codec, last, k) {
      ParsedIsCanonical(last.key.value);
    } else {
      RestoredIsBypassed(codec, records[..|records| - 1], k);
    }
  }

  ghost predicate AnyDecides(codec: Codec, records: seq<Record>, k: Key) {
    exists i :: 0 <= i < |records| && Decides(codec, records[i], k)
  }

  lemma AnyDecidesLast(codec: Codec, records: seq<Record>, last: Record, k: Key)
    ensures AnyDecides(codec, records + [last], k) <==> AnyDecides(codec, records, k) || Decides(codec, last, k)
  {
    var all := records + [last];
    if AnyDecides(codec, records, k) {
      var i :| 0 <= i < |records| && Decides(codec, records[i], k);
      assert Decides(codec, all[i], k);
    }
    if Decides(codec, last, k) {
      assert Decides(codec, all[|records|], k);
    }
  }

  lemma LastVerdictLast(codec: Codec, records: seq<Record>, last: Record, k: Key)
    ensures LastVerdict(codec, records + [last], k) ==
            if Decides(codec, last, k) then VerdictOf(codec, last) else LastVerdict(codec, records, k)
  {
    assert (records + [last])[..|records|] == records;
  }

  /** Replaying more records changes the answer for a key only if one of them decides it. */
  lemma {:induction false} LastVerdictAppend(codec: Codec, records: seq<Record>, more: seq<Record>, k: Key)
    ensures LastVerdict(codec, records + more, k) ==
            if AnyDecides(codec, more, k) then LastVerdict(codec, more, k)
            else LastVerdict(codec, records, k)
  {
    if more == [] {
      assert records + more == records;
    } else {
      var (front, last) := (more[..|more| - 1], more[|more| - 1]);
      assert more == front + [last];
      assert records + more == (records + front) + [last];
      LastVerdictAppend(codec, records, front, k);
      LastVerdictLast(codec, records + front, last, k);
      LastVerdictLast(codec, front, last, k);
      AnyDecidesLast(codec, front, last, k);
    }
  }

  function Delete(records: seq<Record>, i: nat): seq<Record>
    requires i < |records|
  {
    records[..i] + records[i + 1..]
  }

  /** Deleting a record changes the replay of no key exactly when the record decides nothing, or a
      later record decides the same key, or the records before it already gave the same answer. */
  lemma DeletionHarmlessIff(codec: Codec, records: seq<Record>, i: nat)
    requires i < |records|
    ensures (forall k :: LastVerdict(codec, Delete(records, i), k) == LastVerdict(codec, records, k)) <==>
            || VerdictOf(codec, records[i]) == Silent
            || AnyDecides(codec, records[i + 1..], RecordKey(records[i]).value)
            || LastVerdict(codec, records[..i], RecordKey(records[i]).value) == VerdictOf(codec, records[i])
  {
    forall k
      ensures DeletionHarmlessAt(codec, records, i, k) <==>
              LastVerdict(codec, Delete(records, i), k) == LastVerdict(codec, records, k)
    {
      DeletionAt(codec, records, i, k);
    }
    if VerdictOf(codec, records[i]) != Silent {
      var key := RecordKey(records[i]).value;
      assert Decides(codec, records[i], key);
      assert forall k :: Decides(codec, records[i], k) ==> k == key;
      assert DeletionHarmlessAt(codec, records, i, key) <==>
             LastVerdict(codec, Delete(records, i), key) == LastVerdict(codec, records, key);
    }
  }

  ghost predicate DeletionHarmlessAt(codec: Codec, records: seq<Record>, i: nat, k: Key)
    requires i < |records|
  {
    || !Decides(codec, records[i], k)
    || AnyDecides(codec, records[i + 1..], k)
    || LastVerdict(codec, records[..i], k) == VerdictOf(codec, records[i])
  }

  lemma DeletionAt(codec: Codec, records: seq<Record>, i: nat, k: Key)
    requires i < |records|
    ensures LastVerdict(codec, Delete(records, i), k) == LastVerdict(codec, records, k) <==>
            DeletionHarmlessAt(codec, records, i, k)
  {
    var (before, after) := (records[..i], records[i + 1..]);
    assert records == (before + [records[i]]) + after;
    LastVerdictAppend(codec, before + [records[i]], after, k);
    LastVerdictAppend(codec, before, after, k);
    LastVerdictLast(codec, before, records[i], k);
  }

  /** Keeping only the newest record per key text, as Kafka's compaction does, is not harmless: a
      malformed newest record silences itself, and the bypass before it is lost with its record. */
  lemma CompactionCanLoseABypass(codec: Codec, bypass: Status, text: string)
    requires Faithful(codec) && bypass.source == Epics && bypass.state == Bypassed
    requires codec.decode(text).None? && !IsTombstone(text)
    ensures var records := [Record(Some("A#Epics"), codec.encode(bypass)), Record(Some("A#Epics"), text)];
            && LastVerdict(codec, records, Key("A", Epics)) == InForce(bypass)
            && LastVerdict(codec, Delete(records, 0), Key("A", Epics)) == Cleared
  {
    var k := Key("A", Epics);
    assert Print(k) == "A#Epics";
    TightIsTrimmed("A");
    PrintParse(k);
    var older, newer := Record(Some("A#Epics"), codec.encode(bypass)), Record(Some("A#Epics"), text);
    assert RecordKey(older) == Some(k) && RecordKey(newer) == Some(k);
    assert VerdictOf(codec, older) == InForce(bypass) && VerdictOf(codec, newer) == Silent;
    assert [older, newer][..1] == [older];
    assert Delete([older, newer], 0) == [newer];
    assert [newer][..0] == [];
  }

  // ---- Records that the service itself published ----

  /** A publish as it lands in the topic. */
  datatype Published = Published(key: Key, status: Status)

  function Render(codec: Codec, log: seq<Published>): seq<Record> {
    seq(|log|, i requires 0 <= i < |log| => Record(Some(Print(log[i].key)), codec.encode(log[i].status)))
  }

  /** The last status published for a key. */
  function LastPublished(log: seq<Published>, k: Key): Option<Status> {
    if log == [] then None
    else
      var last := log[|log| - 1];
      if last.key == k then Some(last.status) else LastPublished(log[..|log| - 1], k)
  }

  lemma LastPublishedAppend(log: seq<Published>, p: Published, k: Key)
    ensures LastPublished(log + [p], k) == if p.key == k then Some(p.status) else LastPublished(log, k)
  {
    assert (log + [p])[..|log|] == log;
  }

  function BypassIn(status: Status): Option<Status> {
    if status.state == Bypassed then Some(status) else None
  }

  /** A published record decides exactly its own key, provided the key is normal, canonical and EPICS. */
  lemma PublishedDecides(codec: Codec, p: Published, k: Key)
    requires Faithful(codec) && Normal(p.key) && p.status.source == p.key.source
    requires Canonical(k) && k.source == Epics
    ensures var record := Record(Some(Print(p.key)), codec.encode(p.status));
            && (Decides(codec, record, k) <==> p.key == k)
            && (p.key == k ==> BypassOf(VerdictOf(codec, record)) == BypassIn(p.status))
  {
    PrintParse(p.key);
    assert codec.decode(codec.encode(p.status)) == Some(p.status) && !IsTombstone(codec.encode(p.status));
  }

  /** Replaying the topic after the service has appended `log` to it. */
  lemma {:induction false} ReplayPublished(codec: Codec, initial: seq<Record>, log: seq<Published>, k: Key)
    requires Faithful(codec) && Canonical(k) && k.source == Epics
    requires forall p :: p in log ==> Normal(p.key) && p.status.source == p.key.source
    ensures BypassOf(LastVerdict(codec, initial + Render(codec, log), k)) ==
            match LastPublished(log, k)
            case Some(status) => BypassIn(status)
            case None => BypassOf(LastVerdict(codec, initial, k))
  {
    if log == [] {
      assert initial + Render(codec, log) == initial;
    } else {
      var (front, last) := (log[..|log| - 1], log[|log| - 1]);
      var record := Record(Some(Print(last.key)), codec.encode(last.status));
      assert initial + Render(codec, log) == (initial + Render(codec, front)) + [record];
      LastVerdictLast(codec, initial + Render(codec, front), record, k);
      PublishedDecides(codec, last, k);
      ReplayPublished(codec, initial, front, k);
    }
  }
}
