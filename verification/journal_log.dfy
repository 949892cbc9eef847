/**
  Append-only JSON-lines logs (scripts/mosaic-murmurs-paper-memory-loop.py: record_identity,
  append_jsonl).  Digests are ideal: a record's digest is the record.
 */
module JournalLog {
  import opened Wrappers

  datatype IdKey =
    | EventId | DecisionId | CandidateId | ExperienceId | PolicyId | PatchId | FragmentId | RunId | ReliabilityEventId

  const ID_KEYS: seq<IdKey> :=
    [EventId, DecisionId, CandidateId, ExperienceId, PolicyId, PatchId, FragmentId, RunId, ReliabilityEventId]

  /** The identifying fields a record carries, and everything else in it. */
  datatype Record = Record(ids: map<IdKey, string>, body: string)

  datatype Identity = ByKey(key: IdKey, value: string) | ByContent(record: Record)

  function FirstIdentity(r: Record, keys: seq<IdKey>): Identity {
    if keys == [] then ByContent(r)
    else if keys[0] in r.ids && r.ids[keys[0]] != "" then ByKey(keys[0], r.ids[keys[0]])
    else FirstIdentity(r, keys[1..])
  }

  function RecordIdentity(r: Record): Identity { FirstIdentity(r, ID_KEYS) }

  type Log = seq<Record>
  type Index = map<Identity, Record>

  /** The identities in a log, unless two records share one and differ. */
  function IndexOf(log: Log): Option<Index> {
    if log == [] then Some(map[])
    else match IndexOf(log[..|log| - 1])
      case None => None
      case Some(m) => Add(m, log[|log| - 1])
  }

  function Add(m: Index, r: Record): Option<Index> {
    var id := RecordIdentity(r);
    if id in m && m[id] != r then None else Some(m[id := r])
  }

  /** The records still to be written, unless one conflicts with what is known. */
  function Pending(known: Index, records: seq<Record>): Option<seq<Record>>
    decreases |records|
  {
    if records == [] then Some([])
    else match Add(known, records[0])
      case None => None
      case Some(m) =>
        match Pending(m, records[1..])
        case None => None
        case Some(rest) => Some(if RecordIdentity(records[0]) in known then rest else [records[0]] + rest)
  }

  /** What append_jsonl leaves in the file, or None when it raises and writes nothing. */
  function Appended(log: Log, records: seq<Record>): Option<Log> {
    if records == [] then Some(log)
    else match IndexOf(log)
      case None => None
      case Some(m) =>
        match Pending(m, records)
        case None => None
        case Some(p) => Some(log + p)
  }

  // ----- When an append is accepted -----

  predicate Agree(a: Record, b: Record) { RecordIdentity(a) == RecordIdentity(b) ==> a == b }

  /** No two records share an identity and differ. */
  ghost predicate Consistent(log: Log) {
    forall a, b :: a in log && b in log ==> Agree(a, b)
  }

  ghost predicate Indexes(m: Index, log: Log) {
    && (forall r :: r in log ==> RecordIdentity(r) in m && m[RecordIdentity(r)] == r)
    && (forall id :: id in m ==> m[id] in log && RecordIdentity(m[id]) == id)
  }

  lemma AddIsExact(m: Index, log: Log, r: Record)
    requires Indexes(m, log)
    ensures Add(m, r).Some? <==> forall x :: x in log ==> Agree(x, r)
    ensures Add(m, r).Some? ==> Indexes(Add(m, r).value, log + [r])
  {
    var id := RecordIdentity(r);
    if id in m {
      assert m[id] in log;
    }
  }

  lemma {:induction false} IndexIsExact(log: Log)
    ensures IndexOf(log).Some? <==> Consistent(log)
    ensures IndexOf(log).Some? ==> Indexes(IndexOf(log).value, log)
  {
    if log != [] {
      var init, last := log[..|log| - 1], log[|log| - 1];
      assert init + [last] == log;
      IndexIsExact(init);
      if IndexOf(init).Some? {
        AddIsExact(IndexOf(init).value, init, last);
      }
    }
  }

  lemma {:induction false} PendingIsExact(m: Index, log: Log, records: seq<Record>)
    requires Indexes(m, log) && Consistent(log)
    ensures Pending(m, records).Some? <==> Consistent(log + records)
    decreases |records|
  {
    if records == [] {
      assert log + records == log;
    } else {
      AddIsExact(m, log, records[0]);
      assert log + records == (log + [records[0]]) + records[1..];
      if Add(m, records[0]).Some? {
        PendingIsExact(Add(m, records[0]).value, log + [records[0]], records[1..]);
      } else {
        assert records[0] in log + records;
      }
    }
  }

  /** An append is refused, leaving the file alone, exactly when two records - in the file or to be
      written - share an identity and differ. */
  lemma RefusedExactlyOnConflict(log: Log, records: seq<Record>)
    requires records != []
    ensures Appended(log, records).Some? <==> Consistent(log + records)
  {
    IndexIsExact(log);
    if Consistent(log) {
      PendingIsExact(IndexOf(log).value, log, records);
    }
  }

  // ----- Appending again -----

  function Learn(m: Index, rs: seq<Record>): Index {
    if rs == [] then m
    else Learn(m, rs[..|rs| - 1])[RecordIdentity(rs[|rs| - 1]) := rs[|rs| - 1]]
  }

  lemma {:induction false} LearnFront(m: Index, rs: seq<Record>)
    requires rs != []
    ensures Learn(m, rs) == Learn(m[RecordIdentity(rs[0]) := rs[0]], rs[1..])
  {
    if |rs| > 1 {
      LearnFront(m, rs[..|rs| - 1]);
      assert rs[..|rs| - 1][1..] == rs[1..][..|rs| - 2];
    }
  }

  predicate DistinctIds(rs: seq<Record>) {
    forall i, j :: 0 <= i < j < |rs| ==> RecordIdentity(rs[i]) != RecordIdentity(rs[j])
  }

  predicate NewTo(rs: seq<Record>, m: Index) {
    forall i :: 0 <= i < |rs| ==> RecordIdentity(rs[i]) !in m
  }

  lemma {:induction false} PendingIsNew(m: Index, records: seq<Record>)
    requires Pending(m, records).Some?
    ensures var p := Pending(m, records).value; NewTo(p, m) && DistinctIds(p)
    decreases |records|
  {
    if records != [] {
      PendingIsNew(Add(m, records[0]).value, records[1..]);
    }
  }

  lemma {:induction false} LearnKeys(m: Index, rs: seq<Record>)
    ensures forall id :: id in Learn(m, rs) <==> id in m || exists i :: 0 <= i < |rs| && RecordIdentity(rs[i]) == id
    ensures NewTo(rs, m) ==> forall id :: id in m ==> Learn(m, rs)[id] == m[id]
  {
    if rs != [] {
      LearnKeys(m, rs[..|rs| - 1]);
    }
  }

  lemma PendingOnTop(m: Index, records: seq<Record>, rest: seq<Record>)
    requires records != [] && Add(m, records[0]).Some? && Pending(Add(m, records[0]).value, records[1..]) == Some(rest)
    ensures Pending(m, records) == Some(if RecordIdentity(records[0]) in m then rest else [records[0]] + rest)
  {}

  /** The first record was known already. */
  lemma ResumesKnown(m: Index, records: seq<Record>, q: seq<Record>, rest: seq<Record>)
    requires records != [] && RecordIdentity(records[0]) in m && m[RecordIdentity(records[0])] == records[0] && NewTo(q, m)
    requires Pending(Learn(m, q), records[1..]) == Some(rest)
    ensures Pending(Learn(m, q), records) == Some(rest)
  {
    KnownStaysKnown(m, q, records[0]);
    PendingOnTop(Learn(m, q), records, rest);
    LearnKeys(m, q);
  }

  /** The first record was pending itself, and has been written. */
  lemma ResumesNew(m: Index, records: seq<Record>, q: seq<Record>, rest: seq<Record>)
    requires records != [] && q != [] && q[0] == records[0]
    requires var m1 := m[RecordIdentity(records[0]) := records[0]];
             NewTo(q[1..], m1) && Pending(Learn(m1, q[1..]), records[1..]) == Some(rest)
    ensures Pending(Learn(m, q), records) == Some(rest)
  {
    LearnFront(m, q);
    ResumesKnown(m[RecordIdentity(records[0]) := records[0]], records, q[1..], rest);
  }

  /** After any prefix of the pending records has been written, exactly the rest is pending. */
  lemma {:induction false} PendingResumes(m: Index, records: seq<Record>, n: nat)
    requires Pending(m, records).Some? && n <= |Pending(m, records).value|
    ensures var p := Pending(m, records).value; Pending(Learn(m, p[..n]), records) == Some(p[n..])
    decreases |records|
  {
    var p := Pending(m, records).value;
    if records != [] && n > 0 {
      var m1 := Add(m, records[0]).value;
      PendingIsNew(m1, records[1..]);
      if RecordIdentity(records[0]) in m {
        assert m1 == m;
        PendingResumes(m, records[1..], n);
        ResumesKnown(m, records, p[..n], p[n..]);
      } else {
        PendingResumes(m1, records[1..], n - 1);
        assert p[..n][1..] == p[1..][..n - 1] && p[n..] == p[1..][n - 1..];
        ResumesNew(m, records, p[..n], p[n..]);
      }
    } else {
      assert p[..n] == [] && p[n..] == p;
    }
  }

  lemma KnownStaysKnown(m: Index, q: seq<Record>, r: Record)
    requires RecordIdentity(r) in m && m[RecordIdentity(r)] == r && NewTo(q, m)
    ensures Add(Learn(m, q), r) == Some(Learn(m, q))
  {
    LearnKeys(m, q);
    assert Learn(m, q)[RecordIdentity(r) := r] == Learn(m, q);
  }

  lemma {:induction false} IndexOfExtension(log: Log, rs: seq<Record>)
    requires IndexOf(log).Some? && NewTo(rs, IndexOf(log).value) && DistinctIds(rs)
    ensures IndexOf(log + rs) == Some(Learn(IndexOf(log).value, rs))
  {
    if rs == [] {
      assert log + rs == log;
    } else {
      var init := rs[..|rs| - 1];
      IndexOfExtension(log, init);
      assert (log + rs)[..|log + rs| - 1] == log + init;
      LearnKeys(IndexOf(log).value, init);
    }
  }

  lemma TornAppend(log: Log, records: seq<Record>, p: seq<Record>, n: nat)
    requires records != [] && IndexOf(log).Some? && Pending(IndexOf(log).value, records) == Some(p) && n <= |p|
    ensures Appended(log + p[..n], records) == Some((log + p[..n]) + p[n..])
  {
    var m := IndexOf(log).value;
    PendingIsNew(m, records);
    IndexOfExtension(log, p[..n]);
    PendingResumes(m, records, n);
  }

  /** Appending resumes after a torn write: whatever part of the records had reached the file, the
      retry leaves the file as one undisturbed append would have left it. */
  lemma AppendResumes(log: Log, records: seq<Record>, n: nat)
    requires Appended(log, records).Some? && |log| + n <= |Appended(log, records).value|
    ensures var whole := Appended(log, records).value;
            log <= whole && Appended(whole[..|log| + n], records) == Some(whole)
  {
    if records == [] {
      assert log[..|log|] == log;
    } else {
      var p := Pending(IndexOf(log).value, records).value;
      TornAppend(log, records, p, n);
      assert (log + p)[..|log| + n] == log + p[..n];
      assert (log + p[..n]) + p[n..] == log + p;
    }
  }

  /** Appending twice is appending once. */
  lemma AppendIsIdempotent(log: Log, records: seq<Record>)
    requires Appended(log, records).Some?
    ensures Appended(Appended(log, records).value, records) == Appended(log, records)
  {
    var whole := Appended(log, records).value;
    AppendResumes(log, records, |whole| - |log|);
    assert whole[..|whole|] == whole;
  }

  lemma {:induction false} PendingOfNewRecords(m: Index, records: seq<Record>)
    requires NewTo(records, m) && DistinctIds(records)
    ensures Pending(m, records) == Some(records)
    decreases |records|
  {
    if records != [] {
      PendingOfNewRecords(Add(m, records[0]).value, records[1..]);
      assert [records[0]] + records[1..] == records;
    }
  }

  lemma {:induction false} PendingWithin(m: Index, records: seq<Record>)
    requires Pending(m, records).Some?
    ensures forall r :: r in Pending(m, records).value ==> r in records
    decreases |records|
  {
    if records != [] { PendingWithin(Add(m, records[0]).value, records[1..]); }
  }

  /** An append adds nothing but the given records. */
  lemma AppendAddsOnlyRecords(log: Log, records: seq<Record>)
    requires Appended(log, records).Some?
    ensures var whole := Appended(log, records).value;
            |log| <= |whole| && forall r :: r in whole[|log|..] ==> r in records
  {
    if records != [] {
      PendingWithin(IndexOf(log).value, records);
      assert (log + Pending(IndexOf(log).value, records).value)[|log|..] == Pending(IndexOf(log).value, records).value;
    }
  }

  /** The records are new to the log and carry distinct identities. */
  ghost predicate Fresh(log: Log, records: seq<Record>) {
    && DistinctIds(records)
    && (forall i, j :: 0 <= i < |log| && 0 <= j < |records| ==> RecordIdentity(log[i]) != RecordIdentity(records[j]))
  }

  /** Fresh records are appended each exactly once, in order. */
  lemma FreshRecordsAppended(log: Log, records: seq<Record>)
    requires Consistent(log) && Fresh(log, records)
    ensures Appended(log, records) == Some(log + records)
  {
    if records == [] {
      assert log + records == log;
    } else {
      IndexIsExact(log);
      PendingOfNewRecords(IndexOf(log).value, records);
    }
  }

  // ----- One record more -----

  predicate Named(l: Log, r: Record) { exists x :: x in l && RecordIdentity(x) == RecordIdentity(r) }

  /** A record is written when its identity is new, skipped when it is there already, and else refused. */
  function WithOneMore(whole: Log, written: seq<Record>, r: Record): Option<seq<Record>> {
    if !Named(whole, r) then Some(written + [r]) else if r in whole then Some(written) else None
  }

  lemma WithOneMoreBehind(a: Log, b: Log, first: seq<Record>, rest: seq<Record>, r: Record)
    requires forall x :: x in a <==> x in b
    ensures WithOneMore(a, first + rest, r) == match WithOneMore(b, rest, r) case None => None case Some(p) => Some(first + p)
  {
    assert Named(a, r) <==> Named(b, r);
    assert first + (rest + [r]) == (first + rest) + [r];
  }

  lemma PendingOne(m: Index, log: Log, r: Record)
    requires Indexes(m, log)
    ensures Pending(m, [r]) == WithOneMore(log, [], r)
  {
    var id := RecordIdentity(r);
    assert id in m <==> Named(log, r);
    assert id in m ==> (r in log <==> m[id] == r);
    assert [r][1..] == [] && [] + [r] == [r] == [r] + [];
    assert Add(m, r).Some? ==> Pending(Add(m, r).value, []) == Some([]);
  }

  lemma {:induction false} PendingOneMore(m: Index, log: Log, records: seq<Record>, r: Record)
    requires Indexes(m, log)
    ensures Pending(m, records + [r]) == match Pending(m, records) case None => None case Some(p) => WithOneMore(log + p, p, r)
    decreases |records|
  {
    if records == [] {
      PendingOne(m, log, r);
      assert records + [r] == [r] && log + [] == log;
    } else {
      var first := records[0];
      assert (records + [r])[1..] == records[1..] + [r];
      AddIsExact(m, log, first);
      if Add(m, first).Some? && Pending(Add(m, first).value, records[1..]).Some? {
        var rest := Pending(Add(m, first).value, records[1..]).value;
        var written := if RecordIdentity(first) in m then [] else [first];
        PendingOneMore(Add(m, first).value, log + [first], records[1..], r);
        assert RecordIdentity(first) in m ==> first in log;
        WithOneMoreBehind(log + (written + rest), log + [first] + rest, written, rest, r);
      } else if Add(m, first).Some? {
        PendingOneMore(Add(m, first).value, log + [first], records[1..], r);
      }
    }
  }

  /** What an append of one record more leaves. */
  lemma AppendedOneMore(log: Log, records: seq<Record>, r: Record)
    requires Consistent(log)
    ensures Appended(log, records + [r]) == match Appended(log, records) case None => None case Some(whole) => WithOneMore(whole, whole, r)
  {
    IndexIsExact(log);
    var m := IndexOf(log).value;
    PendingOneMore(m, log, records, r);
    if Pending(m, records).Some? {
      var p := Pending(m, records).value;
      WithOneMoreBehind(log + p, log + p, log, p, r);
      assert records == [] ==> log + p == log;
    }
  }

  // ----- The two loops of append_jsonl -----

  /** Reads the file into an index, decides every record against it, then writes what is missing. */
  method AppendJsonl(log: Log, records: seq<Record>) returns (result: Option<Log>)
    ensures result == Appended(log, records)
  {
    if records == [] {
      return Some(log);
    }
    var existing: Index := map[];
    for i := 0 to |log|
      invariant IndexOf(log[..i]) == Some(existing)
    {
      assert log[..i + 1][..i] == log[..i];
      var id := RecordIdentity(log[i]);
      if id in existing && existing[id] != log[i] {
        IndexFails(log, i + 1);
        return None;
      }
      existing := existing[id := log[i]];
    }
    assert log[..|log|] == log;
    var pending := [];
    ghost var known := existing;
    assert records[0..] == records;
    PrependNothing(Pending(existing, records));
    for i := 0 to |records|
      invariant Pending(known, records) == Prepend(pending, Pending(existing, records[i..]))
    {
      var id := RecordIdentity(records[i]);
      assert records[i..][1..] == records[i + 1..];
      PrependMoves(pending, [records[i]], Pending(existing[id := records[i]], records[i + 1..]));
      if id in existing {
        if existing[id] != records[i] {
          return None;
        }
        assert existing[id := records[i]] == existing;
      } else {
        existing := existing[id := records[i]];
        pending := pending + [records[i]];
      }
    }
    assert records[|records|..] == [];
    assert pending + [] == pending;
    return Some(log + pending);
  }

  function Prepend(front: seq<Record>, rest: Option<seq<Record>>): Option<seq<Record>> {
    match rest case None => None case Some(r) => Some(front + r)
  }

  lemma PrependNothing(rest: Option<seq<Record>>)
    ensures Prepend([], rest) == rest
  {
    assert rest.Some? ==> [] + rest.value == rest.value;
  }

  lemma PrependMoves(front: seq<Record>, one: seq<Record>, rest: Option<seq<Record>>)
    ensures rest.Some? ==> front + (one + rest.value) == (front + one) + rest.value
  {}

  lemma {:induction false} IndexFails(log: Log, i: nat)
    requires i <= |log| && IndexOf(log[..i]).None?
    ensures IndexOf(log).None?
    decreases |log| - i
  {
    if i < |log| {
      assert log[..i + 1][..i] == log[..i];
      IndexFails(log, i + 1);
    } else {
      assert log[..i] == log;
    }
  }
}
