/**
 The agent's dedup memory, completed_jobs.json: bounded in number and in age, pruned on every access.
 The bounded list is proved to be exactly the recent end of an unbounded log of last results.
 */
module CompletedStore {
  import opened Basics
  import opened Commands
  import opened Compaction

  const MAX_ENTRIES: nat := 256
  const TTL: int := 24 * 60 * 60 * 1_000_000_000   // nanoseconds

  predicate Alive(e: Entry, now: int) {
    now - e.at < TTL
  }

  function KeepAlive(list: seq<Entry>, now: int): seq<Entry> {
    if list == [] then []
    else if Alive(list[0], now) then [list[0]] + KeepAlive(list[1..], now)
    else KeepAlive(list[1..], now)
  }

  function Insert(e: Entry, list: seq<Entry>): (r: seq<Entry>)
    ensures |r| == |list| + 1
  {
    if list == [] || e.at <= list[0].at then [e] + list else [list[0]] + Insert(e, list[1..])
  }

  /** The sort by age that pruning uses when over the cap. */
  function SortByAge(list: seq<Entry>): (r: seq<Entry>)
    ensures |r| == |list|
  {
    if list == [] then [] else Insert(list[0], SortByAge(list[1..]))
  }

  ghost predicate AgeOrdered(list: seq<Entry>) {
    forall i, j :: 0 <= i < j < |list| ==> list[i].at <= list[j].at
  }

  lemma {:induction false} InsertMembers(e: Entry, list: seq<Entry>)
    ensures multiset(Insert(e, list)) == multiset(list) + multiset{e}
  {
    if list != [] && list[0].at < e.at {
      InsertMembers(e, list[1..]);
      assert list == [list[0]] + list[1..];
    }
  }

  lemma InsertedIn(e: Entry, list: seq<Entry>, x: Entry)
    requires x in Insert(e, list)
    ensures x == e || x in list
  {
    InsertMembers(e, list);
    assert x in multiset(Insert(e, list));
  }

  lemma ConsOrdered(e: Entry, list: seq<Entry>)
    requires AgeOrdered(list) && forall x :: x in list ==> e.at <= x.at
    ensures AgeOrdered([e] + list)
  {
  }

  lemma {:induction false} InsertSorts(e: Entry, list: seq<Entry>)
    requires AgeOrdered(list)
    ensures AgeOrdered(Insert(e, list))
  {
    if list == [] {
    } else if e.at <= list[0].at {
      ConsOrdered(e, list);
    } else {
      var rest := Insert(e, list[1..]);
      InsertSorts(e, list[1..]);
      forall x | x in rest
        ensures list[0].at <= x.at
      {
        InsertedIn(e, list[1..], x);
      }
      hide AgeOrdered;
      ConsOrdered(list[0], rest);
    }
  }

  /** It is a sort: ordered by age, with the same entries. */
  lemma {:induction false} SortByAgeSorts(list: seq<Entry>)
    ensures AgeOrdered(SortByAge(list)) && multiset(SortByAge(list)) == multiset(list)
  {
    hide Insert;
    if list != [] {
      SortByAgeSorts(list[1..]);
      hide AgeOrdered;
      InsertSorts(list[0], SortByAge(list[1..]));
      InsertMembers(list[0], SortByAge(list[1..]));
      assert list == [list[0]] + list[1..];
    }
  }

  /** pruneCompletedJobs: too old goes, and beyond the cap the oldest go. */
  function Prune(list: seq<Entry>, now: int): seq<Entry> {
    var kept := KeepAlive(list, now);
    if |kept| > MAX_ENTRIES then SortByAge(kept)[|kept| - MAX_ENTRIES..] else kept
  }

  function Recorded(list: seq<Entry>, job: JobId, data: string, now: int): seq<Entry> {
    if job == "" then list
    else Prune(DropJob(Prune(list, now), job) + [Entry(job, data, now)], now)
  }

  function Find(list: seq<Entry>, job: JobId): Option<string> {
    if list == [] then None
    else if list[0].job == job then Some(list[0].data)
    else Find(list[1..], job)
  }

  // ---------------------------------------------------------------- the code

  class CompletedJobs {
    var file: seq<Entry>

    constructor ()
      ensures file == []
    {
      file := [];
    }

    method PruneCompletedJobs(list: seq<Entry>, now: int) returns (kept: seq<Entry>)
      ensures kept == Prune(list, now)
    {
      kept := [];
      for i := 0 to |list|
        invariant kept == KeepAlive(list[..i], now)
      {
        assert list[..i + 1] == list[..i] + [list[i]];
        KeepAliveConcat(list[..i], [list[i]], now);
        assert [list[i]][1..] == [];
        if now - list[i].at < TTL {
          kept := kept + [list[i]];
        }
      }
      assert list[..|list|] == list;
      if |kept| > MAX_ENTRIES {
        kept := SortByAge(kept)[|kept| - MAX_ENTRIES..];
      }
    }

    method RecordCompletedResult(job: JobId, data: string, now: int)
      modifies this
      ensures file == Recorded(old(file), job, data, now)
    {
      if job == "" {
        return;
      }
      var list := PruneCompletedJobs(file, now);
      var buffer := new Entry[|list|](i requires 0 <= i < |list| => list[i]);
      assert buffer[..] == list;
      var kept := CompactInPlace(buffer, job);
      var out := buffer[..kept] + [Entry(job, data, now)];
      file := PruneCompletedJobs(out, now);
    }

    /** A lookup also prunes the file. */
    method CompletedJobResult(job: JobId, now: int) returns (result: Option<string>)
      modifies this
      ensures file == if job == "" then old(file) else Prune(old(file), now)
      ensures result == if job == "" then None else Find(Prune(old(file), now), job)
    {
      if job == "" {
        return None;
      }
      var list := PruneCompletedJobs(file, now);
      if |list| != |file| {
        file := list;
      } else {
        PruneSameLength(file, now);
      }
      for i := 0 to |list|
        invariant Find(list, job) == Find(list[i..], job)
      {
        if list[i].job == job {
          return Some(list[i].data);
        }
        assert list[i..][1..] == list[i + 1..];
      }
      assert list[|list|..] == [];
      return None;
    }
  }

  lemma {:induction false} KeepAliveConcat(a: seq<Entry>, b: seq<Entry>, now: int)
    ensures KeepAlive(a + b, now) == KeepAlive(a, now) + KeepAlive(b, now)
  {
    if a == [] {
      assert a + b == b;
    } else {
      assert (a + b)[1..] == a[1..] + b;
      KeepAliveConcat(a[1..], b, now);
    }
  }

  lemma {:induction false} KeepAliveLength(list: seq<Entry>, now: int)
    ensures |KeepAlive(list, now)| <= |list|
    ensures |KeepAlive(list, now)| == |list| ==> KeepAlive(list, now) == list
  {
    if list != [] {
      KeepAliveLength(list[1..], now);
      assert list == [list[0]] + list[1..];
    }
  }

  /** Comparing lengths is enough to know that pruning changed nothing. */
  lemma PruneSameLength(list: seq<Entry>, now: int)
    requires |Prune(list, now)| == |list|
    ensures Prune(list, now) == list
  {
    KeepAliveLength(list, now);
  }

  // ---------------------------------------------------------------- the reference: an unbounded log

  datatype Op = Record(job: JobId, data: string, at: int) | Lookup(job: JobId, at: int)

  /** The file after a sequence of calls, starting from no file. */
  function Store(ops: seq<Op>): seq<Entry> {
    if ops == [] then []
    else
      var list := Store(ops[..|ops| - 1]);
      match ops[|ops| - 1]
      case Record(job, data, at) => Recorded(list, job, data, at)
      case Lookup(job, at) => if job == "" then list else Prune(list, at)
  }

  /** The last result of every job, oldest first, never pruned. */
  function Log(ops: seq<Op>): seq<Entry> {
    if ops == [] then []
    else
      var log, op := Log(ops[..|ops| - 1]), ops[|ops| - 1];
      if op.Record? && op.job != "" then DropJob(log, op.job) + [Entry(op.job, op.data, op.at)] else log
  }

  /** The time of the last call that named a job. */
  function LastTime(ops: seq<Op>): int {
    if ops == [] then 0
    else if ops[|ops| - 1].job != "" then ops[|ops| - 1].at
    else LastTime(ops[..|ops| - 1])
  }

  ghost predicate Increasing(ops: seq<Op>) {
    forall i, j :: 0 <= i < j < |ops| ==> ops[i].at < ops[j].at
  }

  ghost predicate Sorted(list: seq<Entry>) {
    forall i, j :: 0 <= i < j < |list| ==> list[i].at < list[j].at
  }

  /** How many entries at the front are too old. */
  function Dead(list: seq<Entry>, now: int): nat {
    if list == [] || Alive(list[0], now) then 0 else 1 + Dead(list[1..], now)
  }

  function Max(a: int, b: int): int {
    if a < b then b else a
  }

  /** Where the retained part of the log begins. */
  function Cut(log: seq<Entry>, now: int): int {
    Max(Dead(log, now), |log| - MAX_ENTRIES)
  }

  /** The end of the log that is young enough and within the cap. */
  function Recent(log: seq<Entry>, now: int): seq<Entry> {
    if Cut(log, now) <= |log| then log[Cut(log, now)..] else []
  }

  lemma {:induction false} DeadBounds(list: seq<Entry>, now: int)
    ensures Dead(list, now) <= |list|
    ensures forall i :: 0 <= i < Dead(list, now) ==> !Alive(list[i], now)
    ensures Dead(list, now) < |list| ==> Alive(list[Dead(list, now)], now)
  {
    if list != [] && !Alive(list[0], now) {
      DeadBounds(list[1..], now);
    }
  }

  lemma {:induction false} KeepAliveAll(list: seq<Entry>, now: int)
    requires forall i :: 0 <= i < |list| ==> Alive(list[i], now)
    ensures KeepAlive(list, now) == list
  {
    if list != [] {
      KeepAliveAll(list[1..], now);
    }
  }

  lemma {:induction false} KeepAliveNone(list: seq<Entry>, now: int)
    requires forall i :: 0 <= i < |list| ==> !Alive(list[i], now)
    ensures KeepAlive(list, now) == []
  {
    if list != [] {
      KeepAliveNone(list[1..], now);
    }
  }

  /** Distinct ages leave sorting no choice, so its treatment of ties is immaterial. */
  lemma {:induction false} SortSorted(list: seq<Entry>)
    requires Sorted(list)
    ensures SortByAge(list) == list
  {
    if list != [] {
      SortSorted(list[1..]);
      assert list == [list[0]] + list[1..];
    }
  }

  lemma KeepAliveSuffix(log: seq<Entry>, from: nat, now: int)
    requires Sorted(log) && from <= |log|
    ensures Dead(log, now) <= |log|
    ensures KeepAlive(log[from..], now) == log[Max(from, Dead(log, now))..]
  {
    DeadBounds(log, now);
    var alive := Max(from, Dead(log, now));
    var stale, young := log[from..alive], log[alive..];
    assert log[from..] == stale + young;
    hide KeepAlive, Dead;
    KeepAliveConcat(stale, young, now);
    KeepAliveNone(stale, now);
    YoungAlive(log, alive, now);
    KeepAliveAll(young, now);
  }

  lemma YoungAlive(log: seq<Entry>, alive: nat, now: int)
    requires Sorted(log) && Dead(log, now) <= alive <= |log|
    ensures forall i :: 0 <= i < |log| - alive ==> Alive(log[alive..][i], now)
  {
    DeadBounds(log, now);
    forall i | 0 <= i < |log| - alive
      ensures Alive(log[alive..][i], now)
    {
      assert log[alive..][i] == log[alive + i];
      assert log[Dead(log, now)].at <= log[alive + i].at;
    }
  }

  lemma SortedSuffix(log: seq<Entry>, from: nat)
    requires Sorted(log) && from <= |log|
    ensures Sorted(log[from..])
  {
  }

  /** Pruning a suffix of a sorted log yields a suffix of the log. */
  lemma PruneSuffix(log: seq<Entry>, from: nat, now: int)
    requires Sorted(log) && from <= |log|
    ensures Cut(log, now) <= |log|
    ensures Prune(log[from..], now) == log[Max(from, Cut(log, now))..]
  {
    hide Dead, Sorted, KeepAlive, SortByAge;
    KeepAliveSuffix(log, from, now);
    var alive := Max(from, Dead(log, now));
    var kept := log[alive..];
    assert KeepAlive(log[from..], now) == kept;
    if |kept| > MAX_ENTRIES {
      SortedSuffix(log, alive);
      SortSorted(kept);
      assert kept[|kept| - MAX_ENTRIES..] == log[|log| - MAX_ENTRIES..];
    }
  }

  lemma {:induction false} DeadMonotone(list: seq<Entry>, now: int, later: int)
    requires now <= later
    ensures Dead(list, now) <= Dead(list, later)
  {
    if list != [] && !Alive(list[0], now) {
      DeadMonotone(list[1..], now, later);
    }
  }

  lemma {:induction false} DeadAtLeast(list: seq<Entry>, n: nat, now: int)
    requires n <= |list| && forall i :: 0 <= i < n ==> !Alive(list[i], now)
    ensures n <= Dead(list, now)
  {
    if n > 0 {
      assert !Alive(list[0], now);
      DeadAtLeast(list[1..], n - 1, now);
    }
  }

  lemma {:induction false} DropJobSorted(list: seq<Entry>, job: JobId)
    requires Sorted(list)
    ensures Sorted(DropJob(list, job))
  {
    if list != [] {
      DropJobSorted(list[1..], job);
      DropJobMembers(list[1..], job);
      var rest := DropJob(list[1..], job);
      forall i | 0 <= i < |rest|
        ensures list[0].at < rest[i].at
      {
        assert rest[i] in rest;
      }
    }
  }

  lemma {:induction false} LogInv(ops: seq<Op>)
    requires Increasing(ops)
    ensures Sorted(Log(ops)) && Unique(Log(ops))
    ensures forall e :: e in Log(ops) ==> ops != [] && e.at <= ops[|ops| - 1].at && e.job != ""
    ensures ops != [] && Log(ops) != [] ==> LastTime(ops) <= ops[|ops| - 1].at
  {
    if ops != [] {
      var before, op := ops[..|ops| - 1], ops[|ops| - 1];
      LogInv(before);
      DropJobSorted(Log(before), op.job);
      DropJobUnique(Log(before), op.job);
      DropJobMembers(Log(before), op.job);
      var kept := DropJob(Log(before), op.job);
      forall i | 0 <= i < |kept|
        ensures kept[i].at < op.at && kept[i].job != op.job
      {
        assert kept[i] in kept;
      }
    }
  }

  /** What recording does to the retained end of the log. */
  lemma RecordSuffix(log: seq<Entry>, e: Entry)
    requires Sorted(log) && Unique(log) && forall x :: x in log ==> x.at < e.at
    ensures Prune(DropJob(Recent(log, e.at), e.job) + [e], e.at) == Recent(DropJob(log, e.job) + [e], e.at)
  {
    DeadBounds(log, e.at);
    var cut := Cut(log, e.at);
    var next := DropJob(log, e.job) + [e];
    var from := |DropJob(log[..cut], e.job)|;
    NextSorted(log, e);
    CutCovers(log, cut, e);
    DeadBounds(next, e.at);
    hide Sorted, Dead, Unique, Prune;
    NextSuffix(log, cut, e);
    PruneSuffix(next, from, e.at);
  }

  lemma NextSuffix(log: seq<Entry>, cut: nat, e: Entry)
    requires cut <= |log|
    ensures var from := |DropJob(log[..cut], e.job)|; var next := DropJob(log, e.job) + [e];
      from <= |next| && next[from..] == DropJob(log[cut..], e.job) + [e]
  {
    assert log == log[..cut] + log[cut..];
    DropJobConcat(log[..cut], log[cut..], e.job);
  }

  lemma NextSorted(log: seq<Entry>, e: Entry)
    requires Sorted(log) && forall x :: x in log ==> x.at < e.at
    ensures Sorted(DropJob(log, e.job) + [e])
  {
    DropJobSorted(log, e.job);
    DropJobMembers(log, e.job);
    var kept := DropJob(log, e.job);
    forall i | 0 <= i < |kept|
      ensures kept[i].at < e.at
    {
      assert kept[i] in kept;
    }
  }

  /** What the log had already lost is also lost from the next log. */
  lemma CutCovers(log: seq<Entry>, cut: nat, e: Entry)
    requires Sorted(log) && Unique(log) && cut == Cut(log, e.at) && cut <= |log|
    ensures |DropJob(log[..cut], e.job)| <= Cut(DropJob(log, e.job) + [e], e.at)
  {
    hide Sorted, Unique, DropJob, Dead;
    var gone, kept := log[..cut], log[cut..];
    assert log == gone + kept;
    DropJobConcat(gone, kept, e.job);
    if cut == Dead(log, e.at) {
      DeadCovers(log, cut, e);
    } else {
      KeptShrinks(log, cut, e.job);
    }
  }

  /** Dropping one job shortens the retained part by one entry at most. */
  lemma KeptShrinks(log: seq<Entry>, cut: nat, job: JobId)
    requires Unique(log) && cut <= |log|
    ensures |DropJob(log[cut..], job)| >= |log| - cut - 1
  {
    hide DropJob;
    DropJobUnique(log[cut..], job);
  }

  /** Entries too old before are too old after. */
  lemma DeadCovers(log: seq<Entry>, cut: nat, e: Entry)
    requires cut == Dead(log, e.at) && cut <= |log|
    ensures |DropJob(log[..cut], e.job)| <= Dead(DropJob(log, e.job) + [e], e.at)
  {
    var gone, kept := log[..cut], log[cut..];
    assert log == gone + kept;
    DropJobConcat(gone, kept, e.job);
    DeadBounds(log, e.at);
    DropJobMembers(gone, e.job);
    hide Dead, DropJob;
    var stale := DropJob(gone, e.job);
    var next := DropJob(log, e.job) + [e];
    assert next == stale + (DropJob(kept, e.job) + [e]);
    forall i | 0 <= i < |stale|
      ensures !Alive(next[i], e.at)
    {
      assert next[i] == stale[i] && stale[i] in stale;
      assert next[i] in gone;
    }
    DeadAtLeast(next, |stale|, e.at);
  }

  /** The file is exactly the end of the log that is young enough and within the cap. */
  lemma {:induction false} StoreIsRecentLog(ops: seq<Op>)
    requires Increasing(ops)
    ensures Store(ops) == Recent(Log(ops), LastTime(ops))
  {
    if ops == [] {
      assert Recent([], 0) == [];
    } else {
      var before, op := ops[..|ops| - 1], ops[|ops| - 1];
      StoreIsRecentLog(before);
      LogInv(before);
      if op.job != "" {
        var log := Log(before);
        assert log != [] ==> before[|before| - 1].at < op.at;
        PruneRecent(log, LastTime(before), op.at);
        if op.Record? {
          RecordSuffix(log, Entry(op.job, op.data, op.at));
        }
      }
    }
  }

  lemma PruneRecent(log: seq<Entry>, now: int, later: int)
    requires Sorted(log) && (log != [] ==> now <= later)
    ensures Prune(Recent(log, now), later) == Recent(log, later)
  {
    if log != [] {
      DeadBounds(log, now);
      DeadBounds(log, later);
      DeadMonotone(log, now, later);
      hide Sorted, Dead, Prune;
      PruneSuffix(log, Cut(log, now), later);
    } else {
      assert Recent(log, now) == [] && Recent(log, later) == [];
    }
  }

  // ---------------------------------------------------------------- when a job is remembered

  /** The last result recorded for a job. */
  function LastRecord(ops: seq<Op>, job: JobId): Option<Entry> {
    if ops == [] then None
    else
      var op := ops[|ops| - 1];
      if op.Record? && op.job == job then Some(Entry(job, op.data, op.at)) else LastRecord(ops[..|ops| - 1], job)
  }

  /** The other jobs recorded since. */
  function LaterJobs(ops: seq<Op>, job: JobId): set<JobId> {
    if ops == [] then {}
    else
      var op := ops[|ops| - 1];
      if op.Lookup? || op.job == "" then LaterJobs(ops[..|ops| - 1], job)
      else if op.job == job then {}
      else LaterJobs(ops[..|ops| - 1], job) + {op.job}
  }

  function Jobs(list: seq<Entry>): set<JobId> {
    set e | e in list :: e.job
  }

  lemma {:induction false} JobsCount(list: seq<Entry>)
    requires Unique(list)
    ensures |Jobs(list)| == |list|
  {
    if list != [] {
      JobsCount(list[1..]);
      assert list == [list[0]] + list[1..];
      assert Jobs(list) == {list[0].job} + Jobs(list[1..]);
      assert list[0].job !in Jobs(list[1..]);
    }
  }

  /** A job's place in the log: what follows it are exactly the jobs recorded since. */
  lemma {:induction false} LogAround(ops: seq<Op>, job: JobId) returns (older: seq<Entry>, newer: seq<Entry>)
    requires job != "" && LastRecord(ops, job).Some?
    ensures Log(ops) == older + [LastRecord(ops, job).value] + newer
    ensures Jobs(newer) == LaterJobs(ops, job)
  {
    var before, op := ops[..|ops| - 1], ops[|ops| - 1];
    if op.Record? && op.job == job {
      older, newer := DropJob(Log(before), job), [];
    } else {
      older, newer := LogAround(before, job);
      if op.Record? && op.job != "" {
        LastRecordJob(before, job);
        older, newer := LogPush(older, LastRecord(before, job).value, newer, Entry(op.job, op.data, op.at));
      }
    }
  }

  lemma LogPush(older: seq<Entry>, e: Entry, newer: seq<Entry>, f: Entry)
    returns (older': seq<Entry>, newer': seq<Entry>)
    requires e.job != f.job
    ensures DropJob(older + [e] + newer, f.job) + [f] == older' + [e] + newer'
    ensures Jobs(newer') == Jobs(newer) + {f.job}
  {
    DropJobConcat(older + [e], newer, f.job);
    DropJobConcat(older, [e], f.job);
    assert [e][1..] == [];
    older', newer' := DropJob(older, f.job), DropJob(newer, f.job) + [f];
    JobsPush(newer, f);
  }

  lemma JobsPush(newer: seq<Entry>, f: Entry)
    ensures Jobs(DropJob(newer, f.job) + [f]) == Jobs(newer) + {f.job}
  {
    DropJobMembers(newer, f.job);
    var kept := DropJob(newer, f.job);
    assert forall x :: x in kept + [f] <==> x in kept || x == f;
  }

  lemma {:induction false} LastRecordJob(ops: seq<Op>, job: JobId)
    requires LastRecord(ops, job).Some?
    ensures LastRecord(ops, job).value.job == job
  {
    if !(ops[|ops| - 1].Record? && ops[|ops| - 1].job == job) {
      LastRecordJob(ops[..|ops| - 1], job);
    }
  }

  lemma {:induction false} NoRecordNoLog(ops: seq<Op>, job: JobId)
    requires LastRecord(ops, job).None?
    ensures forall e :: e in Log(ops) ==> e.job != job
  {
    if ops != [] {
      NoRecordNoLog(ops[..|ops| - 1], job);
      DropJobMembers(Log(ops[..|ops| - 1]), ops[|ops| - 1].job);
    }
  }

  lemma {:induction false} FindAbsent(list: seq<Entry>, job: JobId)
    requires forall e :: e in list ==> e.job != job
    ensures Find(list, job).None?
  {
    if list != [] {
      assert list[0] in list && forall e :: e in list[1..] ==> e in list;
      FindAbsent(list[1..], job);
    }
  }

  lemma {:induction false} FindAt(list: seq<Entry>, i: nat)
    requires Unique(list) && i < |list|
    ensures Find(list, list[i].job) == Some(list[i].data)
  {
    if i > 0 {
      assert list[0].job != list[i].job;
      FindAt(list[1..], i - 1);
    }
  }

  /**
   After every sequence of records and lookups with a strictly increasing clock, a job's stored result is
   its last one, and it is there exactly while that is younger than 24 hours and fewer than 256 other jobs
   were recorded since.
   */
  lemma RememberedIff(ops: seq<Op>, job: JobId)
    requires Increasing(ops) && job != ""
    ensures var last := LastRecord(ops, job);
      Find(Store(ops), job) ==
        if last.Some? && LastTime(ops) - last.value.at < 86_400_000_000_000 && |LaterJobs(ops, job)| < 256
        then Some(last.value.data) else None
  {
    StoreIsRecentLog(ops);
    LogInv(ops);
    var log, now := Log(ops), LastTime(ops);
    DeadBounds(log, now);
    if LastRecord(ops, job).None? {
      NoRecordNoLog(ops, job);
      FindAbsent(Recent(log, now), job);
    } else {
      var older, newer := LogAround(ops, job);
      LastRecordJob(ops, job);
      FindInRecent(log, older, LastRecord(ops, job).value, newer, now);
    }
  }

  lemma FindInRecent(log: seq<Entry>, older: seq<Entry>, e: Entry, newer: seq<Entry>, now: int)
    requires Sorted(log) && Unique(log) && log == older + [e] + newer
    ensures Find(Recent(log, now), e.job) == if Alive(e, now) && |Jobs(newer)| < MAX_ENTRIES then Some(e.data) else None
  {
    DeadBounds(log, now);
    var i := |older|;
    assert log[i] == e;
    UniqueTail(log, older, e, newer);
    var cut := Cut(log, now);
    assert Alive(e, now) <==> i >= Dead(log, now);
    if cut <= i {
      assert Recent(log, now)[i - cut] == e;
      FindAt(Recent(log, now), i - cut);
    } else {
      FindAbsent(Recent(log, now), e.job);
    }
  }

  lemma UniqueTail(log: seq<Entry>, older: seq<Entry>, e: Entry, newer: seq<Entry>)
    requires Unique(log) && log == older + [e] + newer
    ensures |Jobs(newer)| == |newer|
  {
    forall i, j | 0 <= i < j < |newer|
      ensures newer[i].job != newer[j].job
    {
      assert newer[i] == log[|older| + 1 + i] && newer[j] == log[|older| + 1 + j];
    }
    JobsCount(newer);
  }

  /** The file never holds a job twice, nor more than 256 entries. */
  lemma StoreBounds(ops: seq<Op>)
    requires Increasing(ops)
    ensures Unique(Store(ops)) && |Store(ops)| <= 256
  {
    StoreIsRecentLog(ops);
    LogInv(ops);
    DeadBounds(Log(ops), LastTime(ops));
  }
}
