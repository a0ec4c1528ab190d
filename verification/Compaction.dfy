/**
 The list both agent stores keep on disk, and the in-place compaction (`out := list[:0]`) with which
 both drop the entries of one job.
 */
module Compaction {
  import opened Basics
  import opened Commands

  /** An entry of completed_jobs.json or of pending_acks.json. */
  datatype Entry = Entry(job: JobId, data: string, at: int)

  function DropJob(list: seq<Entry>, job: JobId): seq<Entry> {
    if list == [] then []
    else if list[0].job == job then DropJob(list[1..], job)
    else [list[0]] + DropJob(list[1..], job)
  }

  ghost predicate Unique(list: seq<Entry>) {
    forall i, j :: 0 <= i < j < |list| ==> list[i].job != list[j].job
  }

  lemma {:induction false} DropJobConcat(a: seq<Entry>, b: seq<Entry>, job: JobId)
    ensures DropJob(a + b, job) == DropJob(a, job) + DropJob(b, job)
  {
    if a == [] {
      assert a + b == b;
    } else {
      assert (a + b)[1..] == a[1..] + b;
      DropJobConcat(a[1..], b, job);
    }
  }

  lemma {:induction false} DropJobMembers(list: seq<Entry>, job: JobId)
    ensures |DropJob(list, job)| <= |list|
    ensures forall e :: e in DropJob(list, job) <==> e in list && e.job != job
  {
    if list != [] {
      DropJobMembers(list[1..], job);
      assert list == [list[0]] + list[1..];
    }
  }

  lemma {:induction false} DropJobAbsent(list: seq<Entry>, job: JobId)
    requires forall e :: e in list ==> e.job != job
    ensures DropJob(list, job) == list
  {
    if list != [] {
      assert list[0] in list && forall e :: e in list[1..] ==> e in list;
      DropJobAbsent(list[1..], job);
    }
  }

  lemma {:induction false} DropJobUnique(list: seq<Entry>, job: JobId)
    requires Unique(list)
    ensures Unique(DropJob(list, job))
    ensures |DropJob(list, job)| >= |list| - 1
  {
    if list != [] {
      DropJobUnique(list[1..], job);
      DropJobMembers(list[1..], job);
      if list[0].job == job {
        DropJobAbsent(list[1..], job);
      } else {
        var rest := DropJob(list[1..], job);
        forall i | 0 <= i < |rest|
          ensures rest[i].job != list[0].job
        {
          assert rest[i] in rest;
        }
      }
    }
  }

  /** Keeps the entries of other jobs, writing over the list as it reads it; the writes never overtake the reads. */
  method CompactInPlace(a: array<Entry>, job: JobId) returns (kept: nat)
    modifies a
    ensures kept <= a.Length
    ensures a[..kept] == DropJob(old(a[..]), job)
  {
    kept := 0;
    for i := 0 to a.Length
      invariant kept <= i
      invariant a[..kept] == DropJob(old(a[..i]), job)
      invariant a[i..] == old(a[i..])
    {
      assert a[i] == old(a[i]);
      ghost var before := old(a[..i]);
      assert old(a[..i + 1]) == before + [old(a[i])];
      DropJobConcat(before, [old(a[i])], job);
      assert [old(a[i])][1..] == [];
      if a[i].job != job {
        a[kept] := a[i];
        kept := kept + 1;
      }
      assert a[i + 1..] == old(a[i + 1..]);
    }
    assert old(a[..a.Length]) == old(a[..]);
  }
}
