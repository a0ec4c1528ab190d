/**
 The agent's outbox of unacknowledged results, pending_acks.json, refined to a map from job to message.
 */
module PendingStore {
  import opened Basics
  import opened Commands
  import opened Compaction
  import CompletedStore

  /** The messages waiting for an ack, by job. */
  function View(list: seq<Entry>): map<JobId, string> {
    if list == [] then map[] else map[list[0].job := list[0].data] + View(list[1..])
  }

  lemma MapAssociative<K, V>(a: map<K, V>, b: map<K, V>, c: map<K, V>)
    ensures (a + b) + c == a + (b + c)
  {
  }

  lemma MapReplace<K, V>(m: map<K, V>, k: K, v: V)
    ensures (m - {k}) + map[k := v] == m[k := v]
  {
  }

  lemma {:induction false} ViewConcat(a: seq<Entry>, b: seq<Entry>)
    ensures View(a + b) == View(a) + View(b)
  {
    if a == [] {
      assert a + b == b;
    } else {
      var first := map[a[0].job := a[0].data];
      assert (a + b)[1..] == a[1..] + b && (a + b)[0] == a[0];
      assert View(a + b) == first + View(a[1..] + b);
      ViewConcat(a[1..], b);
      MapAssociative(first, View(a[1..]), View(b));
    }
  }

  lemma ViewOne(e: Entry)
    ensures View([e]) == map[e.job := e.data]
  {
    assert [e][1..] == [];
  }

  lemma MapDropFirst<K, V>(k: K, v: V, m: map<K, V>, job: K)
    ensures (map[k := v] + m) - {job} == if k == job then m - {job} else map[k := v] + (m - {job})
  {
  }

  lemma {:induction false} ViewDrop(list: seq<Entry>, job: JobId)
    ensures View(DropJob(list, job)) == View(list) - {job}
  {
    if list != [] {
      ViewDrop(list[1..], job);
      MapDropFirst(list[0].job, list[0].data, View(list[1..]), job);
      var rest := DropJob(list[1..], job);
      assert ([list[0]] + rest)[1..] == rest;
    }
  }

  lemma {:induction false} ViewKeys(list: seq<Entry>)
    ensures forall j :: j in View(list) <==> exists e :: e in list && e.job == j
  {
    if list != [] {
      ViewKeys(list[1..]);
      assert list == [list[0]] + list[1..];
    }
  }

  /** With one entry per job, the list holds each job's message and nothing else. */
  lemma {:induction false} ViewAt(list: seq<Entry>, i: nat)
    requires Unique(list) && i < |list|
    ensures list[i].job in View(list) && View(list)[list[i].job] == list[i].data
  {
    ViewKeys(list[1..]);
    if i == 0 {
      assert forall e :: e in list[1..] ==> e.job != list[0].job;
    } else {
      ViewAt(list[1..], i - 1);
    }
  }

  lemma PersistView(list: seq<Entry>, e: Entry)
    requires Unique(list)
    ensures View(DropJob(list, e.job) + [e]) == View(list)[e.job := e.data]
    ensures Unique(DropJob(list, e.job) + [e])
  {
    hide View, Unique, DropJob;
    ViewConcat(DropJob(list, e.job), [e]);
    ViewDrop(list, e.job);
    ViewOne(e);
    MapReplace(View(list), e.job, e.data);
    PersistUnique(list, e);
  }

  lemma PersistUnique(list: seq<Entry>, e: Entry)
    requires Unique(list)
    ensures Unique(DropJob(list, e.job) + [e])
  {
    hide DropJob;
    var kept := DropJob(list, e.job);
    DropJobUnique(list, e.job);
    DropJobMembers(list, e.job);
    forall i | 0 <= i < |kept|
      ensures kept[i].job != e.job
    {
      assert kept[i] in kept;
    }
  }

  class PendingResults {
    var file: seq<Entry>

    ghost predicate Valid()
      reads this
    {
      Unique(file)
    }

    constructor ()
      ensures Valid() && View(file) == map[]
    {
      file := [];
    }

    /** Replaces any earlier result of the job; the new one goes last. */
    method PersistPendingResult(job: JobId, data: string, now: int)
      requires Valid()
      modifies this
      ensures Valid() && View(file) == View(old(file))[job := data]
      ensures file == DropJob(old(file), job) + [Entry(job, data, now)]
    {
      var list := file;
      var buffer := new Entry[|list|](i requires 0 <= i < |list| => list[i]);
      assert buffer[..] == list;
      var kept := CompactInPlace(buffer, job);
      PersistView(list, Entry(job, data, now));
      file := buffer[..kept] + [Entry(job, data, now)];
    }

    /** The ack removes the job and leaves every other one waiting, in order. */
    method ClearPendingResult(job: JobId)
      requires Valid()
      modifies this
      ensures Valid() && View(file) == View(old(file)) - {job}
      ensures file == DropJob(old(file), job)
    {
      var list := file;
      var buffer := new Entry[|list|](i requires 0 <= i < |list| => list[i]);
      assert buffer[..] == list;
      var kept := CompactInPlace(buffer, job);
      ViewDrop(list, job);
      DropJobUnique(list, job);
      if kept < |list| {
        file := buffer[..kept];
      } else {
        DropJobFull(list, job);
      }
    }

    /** Every waiting message is sent once, in the order in which they were stored. */
    method ReplayPendingResults() returns (sent: seq<string>)
      requires Valid()
      ensures |sent| == |file| && forall i :: 0 <= i < |file| ==>
        file[i].job in View(file) && sent[i] == View(file)[file[i].job]
      ensures forall j :: j in View(file) ==> exists i :: 0 <= i < |file| && file[i].job == j
    {
      sent := [];
      for i := 0 to |file|
        invariant |sent| == i && forall k :: 0 <= k < i ==> sent[k] == file[k].data
      {
        sent := sent + [file[i].data];
      }
      forall i | 0 <= i < |file|
        ensures file[i].job in View(file) && View(file)[file[i].job] == file[i].data
      {
        ViewAt(file, i);
      }
      ViewKeys(file);
    }
  }

  lemma {:induction false} DropJobFull(list: seq<Entry>, job: JobId)
    requires |DropJob(list, job)| == |list|
    ensures DropJob(list, job) == list
  {
    if list != [] {
      DropJobMembers(list[1..], job);
      DropJobFull(list[1..], job);
      assert list == [list[0]] + list[1..];
    }
  }

  /** Outbox first, dedup store second, send last. */
  method SendDurableResult(outbox: PendingResults, done: CompletedStore.CompletedJobs, job: JobId, data: string,
                           now: int)
    returns (sent: string)
    requires outbox.Valid()
    modifies outbox, done
    ensures outbox.Valid() && View(outbox.file) == View(old(outbox.file))[job := data]
    ensures done.file == CompletedStore.Recorded(old(done.file), job, data, now)
    ensures sent == data
  {
    outbox.PersistPendingResult(job, data, now);
    done.RecordCompletedResult(job, data, now);
    sent := data;
  }
}
