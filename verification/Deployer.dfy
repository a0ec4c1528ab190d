/**
 The server code that drives the queue: server/db.go's transactions and server/deploy.go's loops, each
 proved to be a step of JobQueue. The hub is a parameter: whether it accepts a frame for a PC.
 */
module Deployer {
  import opened Basics
  import opened Commands
  import opened JobQueue

  class Deployer {
    var jobs: map<JobId, Job>
    var jobStatus: map<JobId, JobStatus>
    var rows: map<Key, Row>
    var outbound: seq<Command>         // frames the hub accepted
    ghost var expiries: map<Key, nat>

    constructor ()
      ensures State() == EMPTY_SERVER
    {
      jobs, jobStatus, rows, outbound, expiries := map[], map[], map[], [], map[];
    }

    ghost function State(): Server
      reads this
    {
      Server(jobs, jobStatus, rows, outbound, expiries)
    }

    method UpdateDeployResult(k: Key, status: Status, retry: Option<nat>, expected: Option<nat>) returns (affected: nat)
      modifies this`rows
      ensures State() == Update(old(State()), k, status, retry, expected)
      ensures affected == One(k in old(rows) && old(rows)[k].status != Cancelled
                              && (expected.None? || expected.value == old(rows)[k].retryCount))
      ensures affected == 1 ==>
        var r := old(rows)[k];
        rows == old(rows)[k := Row(status, if retry.Some? then retry.value else r.retryCount, r.maxRetry, None)]
      ensures affected == 0 ==> rows == old(rows)
    {
      affected := 0;
      if k in rows {
        var r := rows[k];
        if r.status != Cancelled && (expected.None? || expected.value == r.retryCount) {
          rows := rows[k := Row(status, if retry.Some? then retry.value else r.retryCount, r.maxRetry, None)];
          affected := 1;
        }
      }
    }

    method UpdateJobStatus(job: JobId)
      modifies this`jobStatus
      ensures State() == Settle(old(State()), job)
      ensures jobStatus ==
        if job in jobs && forall k :: k in rows && k.0 == job ==> rows[k].status != Pending && rows[k].status != Running
        then old(jobStatus)[job := Finished] else old(jobStatus)
    {
      var todo := rows.Keys;
      while todo != {}
        invariant todo <= rows.Keys
        invariant forall k :: k in rows && k.0 == job && k !in todo ==> !PendingLike(rows[k].status)
        invariant jobStatus == old(jobStatus)
        decreases |todo|
      {
        var k :| k in todo;
        if k.0 == job && PendingLike(rows[k].status) {
          return;
        }
        todo := todo - {k};
      }
      if job in jobs {
        jobStatus := jobStatus[job := Finished];
      }
    }

    /** The query of the claim: a pending, unexpired row of the highest priority, the oldest among those. */
    method SelectNext(agent: AgentId, now: int) returns (best: Option<JobId>)
      ensures best.Some? ==> IsNext(State(), agent, now, best.value)
      ensures best.None? ==> forall job :: !Claimable(State(), agent, now, job)
      ensures best.None? ==>
        forall o :: (o, agent) in rows && rows[(o, agent)].status == Pending && o in jobs ==>
          jobs[o].expireAt.Some? && jobs[o].expireAt.value <= now
      ensures best.Some? ==>
        var j := best.value;
        && j in jobs && (j, agent) in rows && rows[(j, agent)].status == Pending
        && (jobs[j].expireAt.None? || jobs[j].expireAt.value > now)
        && forall o :: (o, agent) in rows && rows[(o, agent)].status == Pending && o in jobs
                       && (jobs[o].expireAt.None? || jobs[o].expireAt.value > now) ==>
             && jobs[j].priority >= jobs[o].priority
             && (jobs[j].priority == jobs[o].priority ==> jobs[j].createdAt <= jobs[o].createdAt)
    {
      best := None;
      var todo := rows.Keys;
      while todo != {}
        invariant todo <= rows.Keys
        invariant best.Some? ==> Claimable(State(), agent, now, best.value)
        invariant forall job :: Claimable(State(), agent, now, job) && (job, agent) !in todo ==>
          best.Some? && Ranked(jobs[best.value], jobs[job])
        decreases |todo|
      {
        var k :| k in todo;
        if k.1 == agent && rows[k].status.Pending? && k.0 in jobs && Unexpired(jobs[k.0], now) {
          if best.None? || !Ranked(jobs[best.value], jobs[k.0]) {
            best := Some(k.0);
          }
        }
        todo := todo - {k};
      }
      forall o | (o, agent) in rows && rows[(o, agent)].status == Pending && o in jobs
                 && (jobs[o].expireAt.None? || jobs[o].expireAt.value > now)
        ensures Claimable(State(), agent, now, o)
      {
      }
    }

    /** The transaction that claims the best pending row of an idle PC. */
    method AcquireNextJob(agent: AgentId, now: int, lease: int) returns (claim: Option<(JobId, nat)>)
      modifies this`rows
      ensures claim.None? ==>
        && State() == old(State())
        && (Busy(old(State()), agent) || forall job :: !Claimable(old(State()), agent, now, job))
      ensures claim.Some? ==>
        && var job := claim.value.0;
        && !Busy(old(State()), agent) && IsNext(old(State()), agent, now, job)
        && State() == Claim(old(State()), (job, agent), lease)
        && claim.value.1 == old(State()).rows[(job, agent)].retryCount
      ensures claim.None? ==>
        || (exists k :: k in rows && k.1 == agent && rows[k].status == Running)
        || (forall o :: (o, agent) in rows && rows[(o, agent)].status == Pending && o in jobs ==>
              jobs[o].expireAt.Some? && jobs[o].expireAt.value <= now)
      ensures claim.Some? ==>
        var j := claim.value.0;
        && (forall k :: k in old(rows) && k.1 == agent ==> old(rows)[k].status != Running)
        && j in jobs && (j, agent) in old(rows) && old(rows)[(j, agent)].status == Pending
        && (jobs[j].expireAt.None? || jobs[j].expireAt.value > now)
        && rows == old(rows)[(j, agent) := Row(Running, old(rows)[(j, agent)].retryCount,
                                               old(rows)[(j, agent)].maxRetry, Some(lease))]
        && forall o :: (o, agent) in old(rows) && old(rows)[(o, agent)].status == Pending && o in jobs
                       && (jobs[o].expireAt.None? || jobs[o].expireAt.value > now) ==>
             && jobs[j].priority >= jobs[o].priority
             && (jobs[j].priority == jobs[o].priority ==> jobs[j].createdAt <= jobs[o].createdAt)
    {
      hide Claimable, IsNext;
      if exists k :: k in rows.Keys && k.1 == agent && rows[k].status.Running? {
        return None;
      }
      var best := SelectNext(agent, now);
      if best.None? {
        return None;
      }
      var k := (best.value, agent);
      var r := rows[k];
      rows := rows[k := r.(status := Running, leaseUntil := Some(lease))];
      return Some((best.value, r.retryCount));
    }

    method PumpAgent(agent: AgentId, turn: Turn) returns (sent: bool)
      modifies this`rows, this`outbound
      ensures PumpStep(old(State()), State(), agent, turn.now, turn.lease, turn.accepted)
      ensures sent ==> turn.accepted && |outbound| == |old(outbound)| + 1
      ensures sent ==> outbound[..|old(outbound)|] == old(outbound)
      ensures !sent ==> outbound == old(outbound) && rows.Keys == old(rows).Keys
      ensures !sent ==> forall k :: k in old(rows) ==>
        rows[k] == old(rows)[k] || (old(rows)[k].status == Pending && rows[k] == old(rows)[k].(leaseUntil := None))
      ensures sent ==>
        var c := outbound[|old(outbound)|];
        var k := (c.job, agent);
        && c.agent == agent && c.job in jobs && k in old(rows) && old(rows)[k].status == Pending
        && c.attempt == old(rows)[k].retryCount && c.kind == jobs[c.job].kind && c.expireAt == jobs[c.job].expireAt
        && rows == old(rows)[k := Row(Running, old(rows)[k].retryCount, old(rows)[k].maxRetry, Some(turn.lease))]
    {
      var claim := AcquireNextJob(agent, turn.now, turn.lease);
      if claim.None? {
        return false;
      }
      var k := (claim.value.0, agent);
      if turn.accepted {
        outbound := outbound + [Command(k.0, agent, claim.value.1, jobs[k.0].kind, jobs[k.0].expireAt)];
        return true;
      } else {
        var affected := UpdateDeployResult(k, Pending, None, None);
        return false;
      }
    }

    method GetExpiredLeaseResults(now: int) returns (todo: seq<Lease>)
      ensures LeaseSnapshot(State(), now, todo)
      ensures forall k :: k in rows && rows[k].status == Running && rows[k].leaseUntil.Some? ==>
        rows[k].leaseUntil.value < now ==> exists i :: 0 <= i < |todo| && todo[i].key == k
      ensures forall i :: 0 <= i < |todo| ==>
        && todo[i].key in rows && rows[todo[i].key].status == Running
        && rows[todo[i].key].leaseUntil.Some? && rows[todo[i].key].leaseUntil.value < now
        && todo[i].retryCount == rows[todo[i].key].retryCount && todo[i].maxRetry == rows[todo[i].key].maxRetry
    {
      todo := [];
      var left := rows.Keys;
      while left != {}
        invariant left <= rows.Keys
        invariant forall i :: 0 <= i < |todo| ==> todo[i].key !in left
        invariant forall i :: 0 <= i < |todo| ==>
          LeaseExpired(State(), todo[i].key, now)
          && todo[i].retryCount == rows[todo[i].key].retryCount && todo[i].maxRetry == rows[todo[i].key].maxRetry
        invariant forall i, j :: 0 <= i < j < |todo| ==> todo[i].key != todo[j].key
        invariant forall k :: LeaseExpired(State(), k, now) && k !in left ==>
          exists i :: 0 <= i < |todo| && todo[i].key == k
        decreases |left|
      {
        var k :| k in left;
        var r := rows[k];
        left := left - {k};
        if r.status.Running? && r.leaseUntil.Some? && r.leaseUntil.value < now {
          ghost var before := todo;
          todo := todo + [Lease(k, r.retryCount, r.maxRetry)];
          assert todo[|before|].key == k;
          assert forall i :: 0 <= i < |before| ==> todo[i] == before[i];
        }
      }
      forall k | k in rows && rows[k].status == Running && rows[k].leaseUntil.Some? && rows[k].leaseUntil.value < now
        ensures exists i :: 0 <= i < |todo| && todo[i].key == k
      {
        assert LeaseExpired(State(), k, now);
      }
    }

    /** Requeues or fails every row whose lease has passed; pumps a PC as soon as its row is requeued. */
    method SweepExpiredLeases(now: int, turns: nat -> Turn)
      modifies this
      ensures exists todo ::
        LeaseSnapshot(old(State()), now, todo) && SweepRun(old(State()), State(), todo, Taken(turns, |todo|))
    {
      hide SweepStep;
      var todo := GetExpiredLeaseResults(now);
      for i := 0 to |todo|
        invariant SweepRun(old(State()), State(), todo[..i], Taken(turns, i))
      {
        ghost var before := State();
        SweepOne(todo[i], turns(i));
        SweepRunExtend(old(State()), before, State(), todo, i, turns);
      }
      assert todo[..|todo|] == todo;
    }

    method SweepOne(l: Lease, turn: Turn)
      modifies this
      ensures SweepStep(old(State()), State(), l, turn)
      ensures AsSeen(old(rows), l) && l.key.0 in jobs ==>
        && l.key in rows
        && (jobs[l.key.0].destructive || l.retryCount >= l.maxRetry ==>
              rows[l.key] == Row(Failed, l.retryCount, l.maxRetry, None))
        && (!jobs[l.key.0].destructive && l.retryCount < l.maxRetry ==>
              && (rows[l.key].status == Pending || rows[l.key].status == Running)
              && rows[l.key].retryCount == l.retryCount + 1 && rows[l.key].maxRetry == l.maxRetry)
    {
      hide Sweep, Settle, PumpStep;
      var requeued := UpdateExpired(l);
      if requeued {
        var sent := PumpAgent(l.key.1, turn);
      }
      UpdateJobStatus(l.key.0);
    }

    /** The row update of the sweep: fail, or requeue as the next attempt. */
    method UpdateExpired(l: Lease) returns (requeued: bool)
      modifies this`rows, this`expiries
      ensures State() == Sweep(old(State()), l) && requeued == !GivenUp(old(State()), l)
      ensures requeued <==> !(l.key.0 in jobs && jobs[l.key.0].destructive) && l.retryCount < l.maxRetry
      ensures AsSeen(old(rows), l) ==>
        rows == old(rows)[l.key := if requeued then Row(Pending, l.retryCount + 1, l.maxRetry, None)
                                   else Row(Failed, l.retryCount, l.maxRetry, None)]
    {
      if (l.key.0 in jobs && jobs[l.key.0].destructive) || l.retryCount + 1 > l.maxRetry {
        var affected := UpdateDeployResult(l.key, Failed, None, None);
        requeued := false;
      } else {
        var affected := UpdateDeployResult(l.key, Pending, Some(l.retryCount + 1), None);
        requeued := true;
      }
      expiries := Expire(State(), l.key).expiries;
    }

    method GetExpiredPendingResults(now: int) returns (todo: seq<Key>)
      ensures PendingSnapshot(State(), now, todo)
      ensures forall k :: k in todo <==>
        k in rows && rows[k].status == Pending && k.0 in jobs && jobs[k.0].expireAt.Some?
        && jobs[k.0].expireAt.value < now
    {
      todo := [];
      var left := rows.Keys;
      while left != {}
        invariant left <= rows.Keys
        invariant forall i :: 0 <= i < |todo| ==> todo[i] !in left && PendingExpired(State(), todo[i], now)
        invariant forall i, j :: 0 <= i < j < |todo| ==> todo[i] != todo[j]
        invariant forall k :: PendingExpired(State(), k, now) && k !in left ==> k in todo
        decreases |left|
      {
        var k :| k in left;
        left := left - {k};
        if rows[k].status.Pending? && k.0 in jobs && jobs[k.0].expireAt.Some? && jobs[k.0].expireAt.value < now {
          todo := todo + [k];
        }
      }
    }

    /** Expires every row still queued past its job's expiry. */
    method SweepExpiredPending(now: int)
      modifies this`rows, this`jobStatus
      ensures exists todo :: PendingSnapshot(old(State()), now, todo) && State() == LapseAll(old(State()), todo)
      ensures rows.Keys == old(rows).Keys
      ensures forall k :: k in old(rows) ==>
        var r := old(rows)[k];
        rows[k] == if r.status == Pending && k.0 in jobs && jobs[k.0].expireAt.Some? && jobs[k.0].expireAt.value < now
                   then Row(Done(Outcome.Expired), r.retryCount, r.maxRetry, None) else r
    {
      hide Lapse, LapseAll, PendingSnapshot;
      var todo := GetExpiredPendingResults(now);
      LapseAllSteps(old(State()), todo, 0);
      DistinctKeys(old(State()), now, todo);
      for i := 0 to |todo|
        invariant State() == LapseAll(old(State()), todo[..i])
        invariant rows.Keys == old(rows).Keys
        invariant forall k :: k in old(rows) && k !in todo[..i] ==> rows[k] == old(rows)[k]
        invariant forall k :: k in todo[..i] ==>
          rows[k] == Row(Done(Outcome.Expired), old(rows)[k].retryCount, old(rows)[k].maxRetry, None)
      {
        assert todo[i] !in todo[..i];
        LapseAllSteps(old(State()), todo, i);
        LapseOne(todo[i]);
        assert todo[..i + 1] == todo[..i] + [todo[i]];
      }
      assert todo[..|todo|] == todo;
    }

    method LapseOne(k: Key)
      modifies this`rows, this`jobStatus
      ensures State() == Lapse(old(State()), k)
      ensures k in old(rows) && old(rows)[k].status != Cancelled ==>
        rows == old(rows)[k := Row(Done(Outcome.Expired), old(rows)[k].retryCount, old(rows)[k].maxRetry, None)]
    {
      hide Settle, Update;
      var affected := UpdateDeployResult(k, Done(Outcome.Expired), None, None);
      UpdateJobStatus(k.0);
    }

    /**
     Inserts the job with one pending row per target, pumps every target, and marks the job dispatched
     once no target is pending. No targets, no job.
     */
    method CreateJob(id: JobId, job: Job, targets: seq<AgentId>, maxRetry: int, turns: nat -> Turn)
      returns (created: bool)
      requires id != "" && id !in jobs && Inv(State())
      requires forall i, j :: 0 <= i < j < |targets| ==> targets[i] != targets[j]
      modifies this
      ensures created <==> |targets| > 0
      ensures !created ==> State() == old(State())
      ensures created ==> exists pumped ::
        && PumpRun(Create(old(State()), id, job, Elements(targets), maxRetry), pumped, targets, Taken(turns, |targets|))
        && State() == MarkIfDispatched(pumped, id)
      ensures Inv(State()) && Evolves(old(State()), State())
      ensures forall k :: k in old(rows) && k.1 !in targets ==> k in rows && rows[k] == old(rows)[k]
      ensures created ==> id in jobs && jobs[id] == job
      ensures created ==> forall a :: a in targets ==>
        && (id, a) in rows && (rows[(id, a)].status == Pending || rows[(id, a)].status == Running)
        && rows[(id, a)].retryCount == 0 && rows[(id, a)].maxRetry == maxRetry
    {
      hide Inv, Evolves, Create, PerTarget, Elements, PumpRun, Taken;
      if |targets| == 0 {
        EvolvesReflexive(State());
        return false;
      }
      InsertJob(id, job, targets, maxRetry);
      ghost var inserted := State();
      CreateKeeps(old(State()), id, job, Elements(targets), maxRetry);
      PumpTargets(targets, turns);
      ghost var pumped := State();
      PumpRunKeeps(inserted, pumped, targets, Taken(turns, |targets|));
      EvolvesTransitive(old(State()), inserted, pumped);
      MarkDispatched(id);
      MarkKeeps(pumped, id);
      EvolvesTransitive(old(State()), pumped, State());
      return true;
    }

    method PumpTargets(targets: seq<AgentId>, turns: nat -> Turn)
      modifies this`rows, this`outbound
      ensures PumpRun(old(State()), State(), targets, Taken(turns, |targets|))
    {
      hide PumpStep;
      for i := 0 to |targets|
        invariant PumpRun(old(State()), State(), targets[..i], Taken(turns, i))
      {
        ghost var before := State();
        var sent := PumpAgent(targets[i], turns(i));
        PumpRunExtend(old(State()), before, State(), targets, i, turns);
      }
      assert targets[..|targets|] == targets;
    }

    /** The job is dispatched once every target has moved off pending. */
    method MarkDispatched(id: JobId)
      modifies this`jobStatus
      ensures State() == MarkIfDispatched(old(State()), id)
      ensures jobStatus == if forall k :: k in rows && k.0 == id ==> rows[k].status != Pending
                           then old(jobStatus)[id := Dispatched] else old(jobStatus)
    {
      if forall k :: k in rows.Keys && k.0 == id ==> !rows[k].status.Pending? {
        jobStatus := jobStatus[id := Dispatched];
      }
    }

    method InsertJob(id: JobId, job: Job, targets: seq<AgentId>, maxRetry: int)
      modifies this
      ensures State() == Create(old(State()), id, job, Elements(targets), maxRetry)
      ensures jobs == old(jobs)[id := job] && jobStatus == old(jobStatus)[id := Queued]
      ensures forall a :: a in targets ==> (id, a) in rows && rows[(id, a)] == Row(Pending, 0, maxRetry, None)
      ensures forall k :: k in rows <==> k in old(rows) || (k.0 == id && k.1 in targets)
      ensures forall k :: k in old(rows) && !(k.0 == id && k.1 in targets) ==> rows[k] == old(rows)[k]
    {
      jobs := jobs[id := job];
      jobStatus := jobStatus[id := Queued];
      var row := Row(Pending, 0, maxRetry, None);
      for i := 0 to |targets|
        invariant rows == old(rows) + PerTarget(id, Elements(targets[..i]), row)
        invariant expiries == old(expiries) + PerTarget(id, Elements(targets[..i]), 0)
        invariant jobs == old(jobs)[id := job] && jobStatus == old(jobStatus)[id := Queued] && outbound == old(outbound)
      {
        PerTargetAppend(old(rows), id, targets, i, row);
        PerTargetAppend(old(expiries), id, targets, i, 0);
        rows := rows[(id, targets[i]) := row];
        expiries := expiries[(id, targets[i]) := 0];
      }
      assert targets[..|targets|] == targets;
    }

    method CancelDeployJob(id: JobId)
      modifies this`rows, this`jobStatus
      ensures State() == Cancel(old(State()), id)
      ensures rows.Keys == old(rows).Keys
      ensures forall k :: k in old(rows) ==>
        var r := old(rows)[k];
        rows[k] == if k.0 == id && (r.status == Pending || r.status == Running)
                   then Row(Cancelled, r.retryCount, r.maxRetry, None) else r
      ensures jobStatus == if id in jobs then old(jobStatus)[id := Aborted] else old(jobStatus)
    {
      if id in jobs {
        jobStatus := jobStatus[id := Aborted];
      }
      rows := map k | k in rows ::
        if k.0 == id && PendingLike(rows[k].status) then rows[k].(status := Cancelled, leaseUntil := None) else rows[k];
    }

    /** The ack goes out for every result with a job id; a stale one changes nothing else. */
    method HandleExecResult(r: Report) returns (ack: bool)
      modifies this`rows, this`jobStatus
      ensures State() == Accept(old(State()), r)
      ensures ack <==> r.job != ""
      ensures rows.Keys == old(rows).Keys
      ensures forall k :: k in old(rows) ==>
        var row := old(rows)[k];
        rows[k] == if r.job != "" && k == (r.job, r.agent) && row.status != Cancelled && row.retryCount == r.attempt
                   then Row(Done(r.outcome), row.retryCount, row.maxRetry, None) else row
    {
      if r.job == "" {
        return false;
      }
      var affected := UpdateDeployResult((r.job, r.agent), Done(r.outcome), None, Some(r.attempt));
      if affected > 0 {
        UpdateJobStatus(r.job);
      }
      return true;
    }
  }

  /** The row is still as the sweep's query saw it. */
  predicate AsSeen(rows: map<Key, Row>, l: Lease) {
    && l.key in rows && rows[l.key].status == Running
    && rows[l.key].retryCount == l.retryCount && rows[l.key].maxRetry == l.maxRetry
  }

  function Elements(targets: seq<AgentId>): set<AgentId> {
    set a | a in targets
  }

  lemma PerTargetAppend<V>(m: map<Key, V>, id: JobId, targets: seq<AgentId>, i: nat, v: V)
    requires i < |targets|
    ensures (m + PerTarget(id, Elements(targets[..i]), v))[(id, targets[i]) := v]
         == m + PerTarget(id, Elements(targets[..i + 1]), v)
  {
    assert targets[..i + 1] == targets[..i] + [targets[i]];
  }

  /** The first n turns. */
  function Taken(turns: nat -> Turn, n: nat): (r: seq<Turn>)
    ensures |r| == n
    ensures n > 0 ==> r[..n - 1] == Taken(turns, n - 1) && r[n - 1] == turns(n - 1)
  {
    seq(n, i requires 0 <= i < n => turns(i))
  }

  lemma SweepRunExtend(s: Server, mid: Server, t: Server, todo: seq<Lease>, i: nat, turns: nat -> Turn)
    requires i < |todo| && SweepRun(s, mid, todo[..i], Taken(turns, i)) && SweepStep(mid, t, todo[i], turns(i))
    ensures SweepRun(s, t, todo[..i + 1], Taken(turns, i + 1))
  {
    hide SweepStep, Taken;
    assert todo[..i + 1][..i] == todo[..i];
    assert Taken(turns, i + 1)[..i] == Taken(turns, i);
  }

  lemma PumpRunExtend(s: Server, mid: Server, t: Server, targets: seq<AgentId>, i: nat, turns: nat -> Turn)
    requires i < |targets| && PumpRun(s, mid, targets[..i], Taken(turns, i))
    requires PumpStep(mid, t, targets[i], turns(i).now, turns(i).lease, turns(i).accepted)
    ensures PumpRun(s, t, targets[..i + 1], Taken(turns, i + 1))
  {
    hide PumpStep, Taken;
    assert targets[..i + 1][..i] == targets[..i];
    assert Taken(turns, i + 1)[..i] == Taken(turns, i);
  }

  lemma LapseAllSteps(s: Server, todo: seq<Key>, i: nat)
    requires i <= |todo|
    ensures LapseAll(s, todo[..0]) == s
    ensures i < |todo| ==> LapseAll(s, todo[..i + 1]) == Lapse(LapseAll(s, todo[..i]), todo[i])
  {
    hide Lapse;
    if i < |todo| {
      assert todo[..i + 1][..i] == todo[..i];
    }
  }

  lemma DistinctKeys(s: Server, now: int, todo: seq<Key>)
    requires PendingSnapshot(s, now, todo)
    ensures forall i, j :: 0 <= i < j < |todo| ==> todo[i] != todo[j]
  {
  }

  lemma MarkKeeps(s: Server, id: JobId)
    requires Inv(s)
    ensures Inv(MarkIfDispatched(s, id)) && Evolves(s, MarkIfDispatched(s, id))
    ensures MarkIfDispatched(s, id).rows == s.rows
  {
    hide Inv, Evolves;
    EvolvesReflexive(s);
    DispatchedKeeps(s, id);
  }
}
