/**
 The server's leased, prioritised job queue: one row per (job, PC). The state is a value, each SQL
 statement of server/db.go a function on it, and each operation of server/deploy.go a relation built
 from those, because the order among equally ranked jobs is left open by the query.
 */
module JobQueue {
  import opened Basics
  import opened Commands

  /** "success", "error" and "expired" are Done; "failed" is only ever written by the lease sweep. */
  datatype Status = Pending | Running | Done(outcome: Outcome) | Failed | Cancelled

  datatype JobStatus = Queued | Dispatched | Finished | Aborted

  datatype Row = Row(status: Status, retryCount: nat, maxRetry: int, leaseUntil: Option<int>)

  datatype Job = Job(kind: Kind, destructive: bool, priority: int, createdAt: int, expireAt: Option<int>)

  type Key = (JobId, AgentId)

  datatype Server = Server(
    jobs: map<JobId, Job>,
    jobStatus: map<JobId, JobStatus>,
    rows: map<Key, Row>,
    // history, read by no operation
    sends: seq<Command>,       // every dispatch the hub accepted
    expiries: map<Key, nat>    // lease expiries of each row
  )

  const EMPTY_SERVER := Server(map[], map[], map[], [], map[])

  predicate PendingLike(s: Status) {
    s.Pending? || s.Running?
  }

  // ---------------------------------------------------------------- statements

  /** UpdateDeployResult: every transition clears the lease, a cancelled row is never touched, and a
      given attempt must be the row's current one. */
  predicate Updatable(s: Server, k: Key, expected: Option<nat>) {
    k in s.rows && !s.rows[k].status.Cancelled? && (expected.None? || expected.value == s.rows[k].retryCount)
  }

  function Update(s: Server, k: Key, status: Status, retry: Option<nat>, expected: Option<nat>): Server {
    if Updatable(s, k, expected) then
      var r := s.rows[k];
      s.(rows := s.rows[k := Row(status, if retry.Some? then retry.value else r.retryCount, r.maxRetry, None)])
    else s
  }

  /** UpdateJobStatus: done once no row of the job is pending-like. */
  ghost predicate Settled(s: Server, job: JobId) {
    forall k :: k in s.rows && k.0 == job ==> !PendingLike(s.rows[k].status)
  }

  ghost function Settle(s: Server, job: JobId): Server {
    if job in s.jobs && Settled(s, job) then s.(jobStatus := s.jobStatus[job := Finished]) else s
  }

  /** CancelDeployJob: only rows that are still in flight. */
  function Cancel(s: Server, job: JobId): Server {
    s.(jobStatus := if job in s.jobs then s.jobStatus[job := Aborted] else s.jobStatus,
       rows := map k | k in s.rows ::
         if k.0 == job && PendingLike(s.rows[k].status) then s.rows[k].(status := Cancelled, leaseUntil := None)
         else s.rows[k])
  }

  /** The inserts of CreateJob. */
  function Create(s: Server, id: JobId, job: Job, targets: set<AgentId>, maxRetry: int): Server {
    s.(jobs := s.jobs[id := job],
       jobStatus := s.jobStatus[id := Queued],
       rows := s.rows + PerTarget(id, targets, Row(Pending, 0, maxRetry, None)),
       expiries := s.expiries + PerTarget(id, targets, 0))
  }

  /** The same value for each target of a job. */
  function PerTarget<V>(id: JobId, targets: set<AgentId>, v: V): (m: map<Key, V>)
    ensures forall k :: k in m <==> k.0 == id && k.1 in targets
    ensures forall k :: k in m ==> m[k] == v
  {
    var keys := set a | a in targets :: (id, a);
    map k | k in keys :: v
  }

  // ---------------------------------------------------------------- claiming

  predicate Unexpired(j: Job, now: int) {
    j.expireAt.None? || j.expireAt.value > now
  }

  predicate Claimable(s: Server, agent: AgentId, now: int, job: JobId) {
    && (job, agent) in s.rows && s.rows[(job, agent)].status.Pending?
    && job in s.jobs && Unexpired(s.jobs[job], now)
  }

  ghost predicate Busy(s: Server, agent: AgentId) {
    exists k :: k in s.rows && k.1 == agent && s.rows[k].status.Running?
  }

  /** ORDER BY priority DESC, created_at ASC. */
  predicate Ranked(a: Job, b: Job) {
    a.priority > b.priority || (a.priority == b.priority && a.createdAt <= b.createdAt)
  }

  ghost predicate IsNext(s: Server, agent: AgentId, now: int, job: JobId) {
    && Claimable(s, agent, now, job)
    && forall other :: Claimable(s, agent, now, other) ==> Ranked(s.jobs[job], s.jobs[other])
  }

  function Claim(s: Server, k: Key, lease: int): Server
    requires k in s.rows
  {
    s.(rows := s.rows[k := s.rows[k].(status := Running, leaseUntil := Some(lease))])
  }

  function Dispatch(s: Server, k: Key): Command
    requires k in s.rows && k.0 in s.jobs
  {
    Command(k.0, k.1, s.rows[k].retryCount, s.jobs[k.0].kind, s.jobs[k.0].expireAt)
  }

  function Send(s: Server, k: Key): Server
    requires k in s.rows && k.0 in s.jobs
  {
    s.(sends := s.sends + [Dispatch(s, k)])
  }

  /** PumpAgent claiming job: sent, or released with no retry charged. */
  function Pumped(s: Server, k: Key, lease: int, accepted: bool): Server
    requires k in s.rows && k.0 in s.jobs
  {
    if accepted then Send(Claim(s, k, lease), k)
    else Update(Claim(s, k, lease), k, Pending, None, None)
  }

  ghost predicate PumpStep(s: Server, s': Server, agent: AgentId, now: int, lease: int, accepted: bool) {
    || (s' == s && (Busy(s, agent) || forall job :: !Claimable(s, agent, now, job)))
    || (!Busy(s, agent) && exists job :: IsNext(s, agent, now, job) && s' == Pumped(s, (job, agent), lease, accepted))
  }

  // ---------------------------------------------------------------- sweeping

  /** A row as the sweep's query saw it. */
  datatype Lease = Lease(key: Key, retryCount: nat, maxRetry: int)

  predicate LeaseExpired(s: Server, k: Key, now: int) {
    k in s.rows && s.rows[k].status.Running? && s.rows[k].leaseUntil.Some? && s.rows[k].leaseUntil.value < now
  }

  /** GetExpiredLeaseResults: every expired row once, in some order. */
  ghost predicate LeaseSnapshot(s: Server, now: int, todo: seq<Lease>) {
    && (forall i :: 0 <= i < |todo| ==>
          LeaseExpired(s, todo[i].key, now)
          && todo[i].retryCount == s.rows[todo[i].key].retryCount && todo[i].maxRetry == s.rows[todo[i].key].maxRetry)
    && (forall i, j :: 0 <= i < j < |todo| ==> todo[i].key != todo[j].key)
    && (forall k :: LeaseExpired(s, k, now) ==> exists i :: 0 <= i < |todo| && todo[i].key == k)
  }

  predicate Destructive(s: Server, job: JobId) {
    job in s.jobs && s.jobs[job].destructive
  }

  /** A destructive command is never retried; any other one only within its budget. */
  predicate GivenUp(s: Server, l: Lease) {
    Destructive(s, l.key.0) || l.retryCount + 1 > l.maxRetry
  }

  function Expire(s: Server, k: Key): Server {
    s.(expiries := s.expiries[k := 1 + if k in s.expiries then s.expiries[k] else 0])
  }

  /** The row update of one sweep iteration. */
  function Sweep(s: Server, l: Lease): Server {
    if GivenUp(s, l) then Expire(Update(s, l.key, Failed, None, None), l.key)
    else Expire(Update(s, l.key, Pending, Some(l.retryCount + 1), None), l.key)
  }

  /** What one pump inside a loop meets: each reads the clock and the hub afresh. */
  datatype Turn = Turn(now: int, lease: int, accepted: bool)

  /** One iteration of sweepExpiredLeases: update, pump the PC unless given up, settle the job. */
  ghost predicate SweepStep(s: Server, s': Server, l: Lease, t: Turn) {
    if GivenUp(s, l) then s' == Settle(Sweep(s, l), l.key.0)
    else exists mid :: PumpStep(Sweep(s, l), mid, l.key.1, t.now, t.lease, t.accepted) && s' == Settle(mid, l.key.0)
  }

  /** The whole loop, in the order of the snapshot. */
  ghost predicate SweepRun(s: Server, s': Server, todo: seq<Lease>, turns: seq<Turn>)
    requires |turns| == |todo|
    decreases |todo|
  {
    if todo == [] then s' == s
    else
      var n := |todo| - 1;
      exists mid :: SweepRun(s, mid, todo[..n], turns[..n]) && SweepStep(mid, s', todo[n], turns[n])
  }

  /** CreateJob's loop over its targets. */
  ghost predicate PumpRun(s: Server, s': Server, targets: seq<AgentId>, turns: seq<Turn>)
    requires |turns| == |targets|
    decreases |targets|
  {
    if targets == [] then s' == s
    else
      var n := |targets| - 1;
      exists mid :: PumpRun(s, mid, targets[..n], turns[..n])
                    && PumpStep(mid, s', targets[n], turns[n].now, turns[n].lease, turns[n].accepted)
  }

  /** The end of CreateJob: dispatched once no row of the job is pending. */
  ghost function MarkIfDispatched(s: Server, id: JobId): Server {
    if forall k :: k in s.rows && k.0 == id ==> !s.rows[k].status.Pending?
    then s.(jobStatus := s.jobStatus[id := Dispatched]) else s
  }

  predicate PendingExpired(s: Server, k: Key, now: int) {
    && k in s.rows && s.rows[k].status.Pending?
    && k.0 in s.jobs && s.jobs[k.0].expireAt.Some? && s.jobs[k.0].expireAt.value < now
  }

  /** GetExpiredPendingResults, in some order. */
  ghost predicate PendingSnapshot(s: Server, now: int, todo: seq<Key>) {
    && (forall i :: 0 <= i < |todo| ==> PendingExpired(s, todo[i], now))
    && (forall i, j :: 0 <= i < j < |todo| ==> todo[i] != todo[j])
    && (forall k :: PendingExpired(s, k, now) ==> k in todo)
  }

  /** One iteration of sweepExpiredPending. */
  ghost function Lapse(s: Server, k: Key): Server {
    Settle(Update(s, k, Done(Outcome.Expired), None, None), k.0)
  }

  ghost function LapseAll(s: Server, todo: seq<Key>): Server {
    if todo == [] then s else Lapse(LapseAll(s, todo[..|todo| - 1]), todo[|todo| - 1])
  }

  // ---------------------------------------------------------------- results

  /** handleExecResult's database part; the ack goes out whether or not the row matched. */
  ghost function Accept(s: Server, r: Report): Server {
    if r.job == "" then s
    else if Updatable(s, (r.job, r.agent), Some(r.attempt)) then
      Settle(Update(s, (r.job, r.agent), Done(r.outcome), None, Some(r.attempt)), r.job)
    else s
  }

  // ---------------------------------------------------------------- the invariant, one pump or sweep a step

  function Budget(r: Row): nat {
    if r.maxRetry < 0 then 0 else r.maxRetry
  }

  /** One send per attempt: none yet of the current one while pending, and it is given up only when a
      destructive one was sent or the last attempt was. */
  predicate SendsFit(r: Row, destructive: bool, sent: nat) {
    && sent <= r.retryCount + 1
    && (r.status.Pending? ==> sent == r.retryCount)
    && (r.status.Running? || r.status.Failed? ==> sent == r.retryCount + 1)
    && (r.status.Failed? && !destructive ==> r.retryCount == Budget(r))
  }

  predicate RowInv(s: Server, k: Key)
    requires k in s.rows
  {
    var r := s.rows[k];
    && k.0 != "" && k.0 in s.jobs && k in s.expiries
    && (r.status.Running? <==> r.leaseUntil.Some?)
    && r.retryCount <= Budget(r)
    && (s.jobs[k.0].destructive ==> r.retryCount == 0)
    && SendsFit(r, s.jobs[k.0].destructive, Count(s.sends, k.0, k.1))
    && (PendingLike(r.status) ==> s.expiries[k] == r.retryCount)
    && s.expiries[k] <= r.retryCount + 1
  }

  /** An attempt that was ever sent is at most the row's current one, and superseded once the row is pending again. */
  predicate SentInv(s: Server, c: Command) {
    && c.job != "" && (c.job, c.agent) in s.rows
    && c.attempt <= s.rows[(c.job, c.agent)].retryCount
    && (s.rows[(c.job, c.agent)].status.Pending? ==> c.attempt < s.rows[(c.job, c.agent)].retryCount)
  }

  predicate SameSend(c: Command, d: Command) {
    c.job == d.job && c.agent == d.agent && c.attempt == d.attempt
  }

  ghost predicate RowsInv(s: Server) {
    forall k :: k in s.rows ==> RowInv(s, k)
  }

  ghost predicate SendsInv(s: Server) {
    && (forall c :: c in s.sends ==> SentInv(s, c))
    && (forall i, j :: 0 <= i < j < |s.sends| ==> !SameSend(s.sends[i], s.sends[j]))
  }

  /** Each PC has at most one running row. */
  ghost predicate OneRunning(s: Server) {
    forall k, l ::
      k in s.rows && l in s.rows && s.rows[k].status.Running? && s.rows[l].status.Running? && k.1 == l.1 ==> k == l
  }

  /** A done job has no pending or running row. */
  ghost predicate FinishedInv(s: Server) {
    forall k :: k in s.rows && k.0 in s.jobStatus && s.jobStatus[k.0] == Finished ==> !PendingLike(s.rows[k].status)
  }

  ghost predicate Inv(s: Server) {
    RowsInv(s) && SendsInv(s) && OneRunning(s) && FinishedInv(s)
  }

  // ---------------------------------------------------------------- how a row may change

  predicate RowEvolves(r: Row, r': Row) {
    && r.retryCount <= r'.retryCount && r.maxRetry == r'.maxRetry
    && (!PendingLike(r.status) ==> !PendingLike(r'.status) && r'.retryCount == r.retryCount)
    && (r.status.Cancelled? ==> r' == r)
  }

  ghost predicate Evolves(s: Server, s': Server) {
    && s.sends <= s'.sends
    && (forall k :: k in s.rows ==> k in s'.rows && RowEvolves(s.rows[k], s'.rows[k]))
  }

  lemma EvolvesReflexive(s: Server)
    ensures Evolves(s, s)
  {
  }

  lemma EvolvesTransitive(s: Server, t: Server, u: Server)
    requires Evolves(s, t) && Evolves(t, u)
    ensures Evolves(s, u)
  {
    forall k | k in s.rows
      ensures k in u.rows && RowEvolves(s.rows[k], u.rows[k])
    {
      assert RowEvolves(s.rows[k], t.rows[k]) && RowEvolves(t.rows[k], u.rows[k]);
    }
  }

  /** t differs from s in row k and its expiry count at most. */
  ghost predicate OnlyRow(s: Server, t: Server, k: Key) {
    && t.jobs == s.jobs && t.jobStatus == s.jobStatus && t.sends == s.sends
    && t.rows.Keys == s.rows.Keys && k in s.rows && s.expiries.Keys <= t.expiries.Keys
    && (forall l :: l in s.rows && l != k ==> t.rows[l] == s.rows[l])
    && (forall l :: l in s.expiries && l != k ==> t.expiries[l] == s.expiries[l])
  }

  /** t differs from s in job statuses at most. */
  predicate OnlyStatus(s: Server, t: Server) {
    t.jobs == s.jobs && t.rows == s.rows && t.sends == s.sends && t.expiries == s.expiries
  }

  lemma StatusKeeps(s: Server, t: Server)
    requires OnlyStatus(s, t) && RowsInv(s) && SendsInv(s) && OneRunning(s)
    ensures RowsInv(t) && SendsInv(t) && OneRunning(t) && Evolves(s, t)
  {
    forall k | k in t.rows
      ensures RowInv(t, k)
    {
      assert RowInv(s, k);
    }
    StatusSends(s, t);
    hide SendsInv;
  }

  lemma StatusSends(s: Server, t: Server)
    requires OnlyStatus(s, t) && SendsInv(s)
    ensures SendsInv(t)
  {
    forall c | c in t.sends
      ensures SentInv(t, c)
    {
      assert SentInv(s, c);
    }
  }

  lemma SettleKeeps(s: Server, job: JobId)
    requires Inv(s)
    ensures Inv(Settle(s, job)) && Evolves(s, Settle(s, job))
    ensures Settle(s, job).rows == s.rows && Settle(s, job).jobs == s.jobs
  {
    hide RowsInv, SendsInv, OneRunning, Evolves;
    StatusKeeps(s, Settle(s, job));
  }

  lemma RowChangeRows(s: Server, t: Server, k: Key)
    requires RowsInv(s) && OnlyRow(s, t, k) && RowInv(t, k)
    ensures RowsInv(t)
  {
    forall l | l in t.rows
      ensures RowInv(t, l)
    {
      assert RowInv(s, l);
    }
  }

  lemma RowChangeSends(s: Server, t: Server, k: Key)
    requires SendsInv(s) && OnlyRow(s, t, k) && s.rows[k].retryCount <= t.rows[k].retryCount
    requires t.rows[k].status.Pending? ==> t.rows[k].retryCount > s.rows[k].retryCount
    ensures SendsInv(t)
  {
    forall c | c in t.sends
      ensures SentInv(t, c)
    {
      assert SentInv(s, c);
    }
  }

  /** Replacing one row, without making it running. */
  lemma RowChangeKeeps(s: Server, t: Server, k: Key)
    requires Inv(s) && OnlyRow(s, t, k) && RowInv(t, k)
    requires RowEvolves(s.rows[k], t.rows[k]) && !t.rows[k].status.Running?
    requires t.rows[k].status.Pending? ==> t.rows[k].retryCount > s.rows[k].retryCount
    ensures Inv(t) && Evolves(s, t)
  {
    hide RowsInv, SendsInv;
    RowChangeRows(s, t, k);
    RowChangeSends(s, t, k);
  }

  /** An ack lands only on the attempt it was sent for, so never on a pending row. */
  lemma AcceptKeeps(s: Server, r: Report)
    requires Inv(s)
    requires exists c :: c in s.sends && c.job == r.job && c.agent == r.agent && c.attempt == r.attempt
    ensures Inv(Accept(s, r)) && Evolves(s, Accept(s, r))
    ensures (r.job, r.agent) in s.rows
    ensures s.rows[(r.job, r.agent)].status.Pending? || s.rows[(r.job, r.agent)].retryCount > r.attempt ==>
              Accept(s, r) == s
  {
    var c :| c in s.sends && c.job == r.job && c.agent == r.agent && c.attempt == r.attempt;
    assert SentInv(s, c);
    var k := (r.job, r.agent);
    if Updatable(s, k, Some(r.attempt)) {
      ReportedKeeps(s, r);
      SettleKeeps(Update(s, k, Done(r.outcome), None, Some(r.attempt)), r.job);
      EvolvesTransitive(s, Update(s, k, Done(r.outcome), None, Some(r.attempt)), Accept(s, r));
    }
  }

  lemma ReportedKeeps(s: Server, r: Report)
    requires Inv(s) && Updatable(s, (r.job, r.agent), Some(r.attempt))
    requires !s.rows[(r.job, r.agent)].status.Pending?
    ensures var t := Update(s, (r.job, r.agent), Done(r.outcome), None, Some(r.attempt)); Inv(t) && Evolves(s, t)
  {
    var k := (r.job, r.agent);
    assert RowInv(s, k);
    RowChangeKeeps(s, Update(s, k, Done(r.outcome), None, Some(r.attempt)), k);
  }

  lemma LapseKeeps(s: Server, k: Key)
    requires Inv(s) && k in s.rows && s.rows[k].status.Pending?
    ensures Inv(Lapse(s, k)) && Evolves(s, Lapse(s, k))
    ensures forall l :: l in s.rows && l != k ==> l in Lapse(s, k).rows && Lapse(s, k).rows[l] == s.rows[l]
  {
    assert RowInv(s, k);
    var t := Update(s, k, Done(Outcome.Expired), None, None);
    RowChangeKeeps(s, t, k);
    SettleKeeps(t, k.0);
  }

  /** The sweep's row update on a row that is still as the snapshot saw it. */
  lemma SweepKeeps(s: Server, l: Lease)
    requires Inv(s) && Fresh(s, l)
    ensures Inv(Sweep(s, l)) && Evolves(s, Sweep(s, l)) && OnlyRow(s, Sweep(s, l), l.key)
    ensures GivenUp(s, l) ==> Sweep(s, l).rows[l.key].status == Failed
    ensures !GivenUp(s, l) ==> Sweep(s, l).rows[l.key].status == Pending
  {
    hide SendsInv, OneRunning, FinishedInv;
    assert RowInv(s, l.key);
    RowChangeKeeps(s, Sweep(s, l), l.key);
  }

  /** A snapshot entry that still describes its row. */
  predicate Fresh(s: Server, l: Lease) {
    && l.key in s.rows && s.rows[l.key].status.Running?
    && s.rows[l.key].retryCount == l.retryCount && s.rows[l.key].maxRetry == l.maxRetry
  }

  // ---------------------------------------------------------------- pumping

  /** A failed send leaves no trace: releasing the claim restores the queue exactly. */
  lemma ReleaseRestores(s: Server, k: Key, lease: int)
    requires Inv(s) && k in s.rows && s.rows[k].status.Pending? && k.0 in s.jobs
    ensures Pumped(s, k, lease, false) == s
  {
    assert RowInv(s, k);
    assert Pumped(s, k, lease, false).rows == s.rows;
  }

  lemma SendRows(s: Server, k: Key, lease: int)
    requires RowsInv(s) && k in s.rows && s.rows[k].status.Pending? && k.0 in s.jobs
    ensures RowsInv(Pumped(s, k, lease, true))
  {
    var t := Pumped(s, k, lease, true);
    forall l | l in t.rows
      ensures RowInv(t, l)
    {
      assert RowInv(s, l);
      CountAppend(s.sends, Dispatch(Claim(s, k, lease), k), l.0, l.1);
    }
  }

  /** The attempt just sent was never sent before. */
  lemma SendSends(s: Server, k: Key, lease: int)
    requires SendsInv(s) && k in s.rows && s.rows[k].status.Pending? && k.0 in s.jobs && k.0 != ""
    ensures SendsInv(Pumped(s, k, lease, true))
  {
    var t := Pumped(s, k, lease, true);
    var d := Dispatch(Claim(s, k, lease), k);
    forall c | c in t.sends
      ensures SentInv(t, c)
    {
      if c in s.sends {
        assert SentInv(s, c);
      }
    }
    forall i, j | 0 <= i < j < |t.sends|
      ensures !SameSend(t.sends[i], t.sends[j])
    {
      if j == |s.sends| {
        assert s.sends[i] in s.sends && SentInv(s, s.sends[i]);
      } else {
        assert t.sends[i] == s.sends[i] && t.sends[j] == s.sends[j];
      }
    }
  }

  lemma SendRunning(s: Server, k: Key, lease: int)
    requires OneRunning(s) && FinishedInv(s)
    requires k in s.rows && s.rows[k].status.Pending? && k.0 in s.jobs && !Busy(s, k.1)
    ensures OneRunning(Pumped(s, k, lease, true)) && FinishedInv(Pumped(s, k, lease, true))
    ensures Evolves(s, Pumped(s, k, lease, true))
  {
  }

  /** A row that is as it was, or was pending and now runs. */
  predicate OnlyStarted(r: Row, r': Row) {
    || r' == r
    || (r.status == Pending && r'.status == Running && r'.retryCount == r.retryCount && r'.maxRetry == r.maxRetry)
  }

  /** PumpAgent touches the rows of its own PC only, and keeps everything. */
  lemma PumpKeeps(s: Server, s': Server, agent: AgentId, now: int, lease: int, accepted: bool)
    requires Inv(s) && PumpStep(s, s', agent, now, lease, accepted)
    ensures Inv(s') && Evolves(s, s') && s'.jobs == s.jobs && s'.rows.Keys == s.rows.Keys
    ensures forall k :: k in s.rows && k.1 != agent ==> s'.rows[k] == s.rows[k]
    ensures !accepted ==> s' == s
    ensures forall k :: k in s.rows ==> OnlyStarted(s.rows[k], s'.rows[k])
  {
    hide Inv, Evolves, Pumped, Busy, Ranked, Unexpired;
    EvolvesReflexive(s);
    if s' != s {
      var job :| IsNext(s, agent, now, job) && s' == Pumped(s, (job, agent), lease, accepted);
      if accepted {
        AcceptedPumpKeeps(s, (job, agent), lease);
      } else {
        ReleaseRestores(s, (job, agent), lease);
      }
    }
  }

  lemma AcceptedPumpKeeps(s: Server, k: Key, lease: int)
    requires Inv(s) && k in s.rows && s.rows[k].status.Pending? && k.0 in s.jobs && !Busy(s, k.1)
    ensures var t := Pumped(s, k, lease, true);
      && Inv(t) && Evolves(s, t) && t.jobs == s.jobs && t.rows.Keys == s.rows.Keys
      && (forall l :: l in s.rows && l.1 != k.1 ==> t.rows[l] == s.rows[l])
      && (forall l :: l in s.rows ==> OnlyStarted(s.rows[l], t.rows[l]))
  {
    hide SendsInv, OneRunning, FinishedInv, Evolves, Busy;
    assert RowInv(s, k);
    SendRows(s, k, lease);
    SendSends(s, k, lease);
    SendRunning(s, k, lease);
  }

  // ---------------------------------------------------------------- whole sweeps

  lemma SweepStepKeeps(s: Server, s': Server, l: Lease, turn: Turn)
    requires Inv(s) && Fresh(s, l) && SweepStep(s, s', l, turn)
    ensures Inv(s') && Evolves(s, s') && s'.jobs == s.jobs
    ensures forall k :: k in s.rows && k.1 != l.key.1 ==> k in s'.rows && s'.rows[k] == s.rows[k]
  {
    hide Inv, Evolves, Settle, Sweep, PumpStep;
    var t := Sweep(s, l);
    SweepKeeps(s, l);
    if GivenUp(s, l) {
      SettleKeeps(t, l.key.0);
      EvolvesTransitive(s, t, s');
    } else {
      var mid :| PumpStep(t, mid, l.key.1, turn.now, turn.lease, turn.accepted) && s' == Settle(mid, l.key.0);
      PumpKeeps(t, mid, l.key.1, turn.now, turn.lease, turn.accepted);
      SettleKeeps(mid, l.key.0);
      EvolvesTransitive(s, t, mid);
      EvolvesTransitive(s, mid, s');
    }
  }

  /** Snapshot entries that are all still current and name different PCs. */
  ghost predicate AllFresh(s: Server, todo: seq<Lease>) {
    && (forall i :: 0 <= i < |todo| ==> Fresh(s, todo[i]))
    && (forall i, j :: 0 <= i < j < |todo| ==> todo[i].key.1 != todo[j].key.1)
  }

  /** One running row per PC makes the snapshot name each PC once. */
  lemma SnapshotFresh(s: Server, now: int, todo: seq<Lease>)
    requires OneRunning(s) && LeaseSnapshot(s, now, todo)
    ensures AllFresh(s, todo)
  {
    forall i, j | 0 <= i < j < |todo|
      ensures todo[i].key.1 != todo[j].key.1
    {
      assert LeaseExpired(s, todo[i].key, now) && LeaseExpired(s, todo[j].key, now);
    }
  }

  /** Pumping inside the loop never invalidates a row still to be processed. */
  lemma {:induction false} SweepRunKeeps(s: Server, s': Server, todo: seq<Lease>, done: nat, turns: seq<Turn>)
    requires Inv(s) && AllFresh(s, todo) && done <= |todo| == |turns| && SweepRun(s, s', todo[..done], turns[..done])
    ensures Inv(s') && Evolves(s, s') && s'.jobs == s.jobs
    ensures forall i :: done <= i < |todo| ==> Fresh(s', todo[i])
    ensures forall k :: k in s.rows && (forall i :: 0 <= i < done ==> todo[i].key.1 != k.1) ==>
              k in s'.rows && s'.rows[k] == s.rows[k]
    decreases done
  {
    hide Inv, Evolves, SweepStep;
    if done == 0 {
      EvolvesReflexive(s);
    } else {
      var n := done - 1;
      var prefix, taken := todo[..done], turns[..done];
      assert |prefix| - 1 == n && prefix[..n] == todo[..n] && prefix[n] == todo[n];
      assert taken[..n] == turns[..n] && taken[n] == turns[n];
      var mid :| SweepRun(s, mid, prefix[..n], taken[..n]) && SweepStep(mid, s', prefix[n], taken[n]);
      SweepRunKeeps(s, mid, todo, n, turns);
      SweepStepKeeps(mid, s', todo[n], turns[n]);
      EvolvesTransitive(s, mid, s');
    }
  }

  /** Pumping targets one after the other keeps everything, and the rows of all other PCs. */
  lemma {:induction false} PumpRunKeeps(s: Server, s': Server, targets: seq<AgentId>, turns: seq<Turn>)
    requires Inv(s) && |turns| == |targets| && PumpRun(s, s', targets, turns)
    ensures Inv(s') && Evolves(s, s') && s'.jobs == s.jobs && s'.rows.Keys == s.rows.Keys
    ensures forall k :: k in s.rows && k.1 !in targets ==> s'.rows[k] == s.rows[k]
    ensures forall k :: k in s.rows ==> OnlyStarted(s.rows[k], s'.rows[k])
    decreases |targets|
  {
    hide Inv, Evolves, PumpStep;
    if targets == [] {
      EvolvesReflexive(s);
    } else {
      var n := |targets| - 1;
      var mid :| PumpRun(s, mid, targets[..n], turns[..n])
                 && PumpStep(mid, s', targets[n], turns[n].now, turns[n].lease, turns[n].accepted);
      PumpRunKeeps(s, mid, targets[..n], turns[..n]);
      PumpKeeps(mid, s', targets[n], turns[n].now, turns[n].lease, turns[n].accepted);
      EvolvesTransitive(s, mid, s');
      assert targets == targets[..n] + [targets[n]];
    }
  }

  lemma {:induction false} LapseAllKeeps(s: Server, todo: seq<Key>, done: nat)
    requires Inv(s) && done <= |todo|
    requires forall i :: 0 <= i < |todo| ==> todo[i] in s.rows && s.rows[todo[i]].status.Pending?
    requires forall i, j :: 0 <= i < j < |todo| ==> todo[i] != todo[j]
    ensures var t := LapseAll(s, todo[..done]);
      && Inv(t) && Evolves(s, t)
      && (forall k :: k in s.rows && k !in todo[..done] ==> k in t.rows && t.rows[k] == s.rows[k])
    decreases done
  {
    hide Inv, Evolves, Lapse;
    if done > 0 {
      var n := done - 1;
      LapseAllKeeps(s, todo, n);
      assert todo[..done][..n] == todo[..n] && todo[..done][n] == todo[n];
      var mid := LapseAll(s, todo[..n]);
      assert todo[n] !in todo[..n];
      LapseKeeps(mid, todo[n]);
      EvolvesTransitive(s, mid, Lapse(mid, todo[n]));
      assert todo[..done] == todo[..n] + [todo[n]];
    } else {
      assert todo[..0] == [];
      EvolvesReflexive(s);
    }
  }

  // ---------------------------------------------------------------- where stored outcomes come from

  /** Unless it was there before, the row holds no outcome other than expiry. */
  predicate NoNewOutcome(r: Row, r': Row) {
    r'.status.Done? && r'.status.outcome != Outcome.Expired ==> r' == r
  }

  ghost predicate NoNewOutcomes(s: Server, s': Server) {
    && s'.rows.Keys == s.rows.Keys
    && forall k :: k in s.rows ==> NoNewOutcome(s.rows[k], s'.rows[k])
  }

  lemma PumpNoOutcome(s: Server, s': Server, agent: AgentId, now: int, lease: int, accepted: bool)
    requires PumpStep(s, s', agent, now, lease, accepted)
    ensures NoNewOutcomes(s, s')
  {
    hide Busy, Ranked, Unexpired;
    if s' != s {
      var job :| IsNext(s, agent, now, job) && s' == Pumped(s, (job, agent), lease, accepted);
    }
  }

  lemma SweepNoOutcome(s: Server, s': Server, l: Lease, turn: Turn)
    requires SweepStep(s, s', l, turn)
    ensures NoNewOutcomes(s, s')
  {
    hide PumpStep, Sweep, Settle;
    SweptNoOutcome(s, l);
    SettleRows(Sweep(s, l), l.key.0);
    if !GivenUp(s, l) {
      var mid :| PumpStep(Sweep(s, l), mid, l.key.1, turn.now, turn.lease, turn.accepted) && s' == Settle(mid, l.key.0);
      PumpNoOutcome(Sweep(s, l), mid, l.key.1, turn.now, turn.lease, turn.accepted);
      SettleRows(mid, l.key.0);
    }
  }

  lemma SweptNoOutcome(s: Server, l: Lease)
    ensures NoNewOutcomes(s, Sweep(s, l))
  {
  }

  lemma SettleRows(s: Server, job: JobId)
    ensures Settle(s, job).rows == s.rows
  {
  }

  lemma {:induction false} SweepRunNoOutcome(s: Server, s': Server, todo: seq<Lease>, turns: seq<Turn>)
    requires |turns| == |todo| && SweepRun(s, s', todo, turns)
    ensures NoNewOutcomes(s, s')
    decreases |todo|
  {
    hide SweepStep;
    if todo != [] {
      var n := |todo| - 1;
      var mid :| SweepRun(s, mid, todo[..n], turns[..n]) && SweepStep(mid, s', todo[n], turns[n]);
      SweepRunNoOutcome(s, mid, todo[..n], turns[..n]);
      SweepNoOutcome(mid, s', todo[n], turns[n]);
    }
  }

  lemma {:induction false} LapseAllNoOutcome(s: Server, todo: seq<Key>)
    ensures NoNewOutcomes(s, LapseAll(s, todo))
  {
    if todo != [] {
      var n := |todo| - 1;
      LapseAllNoOutcome(s, todo[..n]);
    }
  }

  /** A report that lands stores its own outcome, on its own attempt. */
  lemma AcceptOutcome(s: Server, r: Report, k: Key)
    requires k in s.rows
    ensures k in Accept(s, r).rows
    ensures var row, row' := s.rows[k], Accept(s, r).rows[k];
      row' == if r.job != "" && k == (r.job, r.agent) && row.status != Cancelled && row.retryCount == r.attempt
              then Row(Done(r.outcome), row.retryCount, row.maxRetry, None) else row
  {
  }

  // ---------------------------------------------------------------- admin operations

  lemma CancelKeeps(s: Server, job: JobId)
    requires Inv(s)
    ensures Inv(Cancel(s, job)) && Evolves(s, Cancel(s, job))
    ensures forall k :: k in s.rows && k.0 == job ==> !PendingLike(Cancel(s, job).rows[k].status)
  {
    hide RowsInv, SendsInv;
    CancelRows(s, job);
    CancelSends(s, job);
  }

  lemma CancelRows(s: Server, job: JobId)
    requires RowsInv(s)
    ensures RowsInv(Cancel(s, job))
  {
    var t := Cancel(s, job);
    forall k | k in t.rows
      ensures RowInv(t, k)
    {
      assert RowInv(s, k);
    }
  }

  lemma CancelSends(s: Server, job: JobId)
    requires SendsInv(s)
    ensures SendsInv(Cancel(s, job))
  {
    var t := Cancel(s, job);
    forall c | c in t.sends
      ensures SentInv(t, c)
    {
      assert SentInv(s, c);
    }
  }

  /** t has the rows of s, and new pending rows of a job nobody knew. */
  ghost predicate Extended(s: Server, t: Server, id: JobId) {
    && t.sends == s.sends && id in t.jobStatus && t.jobStatus[id] == Queued
    && (forall k :: k in s.rows ==> k in t.rows && t.rows[k] == s.rows[k] && k.0 != id)
    && (forall k :: k in t.rows && k !in s.rows ==> k.0 == id && t.rows[k].status.Pending?)
    && (forall j :: j in t.jobStatus && j != id ==> j in s.jobStatus && t.jobStatus[j] == s.jobStatus[j])
  }

  lemma CreateExtends(s: Server, id: JobId, job: Job, targets: set<AgentId>, maxRetry: int)
    requires RowsInv(s) && id !in s.jobs
    ensures Extended(s, Create(s, id, job, targets, maxRetry), id)
  {
    forall k | k in s.rows
      ensures k.0 != id
    {
      assert RowInv(s, k);
    }
  }

  lemma ExtendedKeeps(s: Server, t: Server, id: JobId)
    requires SendsInv(s) && OneRunning(s) && FinishedInv(s) && Extended(s, t, id)
    ensures SendsInv(t) && OneRunning(t) && FinishedInv(t) && Evolves(s, t)
  {
    forall c | c in t.sends
      ensures SentInv(t, c)
    {
      assert SentInv(s, c);
    }
  }

  lemma CreateKeeps(s: Server, id: JobId, job: Job, targets: set<AgentId>, maxRetry: int)
    requires Inv(s) && id != "" && id !in s.jobs
    ensures Inv(Create(s, id, job, targets, maxRetry)) && Evolves(s, Create(s, id, job, targets, maxRetry))
    ensures forall k :: k in s.rows ==> k in Create(s, id, job, targets, maxRetry).rows
                                        && Create(s, id, job, targets, maxRetry).rows[k] == s.rows[k]
  {
    hide RowsInv, SendsInv, OneRunning, FinishedInv, Evolves, Extended, Create;
    CreateRows(s, id, job, targets, maxRetry);
    CreateExtends(s, id, job, targets, maxRetry);
    ExtendedKeeps(s, Create(s, id, job, targets, maxRetry), id);
  }

  lemma DispatchedKeeps(s: Server, id: JobId)
    requires Inv(s)
    ensures var t := s.(jobStatus := s.jobStatus[id := Dispatched]); Inv(t) && Evolves(s, t)
  {
    hide RowsInv, SendsInv, OneRunning, Evolves;
    StatusKeeps(s, s.(jobStatus := s.jobStatus[id := Dispatched]));
  }

  lemma CreateRows(s: Server, id: JobId, job: Job, targets: set<AgentId>, maxRetry: int)
    requires Inv(s) && id != "" && id !in s.jobs
    ensures RowsInv(Create(s, id, job, targets, maxRetry))
  {
    var t := Create(s, id, job, targets, maxRetry);
    forall k | k in t.rows
      ensures RowInv(t, k)
    {
      if k in s.rows {
        assert RowInv(s, k);
      } else {
        assert forall c :: c in s.sends ==> SentInv(s, c);
        CountPositive(s.sends, k.0, k.1);
      }
    }
  }
}
