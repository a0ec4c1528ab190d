/**
 The delivery protocol with the server's goroutines interleaved freely: a claim is separate from its
 send and from the release that follows a failed send, and a sweep's query is separate from each of
 its row updates, so an update may act on a row that has long moved on.
 */
module DeliveryInterleaved {
  import opened Basics
  import opened Commands
  import JobQueue
  import AgentProcess
  import Delivery

  datatype World = World(
    base: Delivery.World,
    holders: seq<Command>,           // claimed, not yet handed to the hub
    leases: seq<JobQueue.Lease>,     // seen expired by the lease sweep, not yet updated
    lapses: seq<JobQueue.Key>        // seen past expiry by the pending sweep, not yet updated
  )

  datatype Step =
    | ClaimNext(agent: AgentId, job: JobId, lease: int)
    | SendAccepted(i: nat)
    | SendRefused(i: nat)
    | SeeExpiredLease(key: JobQueue.Key)
    | SweepRow(i: nat)
    | SeeExpiredPending(key: JobQueue.Key)
    | LapseRow(i: nat)
    | SettleJob(id: JobId)
    | RestartServer            // every pump and sweep under way is gone; the database stays
    | Other(step: Delivery.Step)

  function KeyOf(c: Command): JobQueue.Key {
    (c.job, c.agent)
  }

  ghost predicate Next(w: World, w': World, step: Step) {
    var s := w.base.server;
    match step
    case ClaimNext(agent, job, lease) =>
      && !JobQueue.Busy(s, agent) && JobQueue.IsNext(s, agent, w.base.now, job)
      && w' == w.(base := w.base.(server := JobQueue.Claim(s, (job, agent), lease)),
                  holders := w.holders + [JobQueue.Dispatch(s, (job, agent))])
    case SendAccepted(i) =>
      && i < |w.holders|
      && var c := w.holders[i];
      w' == w.(holders := Without(w.holders, i),
               base := w.base.(server := s.(sends := s.sends + [c]), toAgents := w.base.toAgents + [c]))
    case SendRefused(i) =>
      && i < |w.holders|
      && w' == w.(holders := Without(w.holders, i),
                  base := w.base.(server := JobQueue.Update(s, KeyOf(w.holders[i]), JobQueue.Pending, None, None)))
    case SeeExpiredLease(k) =>
      && JobQueue.LeaseExpired(s, k, w.base.now)
      && w' == w.(leases := w.leases + [JobQueue.Lease(k, s.rows[k].retryCount, s.rows[k].maxRetry)])
    case SweepRow(i) =>
      && i < |w.leases|
      && w' == w.(leases := Without(w.leases, i), base := w.base.(server := JobQueue.Sweep(s, w.leases[i])))
    case SeeExpiredPending(k) =>
      JobQueue.PendingExpired(s, k, w.base.now) && w' == w.(lapses := w.lapses + [k])
    case LapseRow(i) =>
      && i < |w.lapses|
      && w' == w.(lapses := Without(w.lapses, i),
                  base := w.base.(server :=
                    JobQueue.Update(s, w.lapses[i], JobQueue.Done(Outcome.Expired), None, None)))
    case SettleJob(id) => w' == w.(base := w.base.(server := JobQueue.Settle(s, id)))
    case RestartServer => w' == w.(holders := [], leases := [], lapses := [])
    case Other(step) =>
      && !step.Pump? && !step.SweepLeases? && !step.SweepPending?
      && Delivery.Next(w.base, w'.base, step) && w' == w.(base := w'.base)
  }

  ghost predicate Init(w: World) {
    Delivery.Init(w.base) && w.holders == [] && w.leases == [] && w.lapses == []
  }

  // ---------------------------------------------------------------- the invariant

  /** The right to dispatch a destructive command is one token: the row is pending, or one pump holds the
      claim, or the command has been sent. */
  predicate TokenInv(w: World, k: JobQueue.Key)
    requires k in w.base.server.rows
  {
    && k.0 in w.base.server.jobs && k.0 != ""
    && (w.base.server.jobs[k.0].destructive ==>
          One(w.base.server.rows[k].status.Pending?) + Count(w.holders, k.0, k.1)
          + Count(w.base.server.sends, k.0, k.1) <= 1)
  }

  ghost predicate TokensInv(w: World) {
    && (forall k :: k in w.base.server.rows ==> TokenInv(w, k))
    && (forall c :: c in w.holders || c in w.base.server.sends ==> KeyOf(c) in w.base.server.rows)
  }

  /** Copies of a job in flight, held by the agent, or spent on a start of its handler. */
  function Spent(w: Delivery.World, job: JobId, a: AgentId): nat
    requires a in w.agents
  {
    Count(w.toAgents, job, a) + AgentProcess.Held(w.agents[a], job) + w.agents[a].effects[job]
  }

  /** Nothing is executed that was not sent. */
  ghost predicate FlowInv(w: Delivery.World, a: AgentId)
    requires a in w.agents
  {
    && w.agents[a].id == a && AgentProcess.Inv(w.agents[a])
    && forall job: JobId :: job != "" ==> Spent(w, job, a) <= Count(w.server.sends, job, a)
  }

  ghost predicate Inv(w: World) {
    && JobQueue.OneRunning(w.base.server)
    && TokensInv(w)
    && forall a :: a in w.base.agents ==> FlowInv(w.base, a)
  }

  lemma InitInv(w: World)
    requires Init(w)
    ensures Inv(w)
  {
    forall a | a in w.base.agents
      ensures FlowInv(w.base, a)
    {
      AgentProcess.InitInv(w.base.agents[a]);
    }
  }

  // ---------------------------------------------------------------- server steps

  /** w' differs from w at row k at most, which is not running, and pending only if it was or may be retried. */
  ghost predicate RowMoves(w: World, w': World, k: JobQueue.Key) {
    var s, t := w.base.server, w'.base.server;
    && w'.holders == w.holders && t.sends == s.sends && t.jobs == s.jobs && t.rows.Keys == s.rows.Keys
    && (forall l :: l in s.rows && l != k ==> t.rows[l] == s.rows[l])
    && (k in s.rows && t.rows[k] != s.rows[k] ==>
          !t.rows[k].status.Running? && (t.rows[k].status.Pending? ==> !JobQueue.Destructive(s, k.0)))
  }

  lemma RowMovesKeeps(w: World, w': World, k: JobQueue.Key)
    requires TokensInv(w) && JobQueue.OneRunning(w.base.server) && RowMoves(w, w', k)
    ensures TokensInv(w') && JobQueue.OneRunning(w'.base.server)
  {
    forall l | l in w'.base.server.rows
      ensures TokenInv(w', l)
    {
      assert TokenInv(w, l);
    }
  }

  lemma ClaimStep(w: World, w': World, agent: AgentId, job: JobId, lease: int)
    requires Inv(w) && Next(w, w', ClaimNext(agent, job, lease))
    ensures TokensInv(w') && JobQueue.OneRunning(w'.base.server)
  {
    var c := JobQueue.Dispatch(w.base.server, (job, agent));
    forall l | l in w'.base.server.rows
      ensures TokenInv(w', l)
    {
      assert TokenInv(w, l);
      CountAppend(w.holders, c, l.0, l.1);
    }
  }

  lemma AcceptedStep(w: World, w': World, i: nat)
    requires TokensInv(w) && Next(w, w', SendAccepted(i))
    ensures TokensInv(w')
  {
    WithoutIn(w.holders, i);
    forall l | l in w'.base.server.rows
      ensures TokenInv(w', l)
    {
      assert TokenInv(w, l);
      CountWithout(w.holders, i, l.0, l.1);
      CountAppend(w.base.server.sends, w.holders[i], l.0, l.1);
    }
  }

  lemma RefusedStep(w: World, w': World, i: nat)
    requires TokensInv(w) && JobQueue.OneRunning(w.base.server) && Next(w, w', SendRefused(i))
    ensures TokensInv(w') && JobQueue.OneRunning(w'.base.server)
  {
    WithoutIn(w.holders, i);
    forall l | l in w'.base.server.rows
      ensures TokenInv(w', l)
    {
      assert TokenInv(w, l);
      CountWithout(w.holders, i, l.0, l.1);
    }
  }

  /** However stale its snapshot, the lease sweep never requeues a destructive command. */
  lemma SweepRowStep(w: World, w': World, i: nat)
    requires Next(w, w', SweepRow(i))
    ensures RowMoves(w, w', w.leases[i].key)
  {
  }

  lemma LapseRowStep(w: World, w': World, i: nat)
    requires Next(w, w', LapseRow(i))
    ensures RowMoves(w, w', w.lapses[i])
  {
  }

  lemma ReceiveReportMoves(w: World, w': World, i: nat, acked: bool)
    requires Next(w, w', Other(Delivery.ServerReceives(i, acked)))
    ensures var r := w.base.toServer[i]; RowMoves(w, w', (r.job, r.agent))
  {
  }

  lemma CancelStep(w: World, w': World, id: JobId)
    requires TokensInv(w) && JobQueue.OneRunning(w.base.server) && Next(w, w', Other(Delivery.CancelJob(id)))
    ensures TokensInv(w') && JobQueue.OneRunning(w'.base.server)
  {
    forall l | l in w'.base.server.rows
      ensures TokenInv(w', l)
    {
      assert TokenInv(w, l);
    }
  }

  lemma CreateStep(w: World, w': World, id: JobId, job: JobQueue.Job, targets: set<AgentId>, maxRetry: int)
    requires TokensInv(w) && JobQueue.OneRunning(w.base.server)
    requires Next(w, w', Other(Delivery.CreateJob(id, job, targets, maxRetry)))
    ensures TokensInv(w') && JobQueue.OneRunning(w'.base.server)
  {
    hide TokenInv;
    forall l | l in w'.base.server.rows
      ensures TokenInv(w', l)
    {
      CreatedToken(w, w', id, job, targets, maxRetry, l);
    }
    CreatedRunning(w.base.server, id, job, targets, maxRetry);
  }

  lemma CreatedToken(w: World, w': World, id: JobId, job: JobQueue.Job, targets: set<AgentId>, maxRetry: int,
                     l: JobQueue.Key)
    requires TokensInv(w) && w'.holders == w.holders && id != "" && id !in w.base.server.jobs
    requires w'.base.server == JobQueue.Create(w.base.server, id, job, targets, maxRetry) && l in w'.base.server.rows
    ensures TokenInv(w', l)
  {
    if l in w.base.server.rows {
      assert TokenInv(w, l);
      assert l !in JobQueue.PerTarget(id, targets, JobQueue.Row(JobQueue.Pending, 0, maxRetry, None));
    } else {
      CountPositive(w.holders, l.0, l.1);
      CountPositive(w.base.server.sends, l.0, l.1);
      assert forall c :: c in w.holders || c in w.base.server.sends ==> KeyOf(c) in w.base.server.rows;
    }
  }

  lemma CreatedRunning(s: JobQueue.Server, id: JobId, job: JobQueue.Job, targets: set<AgentId>, maxRetry: int)
    requires JobQueue.OneRunning(s)
    ensures JobQueue.OneRunning(JobQueue.Create(s, id, job, targets, maxRetry))
  {
  }

  /** A claim lost with the server is a command never sent: its row waits for the lease to expire. */
  lemma RestartServerStep(w: World, w': World)
    requires TokensInv(w) && Next(w, w', RestartServer)
    ensures TokensInv(w')
  {
    forall l | l in w'.base.server.rows
      ensures TokenInv(w', l)
    {
      assert TokenInv(w, l);
    }
  }

  /** The queue side of every step. */
  lemma QueueStep(w: World, w': World, step: Step)
    requires Inv(w) && Next(w, w', step)
    ensures TokensInv(w') && JobQueue.OneRunning(w'.base.server)
  {
    hide TokensInv, JobQueue.OneRunning, FlowInv, RowMoves;
    match step {
      case ClaimNext(agent, job, lease) => ClaimStep(w, w', agent, job, lease);
      case SendAccepted(i) => AcceptedStep(w, w', i); SameRunning(w, w');
      case SendRefused(i) => RefusedStep(w, w', i);
      case SweepRow(i) =>
        SweepRowStep(w, w', i);
        RowMovesKeeps(w, w', w.leases[i].key);
      case LapseRow(i) =>
        LapseRowStep(w, w', i);
        RowMovesKeeps(w, w', w.lapses[i]);
      case Other(inner) => InnerQueueStep(w, w', inner);
      case RestartServer => RestartServerStep(w, w'); SameRunning(w, w');
      case _ => SameQueue(w, w');
    }
  }

  lemma SameRunning(w: World, w': World)
    requires JobQueue.OneRunning(w.base.server) && w'.base.server.rows == w.base.server.rows
    ensures JobQueue.OneRunning(w'.base.server)
  {
  }

  lemma SameQueue(w: World, w': World)
    requires TokensInv(w) && JobQueue.OneRunning(w.base.server) && w'.holders == w.holders
    requires w'.base.server.rows == w.base.server.rows && w'.base.server.jobs == w.base.server.jobs
    requires w'.base.server.sends == w.base.server.sends
    ensures TokensInv(w') && JobQueue.OneRunning(w'.base.server)
  {
    assert forall l :: l in w.base.server.rows ==> TokenInv(w, l) ==> TokenInv(w', l);
  }

  lemma InnerQueueStep(w: World, w': World, inner: Delivery.Step)
    requires TokensInv(w) && JobQueue.OneRunning(w.base.server) && Next(w, w', Other(inner))
    ensures TokensInv(w') && JobQueue.OneRunning(w'.base.server)
  {
    hide TokensInv, JobQueue.OneRunning, RowMoves;
    if inner.CreateJob? {
      CreateStep(w, w', inner.id, inner.job, inner.targets, inner.maxRetry);
    } else if inner.CancelJob? {
      CancelStep(w, w', inner.id);
    } else if inner.ServerReceives? {
      ReceiveReportMoves(w, w', inner.i, inner.acked);
      var r := w.base.toServer[inner.i];
      RowMovesKeeps(w, w', (r.job, r.agent));
    } else {
      SameQueue(w, w');
    }
  }

  // ---------------------------------------------------------------- what is executed was sent

  lemma FlowSame(w: Delivery.World, w': Delivery.World)
    requires forall a :: a in w.agents ==> FlowInv(w, a)
    requires w'.agents == w.agents && w'.toAgents == w.toAgents && w'.server.sends == w.server.sends
    ensures forall a :: a in w'.agents ==> FlowInv(w', a)
  {
    forall a | a in w'.agents
      ensures FlowInv(w', a)
    {
      assert FlowInv(w, a);
      forall job: JobId | job != ""
        ensures Spent(w', job, a) <= Count(w'.server.sends, job, a)
      {
        assert Spent(w, job, a) <= Count(w.server.sends, job, a);
      }
    }
  }

  lemma FlowSend(w: Delivery.World, w': Delivery.World, c: Command)
    requires forall a :: a in w.agents ==> FlowInv(w, a)
    requires w'.agents == w.agents && w'.toAgents == w.toAgents + [c] && w'.server.sends == w.server.sends + [c]
    ensures forall a :: a in w'.agents ==> FlowInv(w', a)
  {
    forall a | a in w'.agents
      ensures FlowInv(w', a)
    {
      assert FlowInv(w, a);
      forall job: JobId | job != ""
        ensures Spent(w', job, a) <= Count(w'.server.sends, job, a)
      {
        assert Spent(w, job, a) <= Count(w.server.sends, job, a);
        CountAppend(w.toAgents, c, job, a);
        CountAppend(w.server.sends, c, job, a);
      }
    }
  }

  lemma FlowLose(w: Delivery.World, w': Delivery.World, i: nat)
    requires forall a :: a in w.agents ==> FlowInv(w, a)
    requires i < |w.toAgents| && w'.agents == w.agents && w'.toAgents == Without(w.toAgents, i)
    requires w'.server.sends == w.server.sends
    ensures forall a :: a in w'.agents ==> FlowInv(w', a)
  {
    forall a | a in w'.agents
      ensures FlowInv(w', a)
    {
      assert FlowInv(w, a);
      forall job: JobId | job != ""
        ensures Spent(w', job, a) <= Count(w'.server.sends, job, a)
      {
        assert Spent(w, job, a) <= Count(w.server.sends, job, a);
        CountWithout(w.toAgents, i, job, a);
      }
    }
  }

  /** An agent's event, with the frames it took off the channel. */
  lemma FlowAgent(w: Delivery.World, w': Delivery.World, a: AgentId, e: AgentProcess.Event)
    requires forall b :: b in w.agents ==> FlowInv(w, b)
    requires Delivery.AgentMoves(w, w', a, e)
    requires forall job: JobId, b :: job != "" ==>
      Count(w'.toAgents, job, b) + One(b == a && e.Receive? && e.cmd.job == job) <= Count(w.toAgents, job, b)
    ensures forall b :: b in w'.agents ==> FlowInv(w', b)
  {
    assert FlowInv(w, a);
    AgentProcess.InvStep(w.agents[a], e);
    AgentProcess.Frame(w.agents[a], e);
    hide AgentProcess.Inv, AgentProcess.Next, AgentProcess.Enabled, AgentProcess.Emitted, AgentProcess.Held;
    forall b | b in w'.agents
      ensures FlowInv(w', b)
    {
      assert FlowInv(w, b);
      forall job: JobId | job != ""
        ensures Spent(w', job, b) <= Count(w'.server.sends, job, b)
      {
        assert Spent(w, job, b) <= Count(w.server.sends, job, b);
        AgentProcess.HeldStep(w.agents[a], e, job);
      }
    }
  }

  lemma FlowReceive(w: Delivery.World, w': Delivery.World, i: nat)
    requires forall b :: b in w.agents ==> FlowInv(w, b)
    requires Delivery.Next(w, w', Delivery.AgentReceives(i))
    ensures forall b :: b in w'.agents ==> FlowInv(w', b)
  {
    var c := w.toAgents[i];
    forall job: JobId, b | job != ""
      ensures Count(w'.toAgents, job, b) + One(b == c.agent && c.job == job) <= Count(w.toAgents, job, b)
    {
      CountWithout(w.toAgents, i, job, b);
    }
    FlowAgent(w, w', c.agent, AgentProcess.Receive(c));
  }

  lemma InnerFlowStep(w: Delivery.World, w': Delivery.World, step: Delivery.Step)
    requires forall b :: b in w.agents ==> FlowInv(w, b)
    requires Delivery.Next(w, w', step) && !step.Pump? && !step.SweepLeases? && !step.SweepPending?
    ensures forall b :: b in w'.agents ==> FlowInv(w', b)
  {
    hide FlowInv;
    if step.LoseCommand? {
      FlowLose(w, w', step.i);
    } else if step.AgentReceives? {
      FlowReceive(w, w', step.i);
    } else if step.AckDelivered? {
      FlowAgent(w, w', w.acks[step.i].0, AgentProcess.AckArrives(w.acks[step.i].1));
    } else if step.AgentActs? {
      FlowAgent(w, w', step.agent, step.event);
    } else if step.ServerReceives? {
      Delivery.AcceptSends(w.server, w.toServer[step.i]);
      FlowSame(w, w');
    } else {
      assert w'.toAgents == w.toAgents && w'.server.sends == w.server.sends;
      FlowSame(w, w');
    }
  }

  lemma FlowStep(w: World, w': World, step: Step)
    requires Inv(w) && Next(w, w', step)
    ensures forall a :: a in w'.base.agents ==> FlowInv(w'.base, a)
  {
    hide TokensInv, JobQueue.OneRunning, FlowInv, Delivery.Next;
    match step {
      case SendAccepted(i) => FlowSend(w.base, w'.base, w.holders[i]);
      case Other(inner) => InnerFlowStep(w.base, w'.base, inner);
      case _ =>
        assert w'.base.server.sends == w.base.server.sends;
        FlowSame(w.base, w'.base);
    }
  }

  lemma InvStep(w: World, w': World, step: Step)
    requires Inv(w) && Next(w, w', step)
    ensures Inv(w')
  {
    QueueStep(w, w', step);
    FlowStep(w, w', step);
  }

  // ---------------------------------------------------------------- runs

  ghost predicate Run(worlds: seq<World>, steps: seq<Step>) {
    && |worlds| == |steps| + 1
    && Init(worlds[0])
    && forall i :: 0 <= i < |steps| ==> Next(worlds[i], worlds[i + 1], steps[i])
  }

  lemma {:induction false} RunInv(worlds: seq<World>, steps: seq<Step>, i: nat)
    requires Run(worlds, steps) && i < |worlds|
    ensures Inv(worlds[i])
  {
    if i == 0 {
      InitInv(worlds[0]);
    } else {
      RunInv(worlds, steps, i - 1);
      InvStep(worlds[i - 1], worlds[i], steps[i - 1]);
    }
  }

  /**
   A destructive command is handed to a PC at most once, and its handler starts there at most once, in
   every run: disconnects, lost frames and results, lease expiries, agent crashes and restarts, forgotten
   dedup entries, and pumps and sweeps interleaved at every database call.
   */
  lemma DestructiveAtMostOnce(worlds: seq<World>, steps: seq<Step>, i: nat, k: JobQueue.Key)
    requires Run(worlds, steps) && i < |worlds|
    requires k in worlds[i].base.server.rows && JobQueue.Destructive(worlds[i].base.server, k.0)
    ensures Count(worlds[i].base.server.sends, k.0, k.1) <= 1
    ensures k.1 in worlds[i].base.agents ==> worlds[i].base.agents[k.1].effects[k.0] <= 1
  {
    RunInv(worlds, steps, i);
    assert TokenInv(worlds[i], k);
    if k.1 in worlds[i].base.agents {
      assert FlowInv(worlds[i].base, k.1);
      assert Spent(worlds[i].base, k.0, k.1) <= Count(worlds[i].base.server.sends, k.0, k.1);
    }
  }

  /** A PC never has two running rows, however the pumps interleave. */
  lemma OneRunningPerPC(worlds: seq<World>, steps: seq<Step>, i: nat, k: JobQueue.Key, l: JobQueue.Key)
    requires Run(worlds, steps) && i < |worlds|
    requires var rows := worlds[i].base.server.rows;
      k in rows && l in rows && rows[k].status.Running? && rows[l].status.Running? && k.1 == l.1
    ensures k == l
  {
    RunInv(worlds, steps, i);
  }

  /** Creation, cancellation, results, channels and agents never return a row to the queue. */
  lemma InnerRowStep(w: Delivery.World, w': Delivery.World, step: Delivery.Step, k: JobQueue.Key)
    requires Delivery.Next(w, w', step) && !step.Pump? && !step.SweepLeases? && !step.SweepPending?
    requires k in w.server.rows && k.0 in w.server.jobs && !JobQueue.PendingLike(w.server.rows[k].status)
    ensures k in w'.server.rows && !JobQueue.PendingLike(w'.server.rows[k].status)
    ensures w.server.rows[k].status.Cancelled? ==> w'.server.rows[k] == w.server.rows[k]
  {
  }

  lemma CancelledStep(w: World, w': World, step: Step, k: JobQueue.Key)
    requires TokensInv(w) && Next(w, w', step) && k in w.base.server.rows && w.base.server.rows[k].status.Cancelled?
    ensures k in w'.base.server.rows && w'.base.server.rows[k] == w.base.server.rows[k]
  {
    hide Delivery.Next, JobQueue.Sweep, JobQueue.Update;
    assert TokenInv(w, k);
    var s := w.base.server;
    if step.Other? {
      InnerRowStep(w.base, w'.base, step.step, k);
    } else if step.SendRefused? {
      CancelledUpdate(s, KeyOf(w.holders[step.i]), JobQueue.Pending, k);
    } else if step.LapseRow? {
      CancelledUpdate(s, w.lapses[step.i], JobQueue.Done(Outcome.Expired), k);
    } else if step.SweepRow? {
      CancelledSweep(s, w.leases[step.i], k);
    }
  }

  lemma CancelledUpdate(s: JobQueue.Server, l: JobQueue.Key, status: JobQueue.Status, k: JobQueue.Key)
    requires k in s.rows && s.rows[k].status.Cancelled?
    ensures var t := JobQueue.Update(s, l, status, None, None); k in t.rows && t.rows[k] == s.rows[k]
  {
  }

  lemma CancelledSweep(s: JobQueue.Server, l: JobQueue.Lease, k: JobQueue.Key)
    requires k in s.rows && s.rows[k].status.Cancelled?
    ensures k in JobQueue.Sweep(s, l).rows && JobQueue.Sweep(s, l).rows[k] == s.rows[k]
  {
  }

  /** Cancellation is final under every interleaving. */
  lemma {:induction false} CancelledIsFinal(worlds: seq<World>, steps: seq<Step>, i: nat, j: nat, k: JobQueue.Key)
    requires Run(worlds, steps) && i <= j < |worlds|
    requires k in worlds[i].base.server.rows && worlds[i].base.server.rows[k].status.Cancelled?
    ensures k in worlds[j].base.server.rows && worlds[j].base.server.rows[k] == worlds[i].base.server.rows[k]
  {
    hide Next, TokensInv;
    if i < j {
      CancelledIsFinal(worlds, steps, i, j - 1, k);
      RunInv(worlds, steps, j - 1);
      CancelledStep(worlds[j - 1], worlds[j], steps[j - 1], k);
    }
  }

  // ---------------------------------------------------------------- what interleaving breaks

  /** The two updates that carry no guard on the row's current state. */
  predicate Revives(w: World, step: Step, k: JobQueue.Key) {
    || (step.SendRefused? && step.i < |w.holders| && KeyOf(w.holders[step.i]) == k)
    || (step.SweepRow? && step.i < |w.leases| && w.leases[step.i].key == k
        && !JobQueue.GivenUp(w.base.server, w.leases[step.i]))
  }

  /** One step returns a finished row to the queue exactly when it carries out such an update. */
  lemma TerminalRevivedIff(w: World, w': World, step: Step, k: JobQueue.Key)
    requires TokensInv(w) && Next(w, w', step) && k in w.base.server.rows
    requires !JobQueue.PendingLike(w.base.server.rows[k].status) && !w.base.server.rows[k].status.Cancelled?
    ensures k in w'.base.server.rows
    ensures JobQueue.PendingLike(w'.base.server.rows[k].status) <==> Revives(w, step, k)
  {
    hide Delivery.Next, JobQueue.Sweep;
    assert TokenInv(w, k);
    if step.Other? {
      InnerRowStep(w.base, w'.base, step.step, k);
    } else if step.SweepRow? {
      SweptRow(w.base.server, w.leases[step.i], k);
    }
  }

  lemma SweptRow(s: JobQueue.Server, l: JobQueue.Lease, k: JobQueue.Key)
    requires k in s.rows && !JobQueue.PendingLike(s.rows[k].status) && !s.rows[k].status.Cancelled?
    ensures k in JobQueue.Sweep(s, l).rows
    ensures JobQueue.PendingLike(JobQueue.Sweep(s, l).rows[k].status) <==> l.key == k && !JobQueue.GivenUp(s, l)
  {
  }

  /** A release or a requeue of row k may still be carried out: some pump holds a claim on it, or some sweep
      saw it expire and will not give it up. */
  ghost predicate Outstanding(w: World, k: JobQueue.Key) {
    || (exists c :: c in w.holders && KeyOf(c) == k)
    || (exists l :: l in w.leases && l.key == k && !JobQueue.GivenUp(w.base.server, l))
  }

  ghost predicate Finished(w: World, k: JobQueue.Key) {
    k in w.base.server.rows && !JobQueue.PendingLike(w.base.server.rows[k].status)
  }

  /** Claims and expiries are only ever decided on rows that are not finished. */
  lemma OutstandingStep(w: World, w': World, step: Step, k: JobQueue.Key)
    requires TokensInv(w) && Next(w, w', step) && Finished(w, k) && !Outstanding(w, k)
    ensures !Outstanding(w', k)
  {
    hide Delivery.Next, JobQueue.Sweep, JobQueue.Settle, JobQueue.Update;
    assert TokenInv(w, k);
    SameJobs(w, w', step, k);
    forall c | c in w'.holders
      ensures KeyOf(c) != k
    {
      NewHolder(w, w', step, c);
    }
    forall l | l in w'.leases && l.key == k
      ensures JobQueue.GivenUp(w'.base.server, l)
    {
      NewLease(w, w', step, l);
    }
  }

  /** Whether a job is destructive never changes. */
  lemma SameJobs(w: World, w': World, step: Step, k: JobQueue.Key)
    requires Next(w, w', step) && k.0 in w.base.server.jobs
    ensures k.0 in w'.base.server.jobs && w'.base.server.jobs[k.0] == w.base.server.jobs[k.0]
  {
  }

  lemma NewHolder(w: World, w': World, step: Step, c: Command)
    requires Next(w, w', step) && c in w'.holders
    ensures c in w.holders || (KeyOf(c) in w.base.server.rows && w.base.server.rows[KeyOf(c)].status.Pending?)
  {
    hide Delivery.Next;
    if step.SendAccepted? || step.SendRefused? {
      WithoutIn(w.holders, step.i);
    }
  }

  lemma NewLease(w: World, w': World, step: Step, l: JobQueue.Lease)
    requires Next(w, w', step) && l in w'.leases
    ensures l in w.leases || (l.key in w.base.server.rows && w.base.server.rows[l.key].status.Running?)
  {
    hide Delivery.Next;
    if step.SweepRow? {
      WithoutIn(w.leases, step.i);
    }
  }

  lemma FinishedStep(w: World, w': World, step: Step, k: JobQueue.Key)
    requires TokensInv(w) && Next(w, w', step) && Finished(w, k) && !Outstanding(w, k)
    ensures Finished(w', k) && !Outstanding(w', k)
  {
    hide Next, TokensInv;
    OutstandingStep(w, w', step, k);
    if w.base.server.rows[k].status.Cancelled? {
      CancelledStep(w, w', step, k);
    } else {
      TerminalRevivedIff(w, w', step, k);
      assert Revives(w, step, k) ==> Outstanding(w, k);
    }
  }

  ghost predicate Path(worlds: seq<World>, steps: seq<Step>) {
    |worlds| == |steps| + 1 && forall i :: 0 <= i < |steps| ==> Next(worlds[i], worlds[i + 1], steps[i])
  }

  /** A finished row with nothing outstanding stays finished, whatever happens next. */
  lemma {:induction false} FinishedStays(worlds: seq<World>, steps: seq<Step>, j: nat, k: JobQueue.Key)
    requires Path(worlds, steps) && Inv(worlds[0]) && j < |worlds|
    requires Finished(worlds[0], k) && !Outstanding(worlds[0], k)
    ensures Inv(worlds[j]) && Finished(worlds[j], k) && !Outstanding(worlds[j], k)
  {
    hide Next, TokensInv, Outstanding, Finished, JobQueue.OneRunning, FlowInv;
    if j > 0 {
      FinishedStays(worlds, steps, j - 1, k);
      FinishedStep(worlds[j - 1], worlds[j], steps[j - 1], k);
      InvStep(worlds[j - 1], worlds[j], steps[j - 1]);
    }
  }

  /** What is outstanding on a finished row can be carried out at once. */
  lemma OutstandingCanReturn(w: World, k: JobQueue.Key) returns (w': World, step: Step)
    requires Finished(w, k) && !w.base.server.rows[k].status.Cancelled? && Outstanding(w, k)
    ensures Next(w, w', step) && k in w'.base.server.rows && w'.base.server.rows[k].status.Pending?
  {
    if c :| c in w.holders && KeyOf(c) == k {
      var i: nat :| i < |w.holders| && w.holders[i] == c;
      step := SendRefused(i);
      w' := w.(holders := Without(w.holders, i),
               base := w.base.(server := JobQueue.Update(w.base.server, k, JobQueue.Pending, None, None)));
    } else {
      var l :| l in w.leases && l.key == k && !JobQueue.GivenUp(w.base.server, l);
      var i: nat :| i < |w.leases| && w.leases[i] == l;
      step := SweepRow(i);
      w' := w.(leases := Without(w.leases, i), base := w.base.(server := JobQueue.Sweep(w.base.server, l)));
    }
  }

  /** Some continuation puts row k back in the queue. */
  ghost predicate CanReturn(w: World, k: JobQueue.Key) {
    exists worlds, steps :: Path(worlds, steps) && worlds[0] == w && !Finished(worlds[|steps|], k)
  }

  /**
   In every run, a finished row that is not cancelled can return to the queue if and only if a release or a
   requeue of it is outstanding - one decided before the row finished, since none is decided after.
   */
  lemma FinishedReturnsIff(worlds: seq<World>, steps: seq<Step>, i: nat, k: JobQueue.Key)
    requires Run(worlds, steps) && i < |worlds| && Finished(worlds[i], k)
    requires !worlds[i].base.server.rows[k].status.Cancelled?
    ensures CanReturn(worlds[i], k) <==> Outstanding(worlds[i], k)
  {
    hide Next, Inv, Outstanding;
    RunInv(worlds, steps, i);
    if Outstanding(worlds[i], k) {
      var w', step := OutstandingCanReturn(worlds[i], k);
      var there, how := [worlds[i], w'], [step];
      assert Path(there, how) && !Finished(there[|how|], k);
    } else if CanReturn(worlds[i], k) {
      var there, how :| Path(there, how) && there[0] == worlds[i] && !Finished(there[|how|], k);
      FinishedStays(there, how, |how|, k);
    }
  }

  /** Between any two points of a run: finished with nothing outstanding is finished for good. */
  lemma {:induction false} FinishedForGood(worlds: seq<World>, steps: seq<Step>, i: nat, j: nat, k: JobQueue.Key)
    requires Run(worlds, steps) && i <= j < |worlds| && Finished(worlds[i], k) && !Outstanding(worlds[i], k)
    ensures Finished(worlds[j], k) && !Outstanding(worlds[j], k)
  {
    hide Next, TokensInv, Outstanding, Finished, JobQueue.OneRunning, FlowInv;
    if i < j {
      FinishedForGood(worlds, steps, i, j - 1, k);
      RunInv(worlds, steps, j - 1);
      FinishedStep(worlds[j - 1], worlds[j], steps[j - 1], k);
    }
  }

  /** One job "j" for PC a, with its row, and what is pending around it. */
  function Scene(a: AgentId, now: int, row: JobQueue.Row, expiries: nat, holders: seq<Command>,
                 leases: seq<JobQueue.Lease>): World
  {
    var job := JobQueue.Job(Plain, false, 0, 0, None);
    var s := JobQueue.Server(map["j" := job], map["j" := JobQueue.Queued], map[("j", a) := row],
                             [], map[("j", a) := expiries]);
    World(Delivery.World(now, s, [], [], [], map[], {}), holders, leases, [])
  }

  lemma ReviveStart(a: AgentId)
    ensures var w := World(Delivery.World(0, JobQueue.EMPTY_SERVER, [], [], [], map[], {}), [], [], []);
      && Init(w)
      && Next(w, Scene(a, 0, JobQueue.Row(JobQueue.Pending, 0, 0, None), 0, [], []),
              Other(Delivery.CreateJob("j", JobQueue.Job(Plain, false, 0, 0, None), {a}, 0)))
  {
    var s := JobQueue.Create(JobQueue.EMPTY_SERVER, "j", JobQueue.Job(Plain, false, 0, 0, None), {a}, 0);
    assert s.rows == map[("j", a) := JobQueue.Row(JobQueue.Pending, 0, 0, None)];
    assert s.expiries == map[("j", a) := 0];
  }

  lemma ReviveClaim(a: AgentId)
    ensures Next(Scene(a, 0, JobQueue.Row(JobQueue.Pending, 0, 0, None), 0, [], []),
                 Scene(a, 0, JobQueue.Row(JobQueue.Running, 0, 0, Some(0)), 0, [Command("j", a, 0, Plain, None)], []),
                 ClaimNext(a, "j", 0))
  {
    hide JobQueue.IsNext, JobQueue.Busy;
    ReviveIsNext(a);
  }

  lemma ReviveIsNext(a: AgentId)
    ensures var s := Scene(a, 0, JobQueue.Row(JobQueue.Pending, 0, 0, None), 0, [], []).base.server;
      !JobQueue.Busy(s, a) && JobQueue.IsNext(s, a, 0, "j")
  {
    var s := Scene(a, 0, JobQueue.Row(JobQueue.Pending, 0, 0, None), 0, [], []).base.server;
    assert JobQueue.Claimable(s, a, 0, "j");
  }

  lemma ReviveTick(a: AgentId, c: Command)
    ensures Next(Scene(a, 0, JobQueue.Row(JobQueue.Running, 0, 0, Some(0)), 0, [c], []),
                 Scene(a, 1, JobQueue.Row(JobQueue.Running, 0, 0, Some(0)), 0, [c], []), Other(Delivery.Tick(1)))
  {
  }

  lemma ReviveSee(a: AgentId, c: Command)
    ensures Next(Scene(a, 1, JobQueue.Row(JobQueue.Running, 0, 0, Some(0)), 0, [c], []),
                 Scene(a, 1, JobQueue.Row(JobQueue.Running, 0, 0, Some(0)), 0, [c], [JobQueue.Lease(("j", a), 0, 0)]),
                 SeeExpiredLease(("j", a)))
  {
  }

  lemma ReviveSweep(a: AgentId, c: Command)
    ensures Next(Scene(a, 1, JobQueue.Row(JobQueue.Running, 0, 0, Some(0)), 0, [c], [JobQueue.Lease(("j", a), 0, 0)]),
                 Scene(a, 1, JobQueue.Row(JobQueue.Failed, 0, 0, None), 1, [c], []), SweepRow(0))
  {
    assert Without([JobQueue.Lease(("j", a), 0, 0)], 0) == [];
  }

  lemma ReviveRelease(a: AgentId)
    ensures Next(Scene(a, 1, JobQueue.Row(JobQueue.Failed, 0, 0, None), 1, [Command("j", a, 0, Plain, None)], []),
                 Scene(a, 1, JobQueue.Row(JobQueue.Pending, 0, 0, None), 1, [], []), SendRefused(0))
  {
    assert Without([Command("j", a, 0, Plain, None)], 0) == [];
  }

  /** Such a run exists: a lease expires between a claim and its refused send, the sweep gives the row up,
      and the release then puts it back in the queue. */
  lemma ReviveWitness(a: AgentId) returns (worlds: seq<World>, steps: seq<Step>)
    ensures Run(worlds, steps) && |steps| == 6
    ensures ("j", a) in worlds[5].base.server.rows && worlds[5].base.server.rows[("j", a)].status == JobQueue.Failed
    ensures ("j", a) in worlds[6].base.server.rows && worlds[6].base.server.rows[("j", a)].status == JobQueue.Pending
  {
    var c, l := Command("j", a, 0, Plain, None), JobQueue.Lease(("j", a), 0, 0);
    var pending, running := JobQueue.Row(JobQueue.Pending, 0, 0, None), JobQueue.Row(JobQueue.Running, 0, 0, Some(0));
    worlds := [World(Delivery.World(0, JobQueue.EMPTY_SERVER, [], [], [], map[], {}), [], [], []),
               Scene(a, 0, pending, 0, [], []),
               Scene(a, 0, running, 0, [c], []),
               Scene(a, 1, running, 0, [c], []),
               Scene(a, 1, running, 0, [c], [l]),
               Scene(a, 1, JobQueue.Row(JobQueue.Failed, 0, 0, None), 1, [c], []),
               Scene(a, 1, pending, 1, [], [])];
    steps := [Other(Delivery.CreateJob("j", JobQueue.Job(Plain, false, 0, 0, None), {a}, 0)), ClaimNext(a, "j", 0),
              Other(Delivery.Tick(1)), SeeExpiredLease(("j", a)), SweepRow(0), SendRefused(0)];
    hide Next, Init;
    ReviveStart(a);
    ReviveClaim(a);
    ReviveTick(a, c);
    ReviveSee(a, c);
    ReviveSweep(a, c);
    ReviveRelease(a);
  }
}
