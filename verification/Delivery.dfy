/**
 The whole delivery protocol: one server, any number of agents, and channels that may lose or delay
 any frame. PumpAgent and each sweep are single steps here; DeliveryInterleaved takes them apart.
 */
module Delivery {
  import opened Basics
  import opened Commands
  import JobQueue
  import AgentProcess

  datatype World = World(
    now: int,
    server: JobQueue.Server,
    toAgents: seq<Command>,
    toServer: seq<Report>,
    acks: seq<(AgentId, JobId)>,
    agents: map<AgentId, AgentProcess.Agent>,
    processed: set<(AgentId, JobId)>   // history: results the server has handled
  )

  datatype Step =
    | Tick(time: int)
    | CreateJob(id: JobId, job: JobQueue.Job, targets: set<AgentId>, maxRetry: int)
    | MarkDispatched(id: JobId)
    | Pump(agent: AgentId, lease: int, accepted: bool)
    | SweepLeases(leases: seq<JobQueue.Lease>, turns: seq<JobQueue.Turn>)
    | SweepPending(keys: seq<JobQueue.Key>)
    | CancelJob(id: JobId)
    | ServerReceives(i: nat, acked: bool)
    | LoseCommand(i: nat)
    | LoseReport(i: nat)
    | LoseAck(i: nat)
    | AgentReceives(i: nat)
    | AckDelivered(i: nat)
    | AgentActs(agent: AgentId, event: AgentProcess.Event)

  /** The server's database moves; whatever it sent is now on its way. */
  ghost predicate ServerMoves(w: World, w': World, server: JobQueue.Server) {
    && w.server.sends <= server.sends
    && w' == w.(server := server, toAgents := w.toAgents + server.sends[|w.server.sends|..])
  }

  /** Agent a takes event e; what it emits is on its way. */
  ghost predicate AgentMoves(w: World, w': World, a: AgentId, e: AgentProcess.Event) {
    && a in w.agents && AgentProcess.Enabled(w.agents[a], e)
    && w'.agents == w.agents[a := AgentProcess.Next(w.agents[a], e)]
    && w'.toServer == (var r := AgentProcess.Emitted(w.agents[a], e);
                       if r.Some? then w.toServer + [r.value] else w.toServer)
    && w'.now == w.now && w'.server == w.server && w'.processed == w.processed
  }

  /** Events an agent takes on its own; a command or an ack comes off a channel, except that a
      network-mode push carries no job. */
  predicate Spontaneous(e: AgentProcess.Event) {
    !e.AckArrives? && (e.Receive? ==> e.cmd.job == "")
  }

  ghost predicate Next(w: World, w': World, step: Step) {
    match step
    case Tick(time) => w.now <= time && w' == w.(now := time)
    case CreateJob(id, job, targets, maxRetry) =>
      id != "" && id !in w.server.jobs && ServerMoves(w, w', JobQueue.Create(w.server, id, job, targets, maxRetry))
    case MarkDispatched(id) =>
      && id in w.server.jobs
      && (forall k :: k in w.server.rows && k.0 == id ==> !w.server.rows[k].status.Pending?)
      && ServerMoves(w, w', w.server.(jobStatus := w.server.jobStatus[id := JobQueue.Dispatched]))
    case Pump(agent, lease, accepted) =>
      && (accepted ==> agent in w.agents)
      && JobQueue.PumpStep(w.server, w'.server, agent, w.now, lease, accepted) && ServerMoves(w, w', w'.server)
    case SweepLeases(todo, turns) =>
      && JobQueue.LeaseSnapshot(w.server, w.now, todo) && |turns| == |todo|
      && JobQueue.SweepRun(w.server, w'.server, todo, turns) && ServerMoves(w, w', w'.server)
    case SweepPending(todo) =>
      JobQueue.PendingSnapshot(w.server, w.now, todo) && ServerMoves(w, w', JobQueue.LapseAll(w.server, todo))
    case CancelJob(id) => ServerMoves(w, w', JobQueue.Cancel(w.server, id))
    case ServerReceives(i, acked) =>
      && i < |w.toServer|
      && var r := w.toServer[i];
      && w'.server == JobQueue.Accept(w.server, r)
      && w'.toServer == Without(w.toServer, i)
      && w'.processed == (if r.job == "" then w.processed else w.processed + {(r.agent, r.job)})
      && w'.acks == (if acked && r.job != "" then w.acks + [(r.agent, r.job)] else w.acks)
      && w'.now == w.now && w'.toAgents == w.toAgents && w'.agents == w.agents
    case LoseCommand(i) => i < |w.toAgents| && w' == w.(toAgents := Without(w.toAgents, i))
    case LoseReport(i) => i < |w.toServer| && w' == w.(toServer := Without(w.toServer, i))
    case LoseAck(i) => i < |w.acks| && w' == w.(acks := Without(w.acks, i))
    case AgentReceives(i) =>
      && i < |w.toAgents|
      && AgentMoves(w, w', w.toAgents[i].agent, AgentProcess.Receive(w.toAgents[i]))
      && w'.toAgents == Without(w.toAgents, i) && w'.acks == w.acks
    case AckDelivered(i) =>
      && i < |w.acks|
      && AgentMoves(w, w', w.acks[i].0, AgentProcess.AckArrives(w.acks[i].1))
      && w'.acks == Without(w.acks, i) && w'.toAgents == w.toAgents
    case AgentActs(agent, e) =>
      Spontaneous(e) && AgentMoves(w, w', agent, e) && w'.toAgents == w.toAgents && w'.acks == w.acks
  }

  ghost predicate Init(w: World) {
    && w.server == JobQueue.EMPTY_SERVER && w.toAgents == [] && w.toServer == [] && w.acks == [] && w.processed == {}
    && forall a :: a in w.agents ==> w.agents[a].id == a && AgentProcess.Init(w.agents[a])
  }

  // ---------------------------------------------------------------- the invariant

  /** The attempts ever dispatched to a PC. */
  function Tokens(sends: seq<Command>, agent: AgentId): set<AgentProcess.Token> {
    set c | c in sends && c.agent == agent :: (c.job, c.attempt)
  }

  function Processed(processed: set<(AgentId, JobId)>, agent: AgentId): set<JobId> {
    set p | p in processed && p.0 == agent :: p.1
  }

  predicate Answers(sends: seq<Command>, r: Report) {
    r.job == "" || exists c :: c in sends && c.job == r.job && c.agent == r.agent && c.attempt == r.attempt
  }

  ghost predicate ChannelsInv(w: World) {
    && (forall c :: c in w.toAgents ==> c in w.server.sends)
    && (forall r :: r in w.toServer ==> Answers(w.server.sends, r))
    && (forall p :: p in w.acks ==> p in w.processed)
  }

  ghost predicate AgentInv(w: World, a: AgentId)
    requires a in w.agents
  {
    && w.agents[a].id == a
    && AgentProcess.Inv(w.agents[a])
    && AgentProcess.Known(w.agents[a], Tokens(w.server.sends, a))
    && AgentProcess.CrashSafe(w.agents[a], Processed(w.processed, a))
  }

  ghost predicate Inv(w: World) {
    && JobQueue.Inv(w.server)
    && ChannelsInv(w)
    && forall a :: a in w.agents ==> AgentInv(w, a)
  }

  lemma InitInv(w: World)
    requires Init(w)
    ensures Inv(w)
  {
    forall a | a in w.agents
      ensures AgentInv(w, a)
    {
      AgentProcess.InitInv(w.agents[a]);
    }
  }

  // ---------------------------------------------------------------- every step keeps it

  lemma AgentGrows(w: World, w': World, a: AgentId)
    requires a in w.agents && AgentInv(w, a) && w'.agents == w.agents
    requires w.server.sends <= w'.server.sends && w.processed <= w'.processed
    ensures AgentInv(w', a)
  {
    assert forall c :: c in w.server.sends ==> c in w'.server.sends;
    AgentProcess.KnownGrows(w.agents[a], Tokens(w.server.sends, a), Tokens(w'.server.sends, a));
    assert Processed(w.processed, a) <= Processed(w'.processed, a);
  }

  lemma AllGrow(w: World, w': World)
    requires Inv(w) && w'.agents == w.agents && w.server.sends <= w'.server.sends && w.processed <= w'.processed
    ensures forall a :: a in w'.agents ==> AgentInv(w', a)
  {
    forall a | a in w'.agents
      ensures AgentInv(w', a)
    {
      AgentGrows(w, w', a);
    }
  }

  lemma ServerStep(w: World, w': World, server: JobQueue.Server)
    requires Inv(w) && JobQueue.Inv(server) && ServerMoves(w, w', server)
    ensures Inv(w')
  {
    AllGrow(w, w');
    hide AgentInv, JobQueue.Inv;
    assert server.sends == w.server.sends + server.sends[|w.server.sends|..];
    forall r | r in w'.toServer
      ensures Answers(server.sends, r)
    {
      AnswersGrow(w.server.sends, server.sends, r);
    }
  }

  lemma AnswersGrow(sends: seq<Command>, more: seq<Command>, r: Report)
    requires Answers(sends, r) && sends <= more
    ensures Answers(more, r)
  {
    if r.job != "" {
      var c :| c in sends && c.job == r.job && c.agent == r.agent && c.attempt == r.attempt;
      assert c in more;
    }
  }

  /** What one step does to the queue, and that it keeps the queue's invariant. */
  lemma QueueStep(w: World, w': World, step: Step)
    requires Inv(w) && Next(w, w', step)
    requires !step.ServerReceives?
    ensures JobQueue.Inv(w'.server) && JobQueue.Evolves(w.server, w'.server)
  {
    hide JobQueue.Inv, JobQueue.Evolves, AgentInv, ChannelsInv;
    var s := w.server;
    match step {
      case CreateJob(id, job, targets, maxRetry) => JobQueue.CreateKeeps(s, id, job, targets, maxRetry);
      case MarkDispatched(id) => JobQueue.DispatchedKeeps(s, id);
      case Pump(agent, lease, accepted) => JobQueue.PumpKeeps(s, w'.server, agent, w.now, lease, accepted);
      case SweepLeases(todo, turns) => SweepKeeps(s, w'.server, w.now, todo, turns);
      case SweepPending(todo) => LapseKeeps(s, w.now, todo);
      case CancelJob(id) => JobQueue.CancelKeeps(s, id);
      case _ => JobQueue.EvolvesReflexive(s);
    }
  }

  lemma SweepKeeps(s: JobQueue.Server, t: JobQueue.Server, now: int, todo: seq<JobQueue.Lease>,
                   turns: seq<JobQueue.Turn>)
    requires JobQueue.Inv(s) && JobQueue.LeaseSnapshot(s, now, todo) && |turns| == |todo|
    requires JobQueue.SweepRun(s, t, todo, turns)
    ensures JobQueue.Inv(t) && JobQueue.Evolves(s, t)
  {
    hide JobQueue.Inv, JobQueue.Evolves, JobQueue.AllFresh, JobQueue.SweepRun, JobQueue.LeaseSnapshot;
    assert todo[..|todo|] == todo && turns[..|turns|] == turns;
    SweepSnapshotFresh(s, now, todo);
    JobQueue.SweepRunKeeps(s, t, todo, |todo|, turns);
  }

  lemma SweepSnapshotFresh(s: JobQueue.Server, now: int, todo: seq<JobQueue.Lease>)
    requires JobQueue.Inv(s) && JobQueue.LeaseSnapshot(s, now, todo)
    ensures JobQueue.AllFresh(s, todo)
  {
    hide JobQueue.LeaseSnapshot, JobQueue.AllFresh;
    hide JobQueue.RowsInv, JobQueue.SendsInv, JobQueue.OneRunning, JobQueue.FinishedInv;
    JobQueue.SnapshotFresh(s, now, todo);
  }

  lemma LapseKeeps(s: JobQueue.Server, now: int, todo: seq<JobQueue.Key>)
    requires JobQueue.Inv(s) && JobQueue.PendingSnapshot(s, now, todo)
    ensures JobQueue.Inv(JobQueue.LapseAll(s, todo)) && JobQueue.Evolves(s, JobQueue.LapseAll(s, todo))
  {
    assert todo[..|todo|] == todo;
    assert forall i :: 0 <= i < |todo| ==> JobQueue.PendingExpired(s, todo[i], now);
    hide JobQueue.Inv, JobQueue.Evolves;
    JobQueue.LapseAllKeeps(s, todo, |todo|);
  }

  lemma ReceiveReportStep(w: World, w': World, i: nat, acked: bool)
    requires Inv(w) && Next(w, w', ServerReceives(i, acked))
    ensures Inv(w') && JobQueue.Evolves(w.server, w'.server)
  {
    hide AgentInv, JobQueue.Inv, JobQueue.Evolves, JobQueue.Accept;
    var r := w.toServer[i];
    WithoutIn(w.toServer, i);
    assert Answers(w.server.sends, r);
    if r.job == "" {
      JobQueue.EvolvesReflexive(w.server);
    } else {
      JobQueue.AcceptKeeps(w.server, r);
    }
    AcceptSends(w.server, r);
    AllGrow(w, w');
  }

  lemma AcceptSends(s: JobQueue.Server, r: Report)
    ensures JobQueue.Accept(s, r).sends == s.sends
    ensures r.job == "" ==> JobQueue.Accept(s, r) == s
  {
  }

  lemma LossStep(w: World, w': World, step: Step)
    requires Inv(w) && Next(w, w', step)
    requires step.Tick? || step.LoseCommand? || step.LoseReport? || step.LoseAck?
    ensures Inv(w')
  {
    hide AgentInv, JobQueue.Inv;
    AllGrow(w, w');
    match step {
      case LoseCommand(i) => WithoutIn(w.toAgents, i);
      case LoseReport(i) => WithoutIn(w.toServer, i);
      case LoseAck(i) => WithoutIn(w.acks, i);
      case Tick(_) =>
    }
  }

  lemma AgentMoveKeeps(w: World, w': World, a: AgentId, e: AgentProcess.Event)
    requires Inv(w) && AgentMoves(w, w', a, e)
    requires e.Receive? ==> AgentProcess.KnownCommand(a, e.cmd, Tokens(w.server.sends, a))
    requires e.AckArrives? ==> (a, e.job) in w.processed
    ensures forall b :: b in w'.agents ==> AgentInv(w', b)
    ensures forall r :: r in w'.toServer ==> Answers(w'.server.sends, r)
  {
    var x := w.agents[a];
    assert AgentInv(w, a);
    AgentProcess.InvStep(x, e);
    AgentProcess.KnownStep(x, e, Tokens(w.server.sends, a));
    AgentProcess.CrashSafeStep(x, e, Processed(w.processed, a));
    AgentProcess.Frame(x, e);
    hide AgentProcess.Inv, AgentProcess.Known, AgentProcess.CrashSafe, JobQueue.Inv;
    hide AgentProcess.Next, AgentProcess.Emitted, AgentProcess.Enabled;
    forall b | b in w'.agents
      ensures AgentInv(w', b)
    {
      assert AgentInv(w, b);
    }
  }

  lemma AgentStep(w: World, w': World, step: Step)
    requires Inv(w) && Next(w, w', step)
    requires step.AgentReceives? || step.AckDelivered? || step.AgentActs?
    ensures Inv(w')
  {
    hide AgentInv, JobQueue.Inv, AgentProcess.Next, AgentProcess.Emitted, AgentProcess.Enabled;
    match step {
      case AgentReceives(i) =>
        var c := w.toAgents[i];
        WithoutIn(w.toAgents, i);
        assert c in w.server.sends;
        assert (c.job, c.attempt) in Tokens(w.server.sends, c.agent);
        AgentMoveKeeps(w, w', c.agent, AgentProcess.Receive(c));
      case AckDelivered(i) =>
        WithoutIn(w.acks, i);
        AgentMoveKeeps(w, w', w.acks[i].0, AgentProcess.AckArrives(w.acks[i].1));
      case AgentActs(a, e) =>
        if e.Receive? {
          ReceiveIsAddressed(w, a, e);
        }
        AgentMoveKeeps(w, w', a, e);
    }
  }

  lemma ReceiveIsAddressed(w: World, a: AgentId, e: AgentProcess.Event)
    requires a in w.agents && AgentInv(w, a) && e.Receive? && AgentProcess.Enabled(w.agents[a], e)
    ensures e.cmd.agent == a
  {
  }

  lemma InvStep(w: World, w': World, step: Step)
    requires Inv(w) && Next(w, w', step)
    ensures Inv(w') && JobQueue.Evolves(w.server, w'.server)
  {
    if step.ServerReceives? {
      ReceiveReportStep(w, w', step.i, step.acked);
    } else {
      QueueStep(w, w', step);
      if step.Tick? || step.LoseCommand? || step.LoseReport? || step.LoseAck? {
        LossStep(w, w', step);
      } else if step.AgentReceives? || step.AckDelivered? || step.AgentActs? {
        AgentStep(w, w', step);
      } else {
        ServerStep(w, w', w'.server);
      }
    }
  }

  // ---------------------------------------------------------------- runs

  ghost predicate Run(worlds: seq<World>, steps: seq<Step>) {
    && |worlds| == |steps| + 1
    && Init(worlds[0])
    && forall i :: 0 <= i < |steps| ==> Next(worlds[i], worlds[i + 1], steps[i])
  }

  lemma {:induction false} RunInv(worlds: seq<World>, steps: seq<Step>, i: nat)
    requires Run(worlds, steps) && i < |worlds|
    ensures Inv(worlds[i])
  {
    if i == 0 {
      InitInv(worlds[0]);
    } else {
      RunInv(worlds, steps, i - 1);
      InvStep(worlds[i - 1], worlds[i], steps[i - 1]);
    }
  }

  /** Some copy of the attempt exists: in a frame, in a report, or anywhere in the agent, memory or disk. */
  ghost predicate Abroad(w: World, job: JobId, agent: AgentId, attempt: nat) {
    || (exists c :: c in w.toAgents && c.job == job && c.agent == agent && c.attempt == attempt)
    || (exists r :: r in w.toServer && r.job == job && r.agent == agent && r.attempt == attempt)
    || (agent in w.agents && HeldBy(w.agents[agent], job, attempt))
  }

  ghost predicate HeldBy(x: AgentProcess.Agent, job: JobId, attempt: nat) {
    || (exists c :: (c in x.checking || c in x.claimed || c in x.queue) && c.job == job && c.attempt == attempt)
    || (x.phase.Up? && !x.phase.worker.Idle? && x.phase.worker.cmd.job == job && x.phase.worker.cmd.attempt == attempt)
    || (x.phase.Up? && (x.phase.worker.Ended? || x.phase.worker.Persisted? || x.phase.worker.Recorded?)
        && x.phase.worker.report.job == job && x.phase.worker.report.attempt == attempt)
    || (x.phase.BootPersisted? && x.phase.report.job == job && x.phase.report.attempt == attempt)
    || (x.checkpoint.Some? && x.checkpoint.value.job == job && x.checkpoint.value.attempt == attempt)
    || (exists j :: j in x.completed && x.completed[j].job == job && x.completed[j].attempt == attempt)
    || (exists j :: j in x.outbox && x.outbox[j].job == job && x.outbox[j].attempt == attempt)
  }

  lemma HeldIsKnown(x: AgentProcess.Agent, job: JobId, attempt: nat, sent: set<AgentProcess.Token>)
    requires AgentProcess.Known(x, sent) && HeldBy(x, job, attempt) && job != ""
    ensures (job, attempt) in sent
  {
  }

  lemma AbroadIsSent(w: World, job: JobId, agent: AgentId, attempt: nat)
    requires Inv(w) && job != "" && Abroad(w, job, agent, attempt)
    ensures exists c :: c in w.server.sends && c.job == job && c.agent == agent && c.attempt == attempt
  {
    if agent in w.agents && HeldBy(w.agents[agent], job, attempt) {
      assert AgentInv(w, agent);
      HeldIsKnown(w.agents[agent], job, attempt, Tokens(w.server.sends, agent));
    } else if r :| r in w.toServer && r.job == job && r.agent == agent && r.attempt == attempt {
      assert Answers(w.server.sends, r);
    }
  }

  /**
   The attempt fence: in every reachable world, every attempt number still abroad is at most the row's
   retry count, strictly less while the row is pending.
   */
  lemma AttemptFence(worlds: seq<World>, steps: seq<Step>, i: nat, job: JobId, agent: AgentId, attempt: nat)
    requires Run(worlds, steps) && i < |worlds| && job != "" && Abroad(worlds[i], job, agent, attempt)
    ensures (job, agent) in worlds[i].server.rows
    ensures attempt <= worlds[i].server.rows[(job, agent)].retryCount
    ensures worlds[i].server.rows[(job, agent)].status.Pending? ==>
              attempt < worlds[i].server.rows[(job, agent)].retryCount
  {
    RunInv(worlds, steps, i);
    AbroadIsSent(worlds[i], job, agent, attempt);
    var c :| c in worlds[i].server.sends && c.job == job && c.agent == agent && c.attempt == attempt;
    assert JobQueue.SentInv(worlds[i].server, c);
  }

  /** No result ever changes a pending row, nor a row whose attempt has moved on. */
  lemma StaleResultIgnored(worlds: seq<World>, steps: seq<Step>, i: nat)
    requires Run(worlds, steps) && i < |steps| && steps[i].ServerReceives? && steps[i].i < |worlds[i].toServer|
    requires var r := worlds[i].toServer[steps[i].i];
      && r.job != "" && (r.job, r.agent) in worlds[i].server.rows
      && var row := worlds[i].server.rows[(r.job, r.agent)];
      row.status.Pending? || row.retryCount != r.attempt
    ensures worlds[i + 1].server == worlds[i].server
  {
    RunInv(worlds, steps, i);
    var w := worlds[i];
    var r := w.toServer[steps[i].i];
    assert r in w.toServer && Answers(w.server.sends, r);
    assert Next(w, worlds[i + 1], steps[i]);
    JobQueue.AcceptKeeps(w.server, r);
  }

  /**
   A (job, PC) is sent at most max_retry + 1 times (once when max_retry is negative), each time with an
   attempt never used before, and its lease expires at most that often; the retry count stays in budget.
   */
  lemma SendBudget(worlds: seq<World>, steps: seq<Step>, i: nat, k: JobQueue.Key)
    requires Run(worlds, steps) && i < |worlds| && k in worlds[i].server.rows
    ensures var s := worlds[i].server; var r := s.rows[k];
      && r.retryCount <= JobQueue.Budget(r)
      && Count(s.sends, k.0, k.1) <= JobQueue.Budget(r) + 1
      && k in s.expiries && s.expiries[k] <= JobQueue.Budget(r) + 1
      && (forall m, n :: 0 <= m < n < |s.sends| ==> !JobQueue.SameSend(s.sends[m], s.sends[n]))
  {
    RunInv(worlds, steps, i);
    assert JobQueue.RowInv(worlds[i].server, k);
  }

  /**
   No retry is lost: while a row waits or runs, every attempt up to the current one was sent exactly once,
   and a row the sweep gave up on was destructive and sent once, or was sent max_retry + 1 times.
   */
  lemma EveryRetryIsUsed(worlds: seq<World>, steps: seq<Step>, i: nat, k: JobQueue.Key)
    requires Run(worlds, steps) && i < |worlds| && k in worlds[i].server.rows
    ensures k.0 in worlds[i].server.jobs
    ensures var s := worlds[i].server;
      var r, sent := s.rows[k], Count(s.sends, k.0, k.1);
      && (r.status.Pending? ==> sent == r.retryCount)
      && (r.status.Running? ==> sent == r.retryCount + 1)
      && (r.status.Failed? && s.jobs[k.0].destructive ==> sent == 1)
      && (r.status.Failed? && !s.jobs[k.0].destructive ==> sent == (if r.maxRetry < 0 then 0 else r.maxRetry) + 1)
  {
    RunInv(worlds, steps, i);
    assert JobQueue.RowInv(worlds[i].server, k);
  }

  lemma {:induction false} RunEvolves(worlds: seq<World>, steps: seq<Step>, i: nat, j: nat)
    requires Run(worlds, steps) && i <= j < |worlds|
    ensures JobQueue.Evolves(worlds[i].server, worlds[j].server)
  {
    hide JobQueue.Evolves, Inv, Next;
    if i == j {
      JobQueue.EvolvesReflexive(worlds[i].server);
    } else {
      RunEvolves(worlds, steps, i, j - 1);
      RunInv(worlds, steps, j - 1);
      InvStep(worlds[j - 1], worlds[j], steps[j - 1]);
      JobQueue.EvolvesTransitive(worlds[i].server, worlds[j - 1].server, worlds[j].server);
    }
  }

  /**
   A row that has left the queue never returns to it and keeps its retry count, a cancelled row never
   changes again, the retry count never decreases, and a done job has no row left in the queue.
   */
  lemma TerminalIsFinal(worlds: seq<World>, steps: seq<Step>, i: nat, j: nat, k: JobQueue.Key)
    requires Run(worlds, steps) && i <= j < |worlds| && k in worlds[i].server.rows
    ensures k in worlds[j].server.rows
    ensures var r, r' := worlds[i].server.rows[k], worlds[j].server.rows[k];
      && r.retryCount <= r'.retryCount
      && (!JobQueue.PendingLike(r.status) ==> !JobQueue.PendingLike(r'.status) && r'.retryCount == r.retryCount)
      && (r.status.Cancelled? ==> r' == r)
    ensures k.0 in worlds[i].server.jobStatus && worlds[i].server.jobStatus[k.0] == JobQueue.Finished
            ==> !JobQueue.PendingLike(worlds[j].server.rows[k].status)
  {
    RunEvolves(worlds, steps, i, j);
    assert JobQueue.RowEvolves(worlds[i].server.rows[k], worlds[j].server.rows[k]);
    RunInv(worlds, steps, i);
  }

  /** A finished job's result is never lost: it waits in the outbox, or the server has already handled a
      result for it, wherever crashes fell. */
  lemma ResultsAreDurable(worlds: seq<World>, steps: seq<Step>, i: nat, a: AgentId, job: JobId)
    requires Run(worlds, steps) && i < |worlds| && a in worlds[i].agents && job in worlds[i].agents[a].completed
    ensures job in worlds[i].agents[a].outbox || (a, job) in worlds[i].processed
  {
    RunInv(worlds, steps, i);
    assert AgentInv(worlds[i], a);
    assert job in worlds[i].agents[a].outbox || job in Processed(worlds[i].processed, a);
  }

  // ---------------------------------------------------------------- stored outcomes are genuine

  /** At step n the server takes a report r off the channel. */
  predicate Received(w: World, step: Step, r: Report) {
    step.ServerReceives? && step.i < |w.toServer| && w.toServer[step.i] == r
  }

  /** One step stores an outcome, other than expiry, only from a report of that job, PC, attempt and outcome. */
  lemma OutcomeStep(w: World, w': World, step: Step, k: JobQueue.Key)
    requires Next(w, w', step) && k in w'.server.rows
    requires w'.server.rows[k].status.Done? && w'.server.rows[k].status.outcome != Expired
    ensures var row := w'.server.rows[k];
      || (k in w.server.rows && w.server.rows[k] == row)
      || Received(w, step, Report(k.0, k.1, row.retryCount, row.status.outcome))
  {
    hide AgentProcess.Next, AgentProcess.Enabled, AgentProcess.Emitted;
    hide JobQueue.PumpStep, JobQueue.SweepRun, JobQueue.LapseAll, JobQueue.Accept;
    var s := w.server;
    if step.Pump? {
      JobQueue.PumpNoOutcome(s, w'.server, step.agent, w.now, step.lease, step.accepted);
    } else if step.SweepLeases? {
      JobQueue.SweepRunNoOutcome(s, w'.server, step.leases, step.turns);
    } else if step.SweepPending? {
      JobQueue.LapseAllNoOutcome(s, step.keys);
    } else if step.ServerReceives? {
      AcceptKeys(s, w.toServer[step.i]);
      JobQueue.AcceptOutcome(s, w.toServer[step.i], k);
    }
  }

  lemma AcceptKeys(s: JobQueue.Server, r: Report)
    ensures JobQueue.Accept(s, r).rows.Keys == s.rows.Keys
  {
  }

  /** Every stored outcome but expiry was reported for the row's own attempt. */
  lemma {:induction false} StoredWasReported(worlds: seq<World>, steps: seq<Step>, i: nat, k: JobQueue.Key)
    requires Run(worlds, steps) && i < |worlds| && k in worlds[i].server.rows
    requires worlds[i].server.rows[k].status.Done? && worlds[i].server.rows[k].status.outcome != Expired
    ensures var row := worlds[i].server.rows[k];
      exists n :: 0 <= n < i && Received(worlds[n], steps[n], Report(k.0, k.1, row.retryCount, row.status.outcome))
  {
    hide Next, Received;
    var row := worlds[i].server.rows[k];
    if i > 0 {
      OutcomeStep(worlds[i - 1], worlds[i], steps[i - 1], k);
      if k in worlds[i - 1].server.rows && worlds[i - 1].server.rows[k] == row {
        StoredWasReported(worlds, steps, i - 1, k);
      }
    }
  }

  /** At this step an agent decides result r. */
  predicate Decided(w: World, step: Step, r: Report) {
    && step.AgentActs? && step.agent in w.agents && AgentProcess.Enabled(w.agents[step.agent], step.event)
    && AgentProcess.Decides(w.agents[step.agent], step.event) == Some(r)
  }

  /** Some agent has r, or it is on its way. */
  ghost predicate Somewhere(w: World, r: Report) {
    r in w.toServer || exists a :: a in w.agents && AgentProcess.Has(w.agents[a], r)
  }

  lemma AgentSource(w: World, w': World, a: AgentId, e: AgentProcess.Event, r: Report)
    requires AgentMoves(w, w', a, e) && Somewhere(w', r)
    ensures Somewhere(w, r) || AgentProcess.Decides(w.agents[a], e) == Some(r)
  {
    hide AgentProcess.Next, AgentProcess.Enabled, AgentProcess.Has, AgentProcess.Decides, AgentProcess.Emitted;
    if r in w'.toServer {
      if r !in w.toServer {
        AgentProcess.EmittedIsHad(w.agents[a], e);
      }
    } else {
      var b :| b in w'.agents && AgentProcess.Has(w'.agents[b], r);
      if b == a {
        AgentProcess.HasStep(w.agents[a], e, r);
      }
    }
  }

  lemma SourceStep(w: World, w': World, step: Step, r: Report)
    requires Next(w, w', step) && Somewhere(w', r)
    ensures Somewhere(w, r) || Decided(w, step, r)
  {
    hide AgentProcess.Next, AgentProcess.Enabled, AgentProcess.Has, AgentProcess.Decides, AgentProcess.Emitted;
    hide JobQueue.PumpStep, JobQueue.SweepRun, JobQueue.LapseAll, JobQueue.Accept;
    if step.AgentActs? {
      AgentSource(w, w', step.agent, step.event, r);
    } else if step.AgentReceives? {
      AgentSource(w, w', w.toAgents[step.i].agent, AgentProcess.Receive(w.toAgents[step.i]), r);
      UndecidedEvents(w.agents[w.toAgents[step.i].agent], AgentProcess.Receive(w.toAgents[step.i]));
    } else if step.AckDelivered? {
      AgentSource(w, w', w.acks[step.i].0, AgentProcess.AckArrives(w.acks[step.i].1), r);
      UndecidedEvents(w.agents[w.acks[step.i].0], AgentProcess.AckArrives(w.acks[step.i].1));
    } else if step.ServerReceives? || step.LoseReport? {
      WithoutIn(w.toServer, step.i);
    }
  }

  lemma UndecidedEvents(a: AgentProcess.Agent, e: AgentProcess.Event)
    requires AgentProcess.Enabled(a, e) && (e.Receive? || e.AckArrives?)
    ensures AgentProcess.Decides(a, e) == None
  {
  }

  lemma {:induction false} ReportsAreDecided(worlds: seq<World>, steps: seq<Step>, i: nat, r: Report)
    requires Run(worlds, steps) && i < |worlds| && Somewhere(worlds[i], r)
    ensures exists n :: 0 <= n < i && Decided(worlds[n], steps[n], r)
  {
    hide Next, Decided, Somewhere, AgentProcess.Init;
    if i == 0 {
      NowhereAtFirst(worlds[0], r);
    } else {
      SourceStep(worlds[i - 1], worlds[i], steps[i - 1], r);
      if Somewhere(worlds[i - 1], r) {
        ReportsAreDecided(worlds, steps, i - 1, r);
      }
    }
  }

  lemma NowhereAtFirst(w: World, r: Report)
    requires Init(w)
    ensures !Somewhere(w, r)
  {
    hide AgentProcess.Has, AgentProcess.Init;
    forall a | a in w.agents
      ensures !AgentProcess.Has(w.agents[a], r)
    {
      AgentProcess.NothingAtFirst(w.agents[a], r);
    }
  }

  /**
   What the server stores is what happened: a row that ended as success or error did so on the PC, for that
   very attempt - the handler ended so, the download failed, or startup inferred it - however frames were
   lost, repeated or delayed.
   */
  lemma StoredOutcomeIsGenuine(worlds: seq<World>, steps: seq<Step>, i: nat, k: JobQueue.Key)
    requires Run(worlds, steps) && i < |worlds| && k in worlds[i].server.rows
    requires worlds[i].server.rows[k].status.Done? && worlds[i].server.rows[k].status.outcome != Expired
    ensures var row := worlds[i].server.rows[k];
      exists n :: 0 <= n < i && Decided(worlds[n], steps[n], Report(k.0, k.1, row.retryCount, row.status.outcome))
  {
    hide Next, Decided;
    StoredWasReported(worlds, steps, i, k);
    var row := worlds[i].server.rows[k];
    var r := Report(k.0, k.1, row.retryCount, row.status.outcome);
    var n :| 0 <= n < i && Received(worlds[n], steps[n], r);
    assert r in worlds[n].toServer;
    ReportsAreDecided(worlds, steps, n, r);
  }
}
