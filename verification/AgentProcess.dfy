/**
 The agent as a transition system. One event is one critical section or one file write of the
 agent: the reader's two checks in submitCommand are separate events, and so are the writes of
 the outbox and of the dedup store, so a crash may fall between any two of them. Any number of
 submissions may be under way at once (a reader of an old session can overlap the new one).
 */
module AgentProcess {
  import opened Basics
  import opened Commands

  const QUEUE_CAPACITY: nat := 16

  /** Where the single command worker stands. */
  datatype Worker =
    | Idle
    | Popped(cmd: Command)                     // taken from the channel, completion not re-checked yet
    | Preparing(cmd: Command)                  // file deploy: downloading
    | Armed(cmd: Command)                      // file deploy: checkpoint written, script not started
    | Executing(cmd: Command)                  // the handler's effect is happening
    | Ended(cmd: Command, report: Report)      // result known, nothing written yet
    | Persisted(cmd: Command, report: Report)  // result in the outbox
    | Recorded(cmd: Command, report: Report)   // result in the dedup store too
    | Closing(cmd: Command)                    // only trackCommandDone is left

  datatype Phase =
    | Down
    | Booting                          // before checkSelfUpdateCheckpoint
    | BootPersisted(report: Report)    // inferred result in the outbox
    | BootRecorded                     // inferred result in the dedup store, checkpoint not yet removed
    | Up(worker: Worker)

  datatype Agent = Agent(
    id: AgentId,
    // files: these survive a crash
    completed: map<JobId, Report>,
    outbox: map<JobId, Report>,
    checkpoint: Option<Command>,
    // process memory
    phase: Phase,
    checking: seq<Command>,   // submissions between the completion check and the in-flight check
    claimed: seq<Command>,    // submissions that own their in-flight entry, not yet enqueued
    queue: seq<Command>,
    active: set<JobId>,
    // history, read by no event
    effects: multiset<JobId>,  // every handler start
    live: multiset<JobId>,     // handler starts of this process, since the job was last forgotten
    scripts: multiset<JobId>   // checkpointed script launches, since the job was last forgotten or lost
  )

  datatype Event =
    | Receive(cmd: Command)
    | ClaimSlot(i: nat)
    | Enqueue(i: nat)
    | Pop
    | Recheck(now: int)
    | DownloadFailed
    | WriteCheckpoint
    | LaunchScript
    | Finish(outcome: Outcome)
    | Persist
    | Record
    | Transmit
    | Done
    | Replay(job: JobId)
    | AckArrives(job: JobId)
    | Forget(job: JobId)
    | Crash
    | Start
    | InferOutcome(outcome: Outcome)
    | RecordInferred
    | RemoveCheckpoint

  predicate Enabled(a: Agent, e: Event) {
    match e
    case Receive(c) => a.phase.Up? && c.agent == a.id && WellFormed(c)
    case ClaimSlot(i) => a.phase.Up? && i < |a.checking|
    case Enqueue(i) => a.phase.Up? && i < |a.claimed|
    case Pop => a.phase == Up(Idle) && |a.queue| > 0
    case Recheck(_) => a.phase.Up? && a.phase.worker.Popped?
    case DownloadFailed => a.phase.Up? && a.phase.worker.Preparing?
    case WriteCheckpoint => a.phase.Up? && a.phase.worker.Preparing?
    case LaunchScript => a.phase.Up? && a.phase.worker.Armed?
    case Finish(_) => a.phase.Up? && a.phase.worker.Executing?
    case Persist => a.phase.Up? && a.phase.worker.Ended?
    case Record => a.phase.Up? && a.phase.worker.Persisted?
    case Transmit => a.phase.Up? && a.phase.worker.Recorded?
    case Done => a.phase.Up? && a.phase.worker.Closing?
    case Replay(j) => a.phase.Up? && j in a.outbox
    case AckArrives(_) => a.phase.Up?
    case Forget(j) => !a.phase.Down? && j in a.completed
    case Crash => !a.phase.Down?
    case Start => a.phase.Down?
    case InferOutcome(_) => a.phase.Booting?
    case RecordInferred => a.phase.BootPersisted?
    case RemoveCheckpoint => a.phase.BootRecorded?
  }

  predicate Completed(a: Agent, job: JobId) {
    job != "" && job in a.completed
  }

  predicate ReaderEvent(e: Event) {
    e.Receive? || e.ClaimSlot? || e.Enqueue?
  }

  predicate WorkerEvent(e: Event) {
    e.Pop? || e.Recheck? || e.DownloadFailed? || e.WriteCheckpoint? || e.LaunchScript?
  }

  predicate ResultEvent(e: Event) {
    e.Finish? || e.Persist? || e.Record? || e.Transmit? || e.Done?
  }

  predicate SystemEvent(e: Event) {
    !ReaderEvent(e) && !WorkerEvent(e) && !ResultEvent(e)
  }

  /** The effect of one event. */
  function Next(a: Agent, e: Event): Agent
    requires Enabled(a, e)
  {
    if ReaderEvent(e) then NextOfReader(a, e)
    else if WorkerEvent(e) then NextOfWorker(a, e)
    else if ResultEvent(e) then NextOfResult(a, e)
    else NextOfSystem(a, e)
  }

  /** submitCommand, in three steps. */
  function NextOfReader(a: Agent, e: Event): Agent
    requires ReaderEvent(e) && Enabled(a, e)
  {
    match e
    case Receive(c) =>
      if Completed(a, c.job) then a
      else if c.job == "" then a.(claimed := a.claimed + [c])
      else a.(checking := a.checking + [c])
    case ClaimSlot(i) =>
      var c, rest := a.checking[i], Without(a.checking, i);
      if c.job in a.active then a.(checking := rest)
      else a.(checking := rest, active := a.active + {c.job}, claimed := a.claimed + [c])
    case Enqueue(i) =>
      var c, rest := a.claimed[i], Without(a.claimed, i);
      if |a.queue| < QUEUE_CAPACITY then a.(claimed := rest, queue := a.queue + [c])
      else a.(claimed := rest, active := a.active - {c.job})
  }

  /** The worker up to the start of a handler. */
  function NextOfWorker(a: Agent, e: Event): Agent
    requires WorkerEvent(e) && Enabled(a, e)
  {
    match e
    case Pop => a.(queue := a.queue[1..], phase := Up(Popped(a.queue[0])))
    case Recheck(now) =>
      var c := a.phase.worker.cmd;
      if Completed(a, c.job) then a.(phase := Up(Closing(c)))
      else if c.expireAt.Some? && now > c.expireAt.value then a.(phase := Up(Ended(c, ReportOn(c, Expired))))
      else if c.kind.FileDeploy? then a.(phase := Up(Preparing(c)))
      else Begin(a, c)
    case DownloadFailed => a.(phase := Up(Ended(a.phase.worker.cmd, ReportOn(a.phase.worker.cmd, Error))))
    case WriteCheckpoint =>
      var c := a.phase.worker.cmd;
      a.(checkpoint := Some(c), phase := Up(Armed(c)), scripts := a.scripts + multiset{c.job})
    case LaunchScript => Begin(a, a.phase.worker.cmd)
  }

  /** From the end of a handler to the end of the command. */
  function NextOfResult(a: Agent, e: Event): Agent
    requires ResultEvent(e) && Enabled(a, e)
  {
    match e
    case Finish(outcome) =>
      var c := a.phase.worker.cmd;
      if c.kind.NetworkMode? then a.(phase := Up(Closing(c)))
      else if c.kind.FileDeploy? then a.(checkpoint := None, phase := Up(Ended(c, ReportOn(c, outcome))))
      else a.(phase := Up(Ended(c, ReportOn(c, outcome))))
    case Persist =>
      var w := a.phase.worker;
      a.(outbox := a.outbox[w.report.job := w.report], phase := Up(Persisted(w.cmd, w.report)))
    case Record =>
      var w := a.phase.worker;
      Remember(a, w.report).(phase := Up(Recorded(w.cmd, w.report)))
    case Transmit => a.(phase := Up(Closing(a.phase.worker.cmd)))
    case Done => a.(active := a.active - {a.phase.worker.cmd.job}, phase := Up(Idle))
  }

  /** Acks, pruning, crashes and startup. */
  function NextOfSystem(a: Agent, e: Event): Agent
    requires SystemEvent(e) && Enabled(a, e)
  {
    match e
    case Replay(_) => a
    case AckArrives(j) => a.(outbox := a.outbox - {j})
    case Forget(j) =>
      a.(completed := a.completed - {j}, live := a.live[j := 0], scripts := a.scripts[j := 0])
    case Crash =>
      a.(phase := Down, checking := [], claimed := [], queue := [], active := {}, live := multiset{},
         scripts := if Unguarded(a) then a.scripts[a.phase.worker.cmd.job := 0] else a.scripts)
    case Start => a.(phase := Booting)
    case InferOutcome(outcome) =>
      if a.checkpoint.None? then a.(phase := Up(Idle))
      else
        var r := ReportOn(a.checkpoint.value, outcome);
        a.(outbox := a.outbox[r.job := r], phase := BootPersisted(r))
    case RecordInferred => Remember(a, a.phase.report).(phase := BootRecorded)
    case RemoveCheckpoint => a.(checkpoint := None, phase := Up(Idle))
  }

  /** The frame an event hands to the sender, if any; whether it arrives is not the agent's business. */
  function Emitted(a: Agent, e: Event): Option<Report>
    requires Enabled(a, e)
  {
    match e
    case Receive(c) => if Completed(a, c.job) then Some(a.completed[c.job]) else None
    case Recheck(_) =>
      if Completed(a, a.phase.worker.cmd.job) then Some(a.completed[a.phase.worker.cmd.job]) else None
    case Transmit => Some(a.phase.worker.report)
    case Replay(j) => Some(a.outbox[j])
    case _ => None
  }

  /** The handler starts. */
  function Begin(a: Agent, c: Command): Agent {
    a.(phase := Up(Executing(c)), effects := a.effects + multiset{c.job}, live := a.live + multiset{c.job})
  }

  /** recordCompletedResult ignores an empty job id. */
  function Remember(a: Agent, r: Report): Agent {
    if r.job == "" then a else a.(completed := a.completed[r.job := r])
  }

  /** The window deployFile leaves open: the checkpoint is gone, the result is not in the dedup store yet. */
  predicate Unguarded(a: Agent) {
    a.phase.Up? && (a.phase.worker.Ended? || a.phase.worker.Persisted?) && a.phase.worker.cmd.kind.FileDeploy?
  }

  // ---------------------------------------------------------------- copies of a job

  predicate WorkerOn(a: Agent, job: JobId) {
    a.phase.Up? && !a.phase.worker.Idle? && a.phase.worker.cmd.job == job
  }

  /** The copies of a job that own its in-flight entry: about to be enqueued, queued, or with the worker. */
  function Copies(a: Agent, job: JobId): nat {
    Count(a.claimed, job, a.id) + Count(a.queue, job, a.id) + One(WorkerOn(a, job))
  }

  predicate BeforeEffect(w: Worker) {
    w.Popped? || w.Preparing? || w.Armed?
  }

  predicate AfterEffect(w: Worker) {
    w.Executing? || w.Ended? || w.Persisted?
  }

  /** The copies of a job that could still start its handler. */
  function Held(a: Agent, job: JobId): nat {
    Count(a.checking, job, a.id) + Count(a.claimed, job, a.id) + Count(a.queue, job, a.id)
    + One(Waiting(a, job))
  }

  // ---------------------------------------------------------------- the invariant

  predicate Addressed(a: Agent, c: Command) {
    c.agent == a.id && WellFormed(c)
  }

  predicate MemoryEmpty(a: Agent) {
    a.checking == [] && a.claimed == [] && a.queue == [] && a.active == {}
  }

  /** The job's script needs no guard any more. */
  predicate Settled(a: Agent, job: JobId) {
    job != "" ==> a.scripts[job] == 0 || job in a.completed
  }

  /** The slot on disk mirrors the worker while the process is up: one slot is enough. */
  predicate SlotInv(a: Agent) {
    && (a.phase.Up? ==>
      a.checkpoint == if a.phase.worker.Armed? || (a.phase.worker.Executing? && a.phase.worker.cmd.kind.FileDeploy?)
                      then Some(a.phase.worker.cmd) else None)
    && (a.phase.BootPersisted? ==> a.checkpoint.Some? && a.checkpoint.value.job == a.phase.report.job)
    && (a.phase.BootRecorded? ==> a.checkpoint.Some? && Settled(a, a.checkpoint.value.job))
  }

  predicate WorkerInv(a: Agent) {
    && (a.phase.Up? && !a.phase.worker.Idle? ==> Addressed(a, a.phase.worker.cmd))
    && (a.phase.Up? && (a.phase.worker.Ended? || a.phase.worker.Persisted? || a.phase.worker.Recorded?)
        ==> a.phase.worker.report.job == a.phase.worker.cmd.job)
    && (a.phase.Up? && (a.phase.worker.Preparing? || a.phase.worker.Armed? || AfterEffect(a.phase.worker))
        ==> !Completed(a, a.phase.worker.cmd.job))
    && (a.phase.Up? && (a.phase.worker.Preparing? || a.phase.worker.Armed?) ==> a.phase.worker.cmd.kind.FileDeploy?)
  }

  ghost predicate MemoryInv(a: Agent) {
    && (forall c :: c in a.checking || c in a.claimed || c in a.queue ==> Addressed(a, c))
    && (forall c :: c in a.checking ==> c.job != "")
    && (!a.phase.Up? ==> MemoryEmpty(a))
    && "" !in a.active
  }

  /** The in-flight set counts the copies of a job exactly. */
  predicate CopiesInv(a: Agent, job: JobId) {
    Copies(a, job) == One(job in a.active)
  }

  /** A job started in this process is remembered, or is still with the worker. */
  predicate LiveInv(a: Agent, job: JobId) {
    && a.live[job] <= 1
    && (a.live[job] == 1 ==> job in a.completed || (WorkerOn(a, job) && AfterEffect(a.phase.worker)))
  }

  /** A launched script is remembered, or its checkpoint is on disk, or the worker is in the open window. */
  predicate ScriptInv(a: Agent, job: JobId) {
    && a.scripts[job] <= 1
    && (a.scripts[job] == 1 ==>
          || job in a.completed
          || (a.checkpoint.Some? && a.checkpoint.value.job == job)
          || (WorkerOn(a, job) && Unguarded(a)))
  }

  predicate JobInv(a: Agent, job: JobId) {
    CopiesInv(a, job) && LiveInv(a, job) && ScriptInv(a, job)
  }

  predicate DiskInv(a: Agent) {
    "" !in a.completed && SlotInv(a) && WorkerInv(a)
  }

  ghost predicate Inv(a: Agent) {
    && DiskInv(a)
    && MemoryInv(a)
    && forall job: JobId :: job != "" ==> JobInv(a, job)
  }

  predicate Init(a: Agent) {
    && a.completed == map[] && a.outbox == map[] && a.checkpoint == None && a.phase == Down && MemoryEmpty(a)
    && a.effects == multiset{} && a.live == multiset{} && a.scripts == multiset{}
  }

  // ---------------------------------------------------------------- every event keeps it

  lemma InitInv(a: Agent)
    requires Init(a)
    ensures Inv(a)
  {
  }

  // What each group of events leaves alone.

  lemma ReaderFrame(a: Agent, e: Event)
    requires Enabled(a, e) && ReaderEvent(e)
    ensures var b := Next(a, e);
      b == Agent(a.id, a.completed, a.outbox, a.checkpoint, a.phase, b.checking, b.claimed, b.queue, b.active,
                 a.effects, a.live, a.scripts)
  {
  }

  lemma WorkerFrame(a: Agent, e: Event)
    requires Enabled(a, e) && WorkerEvent(e)
    ensures var b := Next(a, e);
      b == Agent(a.id, a.completed, a.outbox, b.checkpoint, b.phase, a.checking, a.claimed, b.queue, a.active,
                 b.effects, b.live, b.scripts)
      && (!e.Pop? ==> b.queue == a.queue)
  {
  }

  lemma ResultFrame(a: Agent, e: Event)
    requires Enabled(a, e) && ResultEvent(e)
    ensures var b := Next(a, e);
      b == Agent(a.id, b.completed, b.outbox, b.checkpoint, b.phase, a.checking, a.claimed, a.queue, b.active,
                 a.effects, a.live, a.scripts)
      && (!e.Record? ==> b.completed == a.completed) && (!e.Persist? ==> b.outbox == a.outbox)
  {
  }

  lemma SystemFrame(a: Agent, e: Event)
    requires Enabled(a, e) && SystemEvent(e)
    ensures var b := Next(a, e);
      && b.id == a.id && b.effects == a.effects
      && (!e.Crash? ==>
            b.checking == a.checking && b.claimed == a.claimed && b.queue == a.queue && b.active == a.active)
      && (!e.RecordInferred? && !e.Forget? ==> b.completed == a.completed)
      && (!e.InferOutcome? && !e.AckArrives? ==> b.outbox == a.outbox)
  {
  }

  lemma Frame(a: Agent, e: Event)
    requires Enabled(a, e)
    ensures var b := Next(a, e);
      && b.id == a.id
      && (!ReaderEvent(e) && !e.Pop? && !e.Crash? ==>
            b.checking == a.checking && b.claimed == a.claimed && b.queue == a.queue)
      && (!e.Record? && !e.RecordInferred? && !e.Forget? ==> b.completed == a.completed)
      && (!e.Persist? && !e.InferOutcome? && !e.AckArrives? ==> b.outbox == a.outbox)
  {
    hide Next, Enabled;
    if ReaderEvent(e) {
      ReaderFrame(a, e);
    } else if WorkerEvent(e) {
      WorkerFrame(a, e);
    } else if ResultEvent(e) {
      ResultFrame(a, e);
    } else {
      SystemFrame(a, e);
    }
  }

  lemma SlotOfWorker(a: Agent, e: Event)
    requires DiskInv(a) && WorkerEvent(e) && Enabled(a, e)
    ensures SlotInv(NextOfWorker(a, e)) && "" !in NextOfWorker(a, e).completed
  {
  }

  lemma SlotOfResult(a: Agent, e: Event)
    requires DiskInv(a) && ResultEvent(e) && Enabled(a, e)
    ensures SlotInv(NextOfResult(a, e)) && "" !in NextOfResult(a, e).completed
  {
  }

  lemma SlotOfSystem(a: Agent, e: Event)
    requires DiskInv(a) && SystemEvent(e) && Enabled(a, e)
    ensures SlotInv(NextOfSystem(a, e)) && "" !in NextOfSystem(a, e).completed
  {
  }

  lemma SlotStep(a: Agent, e: Event)
    requires DiskInv(a) && Enabled(a, e)
    ensures SlotInv(Next(a, e)) && "" !in Next(a, e).completed
  {
    hide Enabled, NextOfWorker, NextOfResult, NextOfSystem;
    if ReaderEvent(e) {
      ReaderFrame(a, e);
    } else if WorkerEvent(e) {
      SlotOfWorker(a, e);
    } else if ResultEvent(e) {
      SlotOfResult(a, e);
    } else {
      SlotOfSystem(a, e);
    }
  }

  lemma PhaseOfWorker(a: Agent, e: Event)
    requires DiskInv(a) && WorkerEvent(e) && Enabled(a, e)
    requires e.Pop? ==> Addressed(a, a.queue[0])
    ensures WorkerInv(NextOfWorker(a, e))
  {
  }

  lemma PhaseOfResult(a: Agent, e: Event)
    requires DiskInv(a) && ResultEvent(e) && Enabled(a, e)
    ensures WorkerInv(NextOfResult(a, e))
  {
  }

  lemma PhaseOfSystem(a: Agent, e: Event)
    requires DiskInv(a) && SystemEvent(e) && Enabled(a, e)
    ensures WorkerInv(NextOfSystem(a, e))
  {
  }

  lemma WorkerInvStep(a: Agent, e: Event)
    requires DiskInv(a) && Enabled(a, e)
    requires e.Pop? ==> Addressed(a, a.queue[0])
    ensures WorkerInv(Next(a, e))
  {
    hide Enabled, NextOfWorker, NextOfResult, NextOfSystem;
    if ReaderEvent(e) {
      ReaderFrame(a, e);
    } else if WorkerEvent(e) {
      PhaseOfWorker(a, e);
    } else if ResultEvent(e) {
      PhaseOfResult(a, e);
    } else {
      PhaseOfSystem(a, e);
    }
  }

  lemma MemoryStep(a: Agent, e: Event)
    requires DiskInv(a) && MemoryInv(a) && Enabled(a, e) && !ReaderEvent(e)
    ensures MemoryInv(Next(a, e))
  {
    var b := Next(a, e);
    if WorkerEvent(e) {
      WorkerFrame(a, e);
      if e.Pop? {
        assert a.queue == [a.queue[0]] + b.queue;
      }
    } else if ResultEvent(e) {
      ResultFrame(a, e);
    } else {
      SystemFrame(a, e);
    }
    hide Next;
    forall c | c in b.checking || c in b.claimed || c in b.queue
      ensures Addressed(b, c)
    {
      assert c in a.checking || c in a.claimed || c in a.queue;
    }
  }

  lemma ReceiveStep(a: Agent, c: Command)
    requires MemoryInv(a) && Enabled(a, Receive(c))
    ensures MemoryInv(Next(a, Receive(c)))
    ensures forall job :: job != "" && CopiesInv(a, job) ==> CopiesInv(Next(a, Receive(c)), job)
  {
    forall job | job != "" && CopiesInv(a, job)
      ensures CopiesInv(Next(a, Receive(c)), job)
    {
      CountAppend(a.claimed, c, job, a.id);
    }
  }

  /** The in-flight check admits a copy only where there was none. */
  lemma ClaimStep(a: Agent, i: nat)
    requires MemoryInv(a) && Enabled(a, ClaimSlot(i))
    ensures MemoryInv(Next(a, ClaimSlot(i)))
    ensures forall job :: job != "" && CopiesInv(a, job) ==> CopiesInv(Next(a, ClaimSlot(i)), job)
  {
    WithoutIn(a.checking, i);
    forall job | job != "" && CopiesInv(a, job)
      ensures CopiesInv(Next(a, ClaimSlot(i)), job)
    {
      CountAppend(a.claimed, a.checking[i], job, a.id);
    }
  }

  /** A full queue drops the copy and its in-flight entry together. */
  lemma EnqueueStep(a: Agent, i: nat)
    requires MemoryInv(a) && Enabled(a, Enqueue(i))
    ensures MemoryInv(Next(a, Enqueue(i)))
    ensures forall job :: job != "" && CopiesInv(a, job) ==> CopiesInv(Next(a, Enqueue(i)), job)
  {
    WithoutIn(a.claimed, i);
    forall job | job != "" && CopiesInv(a, job)
      ensures CopiesInv(Next(a, Enqueue(i)), job)
    {
      CountWithout(a.claimed, i, job, a.id);
      CountAppend(a.queue, a.claimed[i], job, a.id);
    }
  }

  /** The worker's events move its one copy along. */
  lemma WorkerStep(a: Agent, e: Event, job: JobId)
    requires (!a.phase.Up? ==> MemoryEmpty(a)) && CopiesInv(a, job) && job != ""
    requires Enabled(a, e) && !ReaderEvent(e)
    requires e.Pop? ==> Addressed(a, a.queue[0])
    ensures CopiesInv(Next(a, e), job)
  {
    hide NextOfWorker, NextOfResult, NextOfSystem;
    if WorkerEvent(e) {
      CopiesOfWorker(a, e, job);
    } else if ResultEvent(e) {
      CopiesOfResult(a, e, job);
    } else {
      CopiesOfSystem(a, e, job);
    }
  }

  lemma CopiesOfWorker(a: Agent, e: Event, job: JobId)
    requires CopiesInv(a, job) && job != "" && WorkerEvent(e) && Enabled(a, e)
    requires e.Pop? ==> Addressed(a, a.queue[0])
    ensures CopiesInv(NextOfWorker(a, e), job)
  {
  }

  lemma CopiesOfResult(a: Agent, e: Event, job: JobId)
    requires CopiesInv(a, job) && job != "" && ResultEvent(e) && Enabled(a, e)
    ensures CopiesInv(NextOfResult(a, e), job)
  {
  }

  lemma CopiesOfSystem(a: Agent, e: Event, job: JobId)
    requires (!a.phase.Up? ==> MemoryEmpty(a)) && CopiesInv(a, job) && job != "" && SystemEvent(e) && Enabled(a, e)
    ensures CopiesInv(NextOfSystem(a, e), job)
  {
  }

  lemma LiveOfWorker(a: Agent, e: Event, job: JobId)
    requires DiskInv(a) && LiveInv(a, job) && job != "" && WorkerEvent(e) && Enabled(a, e)
    ensures LiveInv(NextOfWorker(a, e), job)
  {
  }

  lemma LiveOfResult(a: Agent, e: Event, job: JobId)
    requires DiskInv(a) && LiveInv(a, job) && job != "" && ResultEvent(e) && Enabled(a, e)
    ensures LiveInv(NextOfResult(a, e), job)
  {
  }

  lemma LiveOfSystem(a: Agent, e: Event, job: JobId)
    requires DiskInv(a) && LiveInv(a, job) && job != "" && SystemEvent(e) && Enabled(a, e)
    ensures LiveInv(NextOfSystem(a, e), job)
  {
  }

  lemma LiveStep(a: Agent, e: Event, job: JobId)
    requires DiskInv(a) && LiveInv(a, job) && job != "" && Enabled(a, e)
    ensures LiveInv(Next(a, e), job)
  {
    hide Enabled, NextOfWorker, NextOfResult, NextOfSystem;
    if ReaderEvent(e) {
      ReaderFrame(a, e);
    } else if WorkerEvent(e) {
      LiveOfWorker(a, e, job);
    } else if ResultEvent(e) {
      LiveOfResult(a, e, job);
    } else {
      LiveOfSystem(a, e, job);
    }
  }

  lemma ScriptOfWorker(a: Agent, e: Event, job: JobId)
    requires DiskInv(a) && ScriptInv(a, job) && job != "" && WorkerEvent(e) && Enabled(a, e)
    ensures ScriptInv(NextOfWorker(a, e), job)
  {
  }

  lemma ScriptOfResult(a: Agent, e: Event, job: JobId)
    requires DiskInv(a) && ScriptInv(a, job) && job != "" && ResultEvent(e) && Enabled(a, e)
    ensures ScriptInv(NextOfResult(a, e), job)
  {
  }

  lemma ScriptOfSystem(a: Agent, e: Event, job: JobId)
    requires DiskInv(a) && ScriptInv(a, job) && job != "" && SystemEvent(e) && Enabled(a, e)
    ensures ScriptInv(NextOfSystem(a, e), job)
  {
  }

  lemma ScriptStep(a: Agent, e: Event, job: JobId)
    requires DiskInv(a) && ScriptInv(a, job) && job != "" && Enabled(a, e)
    ensures ScriptInv(Next(a, e), job)
  {
    hide Enabled, NextOfWorker, NextOfResult, NextOfSystem;
    if ReaderEvent(e) {
      ReaderFrame(a, e);
    } else if WorkerEvent(e) {
      ScriptOfWorker(a, e, job);
    } else if ResultEvent(e) {
      ScriptOfResult(a, e, job);
    } else {
      ScriptOfSystem(a, e, job);
    }
  }

  lemma CopiesStep(a: Agent, e: Event)
    requires Inv(a) && Enabled(a, e)
    ensures MemoryInv(Next(a, e))
    ensures forall job: JobId :: job != "" ==> CopiesInv(Next(a, e), job)
  {
    forall job: JobId | job != ""
      ensures CopiesInv(a, job)
    {
      assert JobInv(a, job);
    }
    if e.Receive? {
      ReceiveStep(a, e.cmd);
    } else if e.ClaimSlot? {
      ClaimStep(a, e.i);
    } else if e.Enqueue? {
      EnqueueStep(a, e.i);
    } else {
      MemoryStep(a, e);
      if e.Pop? {
        assert a.queue[0] in a.queue;
      }
      forall job: JobId | job != ""
        ensures CopiesInv(Next(a, e), job)
      {
        WorkerStep(a, e, job);
      }
    }
  }

  lemma InvStep(a: Agent, e: Event)
    requires Inv(a) && Enabled(a, e)
    ensures Inv(Next(a, e))
  {
    SlotStep(a, e);
    if e.Pop? {
      assert a.queue[0] in a.queue;
    }
    WorkerInvStep(a, e);
    CopiesStep(a, e);
    forall job: JobId | job != ""
      ensures JobInv(Next(a, e), job)
    {
      assert JobInv(a, job);
      LiveStep(a, e, job);
      ScriptStep(a, e, job);
    }
  }

  // ---------------------------------------------------------------- runs of one agent

  /** A run: the states and the events between them, from a fresh install. */
  ghost predicate Run(states: seq<Agent>, events: seq<Event>) {
    && |states| == |events| + 1
    && Init(states[0])
    && forall i :: 0 <= i < |events| ==> Enabled(states[i], events[i]) && states[i + 1] == Next(states[i], events[i])
  }

  lemma {:induction false} RunInv(states: seq<Agent>, events: seq<Event>, i: nat)
    requires Run(states, events) && i < |states|
    ensures Inv(states[i])
  {
    if i == 0 {
      InitInv(states[0]);
    } else {
      RunInv(states, events, i - 1);
      InvStep(states[i - 1], events[i - 1]);
    }
  }

  lemma RunBounds(states: seq<Agent>, events: seq<Event>, job: JobId, i: nat)
    requires Run(states, events) && job != "" && i < |states|
    ensures states[i].live[job] <= 1 && states[i].scripts[job] <= 1
    ensures Copies(states[i], job) == One(job in states[i].active)
  {
    RunInv(states, events, i);
    assert JobInv(states[i], job);
  }

  /** The handler of job starts at this event. */
  predicate Starts(a: Agent, e: Event, job: JobId)
    requires Enabled(a, e)
  {
    match e
    case LaunchScript => a.phase.worker.cmd.job == job
    case Recheck(now) =>
      var c := a.phase.worker.cmd;
      && c.job == job && !Completed(a, job) && !c.kind.FileDeploy?
      && !(c.expireAt.Some? && now > c.expireAt.value)
    case _ => false
  }

  /** Starts are forgotten only where the run says so. */
  lemma CountersStep(a: Agent, e: Event, job: JobId)
    requires Enabled(a, e)
    ensures e != Crash && e != Forget(job) ==> Next(a, e).live[job] >= a.live[job]
    ensures e != Forget(job) && !(e == Crash && Unguarded(a) && a.phase.worker.cmd.job == job)
            ==> Next(a, e).scripts[job] >= a.scripts[job]
  {
    hide Enabled, NextOfReader, NextOfResult;
    if ReaderEvent(e) {
      ReaderFrame(a, e);
    } else if ResultEvent(e) {
      ResultFrame(a, e);
    }
  }

  lemma {:induction false} LiveKept(states: seq<Agent>, events: seq<Event>, job: JobId, i: nat, j: nat)
    requires Run(states, events) && i <= j < |states|
    requires forall k :: i <= k < j ==> events[k] != Crash && events[k] != Forget(job)
    ensures states[j].live[job] >= states[i].live[job]
  {
    hide Next, Enabled, Init;
    if i < j {
      LiveKept(states, events, job, i, j - 1);
      CountersStep(states[j - 1], events[j - 1], job);
    }
  }

  /**
   At most once per process: between two starts of the same job's handler the process crashed or the
   dedup store dropped the job, however deliveries, completions and replays interleave. The in-flight
   set always counts the job's copies.
   */
  lemma HandlerAtMostOnce(states: seq<Agent>, events: seq<Event>, job: JobId, i: nat, j: nat)
    requires Run(states, events) && job != "" && i < j < |events|
    requires Starts(states[i], events[i], job) && Starts(states[j], events[j], job)
    ensures exists k :: i < k < j && (events[k] == Crash || events[k] == Forget(job))
  {
    if forall k :: i < k < j ==> events[k] != Crash && events[k] != Forget(job) {
      LiveKept(states, events, job, i + 1, j);
      assert states[i + 1] == Next(states[i], events[i]) && states[j + 1] == Next(states[j], events[j]);
      RunBounds(states, events, job, j + 1);
    }
  }

  lemma ActiveCountsCopies(states: seq<Agent>, events: seq<Event>, job: JobId, i: nat)
    requires Run(states, events) && job != "" && i < |states|
    ensures Copies(states[i], job) == if job in states[i].active then 1 else 0
  {
    RunBounds(states, events, job, i);
  }

  lemma {:induction false} ScriptsKept(states: seq<Agent>, events: seq<Event>, job: JobId, i: nat, j: nat)
    requires Run(states, events) && i <= j < |states|
    requires forall k :: i <= k < j ==> events[k] != Forget(job)
    requires forall k :: i <= k < j && events[k] == Crash && Unguarded(states[k]) ==>
               states[k].phase.worker.cmd.job != job
    ensures states[j].scripts[job] >= states[i].scripts[job]
  {
    hide Next, Enabled, Init;
    if i < j {
      ScriptsKept(states, events, job, i, j - 1);
      CountersStep(states[j - 1], events[j - 1], job);
    }
  }

  /**
   A checkpointed script is launched again only after the dedup store dropped its job, or after a crash
   in the window between removing the checkpoint and recording the result - in particular, never because
   the script itself killed the agent.
   */
  lemma ScriptAtMostOnce(states: seq<Agent>, events: seq<Event>, job: JobId, i: nat, j: nat)
    requires Run(states, events) && job != "" && i < j < |events|
    requires events[i] == WriteCheckpoint && states[i].phase.worker.cmd.job == job
    requires events[j] == WriteCheckpoint && states[j].phase.worker.cmd.job == job
    ensures exists k :: i < k < j &&
              (events[k] == Forget(job)
               || (events[k] == Crash && Unguarded(states[k]) && states[k].phase.worker.cmd.job == job))
  {
    if forall k :: i < k < j ==>
         && events[k] != Forget(job)
         && (events[k] == Crash && Unguarded(states[k]) ==> states[k].phase.worker.cmd.job != job) {
      ScriptsKept(states, events, job, i + 1, j);
      assert states[i + 1] == Next(states[i], events[i]) && states[j + 1] == Next(states[j], events[j]);
      RunBounds(states, events, job, j + 1);
    }
  }

  /** While a script runs, its own command is on disk: whatever kills the agent then leaves it behind. */
  lemma RunningScriptIsGuarded(states: seq<Agent>, events: seq<Event>, i: nat, c: Command)
    requires Run(states, events) && i < |states| && states[i].phase == Up(Executing(c)) && c.kind == FileDeploy
    ensures states[i].checkpoint == Some(c)
  {
    hide JobInv, MemoryInv, WorkerInv;
    RunInv(states, events, i);
  }

  /** The job is in the dedup store, or startup will put it there before the process accepts commands. */
  predicate Guarded(a: Agent, job: JobId) {
    || job in a.completed
    || (!a.phase.Up? && !a.phase.BootRecorded? && a.checkpoint.Some? && a.checkpoint.value.job == job)
  }

  lemma GuardedStep(a: Agent, e: Event, job: JobId)
    requires DiskInv(a) && Guarded(a, job) && Enabled(a, e) && job != "" && e != Forget(job)
    ensures Guarded(Next(a, e), job)
  {
  }

  lemma {:induction false} GuardedKept(states: seq<Agent>, events: seq<Event>, job: JobId, i: nat, j: nat)
    requires Run(states, events) && job != "" && i <= j < |states| && Guarded(states[i], job)
    requires forall k :: i <= k < j ==> events[k] != Forget(job)
    ensures Guarded(states[j], job)
  {
    if i < j {
      GuardedKept(states, events, job, i, j - 1);
      RunInv(states, events, j - 1);
      GuardedStep(states[j - 1], events[j - 1], job);
      assert states[j] == Next(states[j - 1], events[j - 1]);
    }
  }

  /**
   Once a checkpoint was left behind by a crash, the job is in the dedup store whenever the process
   accepts commands again, however often startup itself is interrupted, until the store drops it.
   */
  lemma KilledScriptIsRecorded(states: seq<Agent>, events: seq<Event>, job: JobId, i: nat, j: nat)
    requires Run(states, events) && job != "" && i < j < |states|
    requires events[i] == Crash && states[i].checkpoint.Some? && states[i].checkpoint.value.job == job
    requires forall k :: i < k < j ==> events[k] != Forget(job)
    ensures states[j].phase.Up? ==> job in states[j].completed
  {
    assert states[i + 1] == Next(states[i], events[i]);
    GuardedKept(states, events, job, i + 1, j);
  }

  // ---------------------------------------------------------------- what the agent owes its environment

  /** Every event that can start a handler spends a copy that was received. */
  lemma HeldStep(a: Agent, e: Event, job: JobId)
    requires Inv(a) && Enabled(a, e) && job != ""
    ensures Held(Next(a, e), job) + Next(a, e).effects[job]
         <= Held(a, job) + a.effects[job] + One(e.Receive? && e.cmd.job == job)
  {
    hide Next, Held, JobInv, DiskInv;
    if e.Receive? {
      HeldReceive(a, e.cmd, job);
    } else if e.ClaimSlot? {
      HeldClaim(a, e.i, job);
    } else if e.Enqueue? {
      HeldEnqueue(a, e.i, job);
    } else {
      if e.Pop? {
        assert a.queue[0] in a.queue;
      }
      HeldWorkerStep(a, e, job);
    }
  }

  lemma HeldReceive(a: Agent, c: Command, job: JobId)
    requires Enabled(a, Receive(c))
    ensures var b := Next(a, Receive(c));
      Held(b, job) + b.effects[job] <= Held(a, job) + a.effects[job] + One(c.job == job)
  {
    hide Count;
    CountAppend(a.checking, c, job, a.id);
    CountAppend(a.claimed, c, job, a.id);
  }

  lemma HeldClaim(a: Agent, i: nat, job: JobId)
    requires Enabled(a, ClaimSlot(i))
    ensures var b := Next(a, ClaimSlot(i)); Held(b, job) + b.effects[job] <= Held(a, job) + a.effects[job]
  {
    hide Count;
    CountWithout(a.checking, i, job, a.id);
    CountAppend(a.claimed, a.checking[i], job, a.id);
  }

  lemma HeldEnqueue(a: Agent, i: nat, job: JobId)
    requires Enabled(a, Enqueue(i))
    ensures var b := Next(a, Enqueue(i)); Held(b, job) + b.effects[job] <= Held(a, job) + a.effects[job]
  {
    hide Count;
    CountWithout(a.claimed, i, job, a.id);
    CountAppend(a.queue, a.claimed[i], job, a.id);
  }

  predicate Waiting(a: Agent, job: JobId) {
    WorkerOn(a, job) && BeforeEffect(a.phase.worker)
  }

  lemma HeldWorkerStep(a: Agent, e: Event, job: JobId)
    requires Enabled(a, e) && !ReaderEvent(e)
    requires e.Pop? ==> Addressed(a, a.queue[0])
    ensures Held(Next(a, e), job) + Next(a, e).effects[job] <= Held(a, job) + a.effects[job]
  {
    if !e.Pop? && !e.Crash? {
      Frame(a, e);
      WaitingStep(a, e, job);
    }
  }

  lemma WaitingStep(a: Agent, e: Event, job: JobId)
    requires Enabled(a, e) && !ReaderEvent(e) && !e.Pop? && !e.Crash?
    ensures One(Waiting(Next(a, e), job)) + Next(a, e).effects[job] <= One(Waiting(a, job)) + a.effects[job]
  {
  }

  /** A token the server handed out: a job, and the attempt it was dispatched with. */
  type Token = (JobId, nat)

  predicate KnownCommand(id: AgentId, c: Command, sent: set<Token>) {
    c.agent == id && (c.job == "" || (c.job, c.attempt) in sent)
  }

  predicate KnownReport(id: AgentId, r: Report, sent: set<Token>) {
    r.agent == id && (r.job == "" || (r.job, r.attempt) in sent)
  }

  ghost predicate KnownCommands(id: AgentId, cs: seq<Command>, sent: set<Token>) {
    forall c :: c in cs ==> KnownCommand(id, c, sent)
  }

  predicate KnownPhase(a: Agent, sent: set<Token>) {
    && (a.phase.Up? && !a.phase.worker.Idle? ==> KnownCommand(a.id, a.phase.worker.cmd, sent))
    && (a.phase.Up? && (a.phase.worker.Ended? || a.phase.worker.Persisted? || a.phase.worker.Recorded?)
        ==> KnownReport(a.id, a.phase.worker.report, sent))
    && (a.phase.BootPersisted? ==> KnownReport(a.id, a.phase.report, sent))
    && (a.checkpoint.Some? ==> KnownCommand(a.id, a.checkpoint.value, sent))
  }

  ghost predicate KnownStore(id: AgentId, m: map<JobId, Report>, sent: set<Token>) {
    forall j :: j in m ==> m[j].job == j && KnownReport(id, m[j], sent)
  }

  /** Everything the agent holds, in memory or on disk, names a dispatched attempt. */
  ghost predicate Known(a: Agent, sent: set<Token>) {
    && KnownCommands(a.id, a.checking, sent) && KnownCommands(a.id, a.claimed, sent)
    && KnownCommands(a.id, a.queue, sent)
    && KnownPhase(a, sent)
    && KnownStore(a.id, a.completed, sent) && KnownStore(a.id, a.outbox, sent)
  }

  lemma KnownGrows(a: Agent, sent: set<Token>, more: set<Token>)
    requires Known(a, sent) && sent <= more
    ensures Known(a, more)
  {
  }

  lemma KnownTail(id: AgentId, cs: seq<Command>, sent: set<Token>)
    requires KnownCommands(id, cs, sent) && |cs| > 0
    ensures KnownCommands(id, cs[1..], sent)
  {
    assert cs == [cs[0]] + cs[1..];
  }

  lemma KnownSeqsStep(a: Agent, e: Event, sent: set<Token>)
    requires Known(a, sent) && Enabled(a, e)
    requires e.Receive? ==> KnownCommand(a.id, e.cmd, sent)
    ensures var b := Next(a, e);
      && KnownCommands(a.id, b.checking, sent) && KnownCommands(a.id, b.claimed, sent)
      && KnownCommands(a.id, b.queue, sent)
  {
    if e.Receive? {
    } else if e.ClaimSlot? {
      WithoutIn(a.checking, e.i);
    } else if e.Enqueue? {
      WithoutIn(a.claimed, e.i);
    } else if e.Pop? {
      KnownTail(a.id, a.queue, sent);
    } else if !e.Crash? {
      Frame(a, e);
    }
  }

  lemma KnownPhaseOfWorker(a: Agent, e: Event, sent: set<Token>)
    requires KnownPhase(a, sent) && WorkerEvent(e) && Enabled(a, e)
    requires e.Pop? ==> KnownCommand(a.id, a.queue[0], sent)
    ensures KnownPhase(NextOfWorker(a, e), sent)
  {
  }

  lemma KnownPhaseOfResult(a: Agent, e: Event, sent: set<Token>)
    requires KnownPhase(a, sent) && ResultEvent(e) && Enabled(a, e)
    ensures KnownPhase(NextOfResult(a, e), sent)
  {
  }

  lemma KnownPhaseOfSystem(a: Agent, e: Event, sent: set<Token>)
    requires KnownPhase(a, sent) && SystemEvent(e) && Enabled(a, e)
    ensures KnownPhase(NextOfSystem(a, e), sent)
  {
  }

  lemma KnownPhaseStep(a: Agent, e: Event, sent: set<Token>)
    requires KnownPhase(a, sent) && Enabled(a, e)
    requires e.Pop? ==> KnownCommand(a.id, a.queue[0], sent)
    ensures KnownPhase(Next(a, e), sent)
  {
    hide Enabled, NextOfWorker, NextOfResult, NextOfSystem;
    if ReaderEvent(e) {
      ReaderFrame(a, e);
    } else if WorkerEvent(e) {
      KnownPhaseOfWorker(a, e, sent);
    } else if ResultEvent(e) {
      KnownPhaseOfResult(a, e, sent);
    } else {
      KnownPhaseOfSystem(a, e, sent);
    }
  }

  lemma KnownCompletedStep(a: Agent, e: Event, sent: set<Token>)
    requires KnownPhase(a, sent) && KnownStore(a.id, a.completed, sent) && Enabled(a, e)
    ensures KnownStore(a.id, Next(a, e).completed, sent)
  {
    Frame(a, e);
  }

  lemma KnownOutboxStep(a: Agent, e: Event, sent: set<Token>)
    requires KnownPhase(a, sent) && KnownStore(a.id, a.outbox, sent) && Enabled(a, e)
    ensures KnownStore(a.id, Next(a, e).outbox, sent)
  {
    Frame(a, e);
  }

  /** The agent never invents an attempt number, and never reports one it was not sent. */
  lemma KnownStep(a: Agent, e: Event, sent: set<Token>)
    requires Known(a, sent) && Enabled(a, e)
    requires e.Receive? ==> KnownCommand(a.id, e.cmd, sent)
    ensures Known(Next(a, e), sent)
    ensures Emitted(a, e).Some? ==> KnownReport(a.id, Emitted(a, e).value, sent)
  {
    if e.Pop? {
      assert a.queue[0] in a.queue;
    }
    KnownSeqsStep(a, e, sent);
    KnownPhaseStep(a, e, sent);
    KnownCompletedStep(a, e, sent);
    KnownOutboxStep(a, e, sent);
  }

  /** A finished job's result is in the outbox, or the server has processed a result for it. */
  ghost predicate CrashSafe(a: Agent, processed: set<JobId>) {
    && (forall j :: j in a.completed ==> j in a.outbox || j in processed)
    && (a.phase.Up? && a.phase.worker.Persisted? ==> a.phase.worker.report.job in a.outbox.Keys + processed)
    && (a.phase.BootPersisted? ==> a.phase.report.job in a.outbox.Keys + processed)
  }

  /** The outbox is written first, so no crash point separates a finished job from its result. */
  lemma CrashSafeStep(a: Agent, e: Event, processed: set<JobId>)
    requires CrashSafe(a, processed) && Enabled(a, e)
    requires e.AckArrives? ==> e.job in processed
    ensures CrashSafe(Next(a, e), processed)
  {
    hide Enabled, NextOfReader, NextOfResult, NextOfSystem;
    if ReaderEvent(e) {
      ReaderFrame(a, e);
    } else if ResultEvent(e) {
      CrashSafeOfResult(a, e, processed);
    } else if SystemEvent(e) {
      CrashSafeOfSystem(a, e, processed);
    }
  }

  lemma CrashSafeOfResult(a: Agent, e: Event, processed: set<JobId>)
    requires CrashSafe(a, processed) && ResultEvent(e) && Enabled(a, e)
    ensures CrashSafe(NextOfResult(a, e), processed)
  {
  }

  lemma CrashSafeOfSystem(a: Agent, e: Event, processed: set<JobId>)
    requires CrashSafe(a, processed) && SystemEvent(e) && Enabled(a, e)
    requires e.AckArrives? ==> e.job in processed
    ensures CrashSafe(NextOfSystem(a, e), processed)
  {
  }

  // ---------------------------------------------------------------- where results come from

  /** The result an event decides: the handler's own, an error for a failed download, "expired" for a
      command that comes up too late, or what startup infers for a script that killed the agent. */
  function Decides(a: Agent, e: Event): Option<Report>
    requires Enabled(a, e)
  {
    match e
    case Finish(outcome) =>
      var c := a.phase.worker.cmd;
      if c.kind.NetworkMode? then None else Some(Report(c.job, c.agent, c.attempt, outcome))
    case DownloadFailed =>
      var c := a.phase.worker.cmd;
      Some(Report(c.job, c.agent, c.attempt, Error))
    case Recheck(now) =>
      var c := a.phase.worker.cmd;
      if !Completed(a, c.job) && c.expireAt.Some? && c.expireAt.value < now
      then Some(Report(c.job, c.agent, c.attempt, Expired)) else None
    case InferOutcome(outcome) =>
      if a.checkpoint.None? then None
      else Some(Report(a.checkpoint.value.job, a.checkpoint.value.agent, a.checkpoint.value.attempt, outcome))
    case _ => None
  }

  predicate WithWorker(a: Agent, r: Report) {
    || (a.phase.Up? && (a.phase.worker.Ended? || a.phase.worker.Persisted? || a.phase.worker.Recorded?)
        && a.phase.worker.report == r)
    || (a.phase.BootPersisted? && a.phase.report == r)
  }

  /** The agent has this result, in memory or on disk. */
  ghost predicate Has(a: Agent, r: Report) {
    WithWorker(a, r) || r in a.completed.Values || r in a.outbox.Values
  }

  lemma WithWorkerOfWorker(a: Agent, e: Event, r: Report)
    requires WorkerEvent(e) && Enabled(a, e) && WithWorker(NextOfWorker(a, e), r)
    ensures WithWorker(a, r) || Decides(a, e) == Some(r)
  {
  }

  lemma WithWorkerOfResult(a: Agent, e: Event, r: Report)
    requires ResultEvent(e) && Enabled(a, e) && WithWorker(NextOfResult(a, e), r)
    ensures WithWorker(a, r) || Decides(a, e) == Some(r)
  {
  }

  lemma WithWorkerOfSystem(a: Agent, e: Event, r: Report)
    requires SystemEvent(e) && Enabled(a, e) && WithWorker(NextOfSystem(a, e), r)
    ensures WithWorker(a, r) || Decides(a, e) == Some(r)
  {
  }

  lemma WithWorkerStep(a: Agent, e: Event, r: Report)
    requires Enabled(a, e) && WithWorker(Next(a, e), r)
    ensures WithWorker(a, r) || Decides(a, e) == Some(r)
  {
    hide Enabled, NextOfReader, NextOfWorker, NextOfResult, NextOfSystem, Decides, WithWorker;
    if ReaderEvent(e) {
      ReaderKeepsWorker(a, e, r);
    } else if WorkerEvent(e) {
      WithWorkerOfWorker(a, e, r);
    } else if ResultEvent(e) {
      WithWorkerOfResult(a, e, r);
    } else {
      WithWorkerOfSystem(a, e, r);
    }
  }

  lemma ReaderKeepsWorker(a: Agent, e: Event, r: Report)
    requires ReaderEvent(e) && Enabled(a, e)
    ensures WithWorker(Next(a, e), r) <==> WithWorker(a, r)
  {
    hide Next, Enabled;
    ReaderFrame(a, e);
  }

  lemma StoredStep(a: Agent, e: Event, r: Report)
    requires Enabled(a, e) && (r in Next(a, e).completed.Values || r in Next(a, e).outbox.Values)
    ensures Has(a, r) || Decides(a, e) == Some(r)
  {
    Frame(a, e);
    hide NextOfReader, NextOfWorker;
  }

  /** A result the agent has is one it had before, or the one this event decided. */
  lemma HasStep(a: Agent, e: Event, r: Report)
    requires Enabled(a, e) && Has(Next(a, e), r)
    ensures Has(a, r) || Decides(a, e) == Some(r)
  {
    hide Next, Enabled, Decides, WithWorker;
    if WithWorker(Next(a, e), r) {
      WithWorkerStep(a, e, r);
    } else {
      StoredStep(a, e, r);
    }
  }

  /** What is decided is kept: the agent has it from then on until it is acknowledged and forgotten. */
  lemma DecidedIsHad(a: Agent, e: Event)
    requires Enabled(a, e) && Decides(a, e).Some?
    ensures WithWorker(Next(a, e), Decides(a, e).value)
  {
  }

  /** What is sent when: the result of the command at hand, a stored result for a job delivered again, and
      whatever waits in the outbox; an ack takes exactly its own job out of the outbox. */
  lemma SendingMeans(a: Agent, e: Event)
    requires Enabled(a, e)
    ensures e.Transmit? ==> Emitted(a, e) == Some(a.phase.worker.report)
    ensures e.Replay? ==> Emitted(a, e) == Some(a.outbox[e.job])
    ensures e.Receive? && e.cmd.job != "" && e.cmd.job in a.completed ==> Emitted(a, e) == Some(a.completed[e.cmd.job])
    ensures e.Recheck? && a.phase.worker.cmd.job != "" && a.phase.worker.cmd.job in a.completed ==>
              Emitted(a, e) == Some(a.completed[a.phase.worker.cmd.job])
    ensures e.AckArrives? ==> forall j :: j in Next(a, e).outbox <==> j in a.outbox && j != e.job
    ensures e.AckArrives? ==> forall j :: j in Next(a, e).outbox ==> Next(a, e).outbox[j] == a.outbox[j]
  {
    hide NextOfReader, NextOfWorker, NextOfResult;
  }

  /** Only results the agent has are sent. */
  lemma EmittedIsHad(a: Agent, e: Event)
    requires Enabled(a, e) && Emitted(a, e).Some?
    ensures Has(a, Emitted(a, e).value)
  {
  }

  /** Every result the agent ever has or sends was decided by an earlier event of the run, with that
      outcome and for that command. */
  lemma {:induction false} ResultsAreDecided(states: seq<Agent>, events: seq<Event>, i: nat, r: Report)
    requires Run(states, events) && i < |states|
    requires Has(states[i], r) || (i < |events| && Emitted(states[i], events[i]) == Some(r))
    ensures exists k :: 0 <= k < i && Decides(states[k], events[k]) == Some(r)
  {
    hide Next, Enabled, Decides, Emitted, WithWorker;
    if i < |events| && Emitted(states[i], events[i]) == Some(r) {
      EmittedIsHad(states[i], events[i]);
    }
    if i == 0 {
      NothingAtFirst(states[0], r);
    } else {
      HasStep(states[i - 1], events[i - 1], r);
      if Has(states[i - 1], r) {
        ResultsAreDecided(states, events, i - 1, r);
      }
    }
  }

  lemma NothingAtFirst(a: Agent, r: Report)
    requires Init(a)
    ensures !Has(a, r)
  {
  }
}
