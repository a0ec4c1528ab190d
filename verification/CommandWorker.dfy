/**
 The agent's command code, statement by statement: submit, process, run the handler, send the durable
 result, and recover at startup. Every statement that changes something is logged as one event, and the
 log is a run of AgentProcess, so what is proved there of all runs holds of this code. The log of one
 object has its calls one after the other; their interleavings are the other runs of AgentProcess.
 */
module CommandWorker {
  import opened Basics
  import opened Commands
  import opened AgentProcess

  lemma NoEmptyId(states: seq<Agent>, events: seq<Event>)
    requires Run(states, events)
    ensures |states| > 0 && "" !in states[|states| - 1].active && "" !in states[|states| - 1].completed
  {
    hide JobInv;
    RunInv(states, events, |states| - 1);
  }

  class CommandWorker {
    // files
    var completed: map<JobId, Report>
    var outbox: map<JobId, Report>
    var checkpoint: Option<Command>
    // memory
    var queue: seq<Command>
    var active: set<JobId>
    var sent: seq<Report>          // frames handed to the connection
    ghost var states: seq<Agent>
    ghost var events: seq<Event>

    ghost function Model(): Agent
      reads this
      requires |states| > 0
    {
      states[|states| - 1]
    }

    /** The fields are the last state of a run, with these submissions under way. */
    ghost predicate During(checking: seq<Command>, claimed: seq<Command>)
      reads this
    {
      && |states| > 0 && Run(states, events)
      && Model().completed == completed && Model().outbox == outbox && Model().checkpoint == checkpoint
      && Model().queue == queue && Model().active == active
      && Model().checking == checking && Model().claimed == claimed
    }

    ghost predicate Logged()
      reads this
    {
      During([], [])
    }

    ghost predicate Ready()
      reads this
    {
      Logged() && Model().phase == Up(Idle)
    }

    /** The worker is between two statements. */
    ghost predicate At(w: Worker)
      reads this
    {
      Logged() && Model().phase == Up(w)
    }

    ghost method Log(e: Event)
      requires Run(states, events) && Enabled(Model(), e)
      modifies this`states, this`events
      ensures Run(states, events) && Model() == Next(old(Model()), e) && events == old(events) + [e]
    {
      states := states + [Next(Model(), e)];
      events := events + [e];
    }

    /** A fresh install that has started. */
    constructor (id: AgentId)
      ensures Ready() && Model().id == id && completed == map[] && outbox == map[] && queue == [] && sent == []
    {
      completed, outbox, checkpoint := map[], map[], None;
      queue, active, sent := [], {}, [];
      var none := multiset{};
      states := [Agent(id, map[], map[], None, Down, [], [], [], {}, none, none, none)];
      events := [];
      new;
      Log(Start);
      Log(InferOutcome(Error));
    }

    /** submitCommand, for a serial command type: stored results are sent again, duplicates ignored, and a
        copy enters the queue exactly when it also enters the in-flight set. The worker may be anywhere. */
    method SubmitCommand(c: Command)
      requires Logged() && Model().phase.Up? && c.agent == Model().id && WellFormed(c)
      modifies this
      ensures Logged() && SameModel(old(Model()), Model())
      ensures completed == old(completed) && outbox == old(outbox) && checkpoint == old(checkpoint)
      ensures sent == old(sent) + (if Stored(c.job, old(completed)) then [old(completed)[c.job]] else [])
      ensures queue == old(queue) + (if Admitted(c, old(completed), old(active), old(queue)) then [c] else [])
      ensures active == old(active)
              + (if Admitted(c, old(completed), old(active), old(queue)) && c.job != "" then {c.job} else {})
    {
      hide Run, Next, Enabled;
      NoEmptyId(states, events);
      ReceiveDoes(Model(), c);
      if c.job != "" && c.job in completed {
        sent := sent + [completed[c.job]];
        Log(Receive(c));
        return;
      }
      Log(Receive(c));
      if c.job != "" {
        var free := ClaimInFlight(c);
        if !free {
          return;
        }
      }
      Offer(c);
    }

    /** The section under the mutex. */
    method ClaimInFlight(c: Command) returns (free: bool)
      requires During([c], []) && Model().phase.Up?
      modifies this`active, this`states, this`events
      ensures free <==> c.job !in old(active)
      ensures During([], if free then [c] else []) && active == old(active) + {c.job}
      ensures SameModel(old(Model()), Model())
    {
      hide Run;
      free := c.job !in active;
      active := active + {c.job};
      Log(ClaimSlot(0));
    }

    /** The select: a full queue drops the command and its claim. */
    method Offer(c: Command)
      requires During([], [c]) && Model().phase.Up?
      modifies this`queue, this`active, this`states, this`events
      ensures During([], []) && SameModel(old(Model()), Model())
      ensures |old(queue)| < QUEUE_CAPACITY ==> queue == old(queue) + [c] && active == old(active)
      ensures |old(queue)| >= QUEUE_CAPACITY ==> queue == old(queue) && active == old(active) - {c.job}
    {
      hide Run;
      if |queue| < QUEUE_CAPACITY {
        queue := queue + [c];
      } else {
        active := active - {c.job};
      }
      Log(Enqueue(0));
    }

    /** One turn of the worker loop. */
    method ProcessNext(now: int, downloaded: bool, outcome: Outcome)
      requires Ready() && |queue| > 0
      modifies this
      ensures Ready() && Model().id == old(Model()).id
      ensures queue == old(queue)[1..] && active == old(active) - {old(queue)[0].job} && checkpoint == None
      ensures Treated(old(queue)[0], Treat(old(queue)[0], old(completed), now, downloaded, outcome),
                      old(Model()).effects, old(completed), old(outbox), old(sent))
    {
      hide Run, Treat;
      SlotEmpty(states, events);
      var c := queue[0];
      queue := queue[1..];
      Log(Pop);
      ProcessCommand(c, now, downloaded, outcome);
      TrackCommandDone(c);
    }

    /** The result is in both stores, a command without id in the outbox only, and was sent once. */
    ghost predicate Delivered(r: Report, completed0: map<JobId, Report>, outbox0: map<JobId, Report>,
                              sent0: seq<Report>)
      reads this
    {
      && sent == sent0 + [r] && outbox == outbox0[r.job := r]
      && completed == if r.job == "" then completed0 else completed0[r.job := r]
    }

    /** What processing did to the stores, the wire and the world. */
    ghost predicate Treated(c: Command, t: Treatment, effects0: multiset<JobId>, completed0: map<JobId, Report>,
                            outbox0: map<JobId, Report>, sent0: seq<Report>)
      reads this
      requires |states| > 0 && (t.stores ==> t.sends.Some?)
    {
      && Model().effects == effects0 + (if t.ran then multiset{c.job} else multiset{})
      && sent == sent0 + (if t.sends.Some? then [t.sends.value] else [])
      && outbox == (if t.stores then outbox0[t.sends.value.job := t.sends.value] else outbox0)
      && completed == (if t.stores then Storing(completed0, t.sends.value) else completed0)
    }

    /** processCommand up to its deferred call: the handler runs only if no result is stored and the command
        has not expired, and whatever is reported is in both stores before it is sent. */
    method ProcessCommand(c: Command, now: int, downloaded: bool, outcome: Outcome)
      requires At(Popped(c)) && checkpoint == None
      modifies this`completed, this`outbox, this`checkpoint, this`sent, this`states, this`events
      ensures At(Closing(c)) && Model().id == old(Model()).id && checkpoint == None
      ensures Treated(c, Treat(c, old(completed), now, downloaded, outcome),
                      old(Model()).effects, old(completed), old(outbox), old(sent))
      ensures Stored(c.job, old(completed)) ==>
        && sent == old(sent) + [old(completed)[c.job]] && completed == old(completed) && outbox == old(outbox)
        && Model().effects == old(Model()).effects
      ensures !Stored(c.job, old(completed)) && c.expireAt.Some? && now > c.expireAt.value ==>
        && Delivered(Report(c.job, c.agent, c.attempt, Expired), old(completed), old(outbox), old(sent))
        && Model().effects == old(Model()).effects
      ensures !Stored(c.job, old(completed)) && (c.expireAt.None? || now <= c.expireAt.value) ==>
        if c.kind == FileDeploy && !downloaded then
          && Delivered(Report(c.job, c.agent, c.attempt, Error), old(completed), old(outbox), old(sent))
          && Model().effects == old(Model()).effects
        else if c.kind == NetworkMode then
          && sent == old(sent) && completed == old(completed) && outbox == old(outbox)
          && Model().effects == old(Model()).effects + multiset{c.job}
        else
          && Delivered(Report(c.job, c.agent, c.attempt, outcome), old(completed), old(outbox), old(sent))
          && Model().effects == old(Model()).effects + multiset{c.job}
    {
      hide Run, Next, Enabled, During;
      TreatMeans(c, completed, now, downloaded, outcome);
      Process(c, now, downloaded, outcome);
    }

    /** The same, in terms of the treatment the command gets. */
    method Process(c: Command, now: int, downloaded: bool, outcome: Outcome)
      requires At(Popped(c)) && checkpoint == None
      modifies this`completed, this`outbox, this`checkpoint, this`sent, this`states, this`events
      ensures At(Closing(c)) && Model().id == old(Model()).id && checkpoint == None
      ensures Treated(c, Treat(c, old(completed), now, downloaded, outcome),
                      old(Model()).effects, old(completed), old(outbox), old(sent))
    {
      hide Run, Storing, Next, Enabled, Handle;
      if c.job != "" && c.job in completed {
        sent := sent + [completed[c.job]];
      }
      RecheckDoes(Model(), c, now);
      Log(Recheck(now));
      if c.job != "" && c.job in completed {
        return;
      }
      if c.expireAt.Some? && now > c.expireAt.value {
        SendDurableResult(c, ReportOn(c, Expired));
      } else {
        RunCommandHandler(c, downloaded, outcome);
      }
    }

    /** runCommandHandler, which for everything but a file deploy has begun already. */
    method RunCommandHandler(c: Command, downloaded: bool, outcome: Outcome)
      requires At(if c.kind.FileDeploy? then Preparing(c) else Executing(c)) && checkpoint == None
      modifies this`completed, this`outbox, this`checkpoint, this`sent, this`states, this`events
      ensures At(Closing(c)) && Model().id == old(Model()).id && checkpoint == None
      ensures Treated(c, Handle(c, downloaded, outcome).(ran := c.kind.FileDeploy? && downloaded),
                      old(Model()).effects, old(completed), old(outbox), old(sent))
    {
      hide Run, Storing, Next, Enabled;
      if c.kind.FileDeploy? {
        DeployFile(c, downloaded, outcome);
      } else {
        RunHandler(c, outcome);
      }
    }

    method TrackCommandDone(c: Command)
      requires At(Closing(c))
      modifies this`active, this`states, this`events
      ensures Ready() && active == old(active) - {c.job}
      ensures Model().id == old(Model()).id && Model().effects == old(Model()).effects
    {
      hide Run;
      active := active - {c.job};
      Log(Done);
    }

    /** runCommandHandler for everything but file deploys; the effect has begun. */
    method RunHandler(c: Command, outcome: Outcome)
      requires At(Executing(c)) && !c.kind.FileDeploy?
      modifies this`completed, this`outbox, this`sent, this`states, this`events
      ensures At(Closing(c)) && Model().id == old(Model()).id && Model().effects == old(Model()).effects
      ensures c.kind.NetworkMode? ==> completed == old(completed) && outbox == old(outbox) && sent == old(sent)
      ensures var r := Report(c.job, c.agent, c.attempt, outcome);
              !c.kind.NetworkMode? ==>
                completed == Storing(old(completed), r) && outbox == old(outbox)[r.job := r] && sent == old(sent) + [r]
    {
      hide Run, Next, Enabled;
      FinishDoes(Model(), c, outcome);
      Log(Finish(outcome));
      if !c.kind.NetworkMode? {
        SendDurableResult(c, ReportOn(c, outcome));
      }
    }

    /** deployFile: download, checkpoint, run, clear, send. */
    method DeployFile(c: Command, downloaded: bool, outcome: Outcome)
      requires At(Preparing(c)) && c.kind.FileDeploy?
      modifies this`completed, this`outbox, this`checkpoint, this`sent, this`states, this`events
      ensures At(Closing(c)) && Model().id == old(Model()).id
      ensures checkpoint == if downloaded then None else old(checkpoint)
      ensures Model().effects == old(Model()).effects + (if downloaded then multiset{c.job} else multiset{})
      ensures var r := Report(c.job, c.agent, c.attempt, if downloaded then outcome else Error);
              completed == Storing(old(completed), r) && outbox == old(outbox)[r.job := r] && sent == old(sent) + [r]
    {
      hide Run, Next, Enabled;
      if !downloaded {
        DownloadFailedDoes(Model(), c);
        Log(DownloadFailed);
        SendDurableResult(c, ReportOn(c, Error));
      } else {
        checkpoint := Some(c);
        WriteCheckpointDoes(Model(), c);
        Log(WriteCheckpoint);
        LaunchScriptDoes(Model(), c);
        Log(LaunchScript);
        checkpoint := None;
        FinishDoes(Model(), c, outcome);
        Log(Finish(outcome));
        SendDurableResult(c, ReportOn(c, outcome));
      }
    }

    /** sendDurableResult: outbox first, dedup store second, send last. */
    method SendDurableResult(c: Command, r: Report)
      requires At(Ended(c, r))
      modifies this`completed, this`outbox, this`sent, this`states, this`events
      ensures At(Closing(c)) && Model().id == old(Model()).id && Model().effects == old(Model()).effects
      ensures completed == Storing(old(completed), r) && outbox == old(outbox)[r.job := r] && sent == old(sent) + [r]
    {
      hide Run, Next, Enabled, Storing;
      outbox := outbox[r.job := r];
      PersistDoes(Model(), c, r);
      Log(Persist);
      completed := Storing(completed, r);
      RecordDoes(Model(), c, r);
      Log(Record);
      sent := sent + [r];
      TransmitDoes(Model(), c, r);
      Log(Transmit);
    }

    /** A crash at any point, the next start, and checkSelfUpdateCheckpoint before any command is accepted:
        a checkpoint left behind turns into a stored result. */
    method Restart(outcome: Outcome)
      requires |states| > 0 && Run(states, events) && !Model().phase.Down?
      requires Model().completed == completed && Model().outbox == outbox && Model().checkpoint == checkpoint
      modifies this
      ensures Ready() && Model().id == old(Model()).id && Model().effects == old(Model()).effects
      ensures queue == [] && active == {} && checkpoint == None
      ensures old(checkpoint).None? ==> completed == old(completed) && outbox == old(outbox)
      ensures sent == old(sent)
      ensures old(checkpoint).Some? ==>
                var c := old(checkpoint).value;
                var r := Report(c.job, c.agent, c.attempt, outcome);
                completed == Storing(old(completed), r) && outbox == old(outbox)[r.job := r]
    {
      hide Run, Next, Enabled, Storing;
      queue, active := [], {};
      CrashDoes(Model());
      Log(Crash);
      StartDoes(Model());
      Log(Start);
      CheckSelfUpdateCheckpoint(outcome);
    }

    /** There is no connection yet: the result is stored, and goes out with the replay of the outbox. */
    method CheckSelfUpdateCheckpoint(outcome: Outcome)
      requires Logged() && Model().phase == Booting
      modifies this`completed, this`outbox, this`checkpoint, this`states, this`events
      ensures Ready() && Model().id == old(Model()).id && Model().effects == old(Model()).effects && checkpoint == None
      ensures old(checkpoint).None? ==> completed == old(completed) && outbox == old(outbox)
      ensures sent == old(sent)
      ensures old(checkpoint).Some? ==>
                var c := old(checkpoint).value;
                var r := Report(c.job, c.agent, c.attempt, outcome);
                completed == Storing(old(completed), r) && outbox == old(outbox)[r.job := r]
    {
      hide Run, Next, Enabled, Storing;
      InferOutcomeDoes(Model(), outcome);
      if checkpoint.None? {
        Log(InferOutcome(outcome));
        return;
      }
      var r := ReportOn(checkpoint.value, outcome);
      outbox := outbox[r.job := r];
      Log(InferOutcome(outcome));
      completed := Storing(completed, r);
      RecordInferredDoes(Model(), r);
      Log(RecordInferred);
      checkpoint := None;
      RemoveCheckpointDoes(Model());
      Log(RemoveCheckpoint);
    }
  }

  // ---------------------------------------------------------------- single events, as the code meets them

  predicate TooLate(c: Command, now: int) { c.expireAt.Some? && now > c.expireAt.value }

  lemma ReceiveDoes(a: Agent, c: Command)
    requires a.phase.Up? && c.agent == a.id && WellFormed(c)
    ensures Enabled(a, Receive(c))
    ensures Stored(c.job, a.completed) ==> Next(a, Receive(c)) == a
    ensures c.job == "" ==> Next(a, Receive(c)) == a.(claimed := a.claimed + [c])
    ensures c.job != "" && c.job !in a.completed ==> Next(a, Receive(c)) == a.(checking := a.checking + [c])
  {
  }

  lemma CrashDoes(a: Agent)
    requires !a.phase.Down?
    ensures Enabled(a, Crash)
    ensures var b := Next(a, Crash);
      && b.phase == Down && b.id == a.id && b.effects == a.effects && MemoryEmpty(b)
      && b.completed == a.completed && b.outbox == a.outbox && b.checkpoint == a.checkpoint
  {
  }

  lemma StartDoes(a: Agent)
    requires a.phase == Down
    ensures Enabled(a, Start) && Next(a, Start) == a.(phase := Booting)
  {
  }

  lemma RecheckDoes(a: Agent, c: Command, now: int)
    requires a.phase == Up(Popped(c))
    ensures Enabled(a, Recheck(now))
    ensures Stored(c.job, a.completed) ==> Next(a, Recheck(now)) == a.(phase := Up(Closing(c)))
    ensures !Stored(c.job, a.completed) && TooLate(c, now) ==>
              Next(a, Recheck(now)) == a.(phase := Up(Ended(c, ReportOn(c, Expired))))
    ensures !Stored(c.job, a.completed) && !TooLate(c, now) && c.kind.FileDeploy? ==>
              Next(a, Recheck(now)) == a.(phase := Up(Preparing(c)))
    ensures !Stored(c.job, a.completed) && !TooLate(c, now) && !c.kind.FileDeploy? ==>
              Next(a, Recheck(now)) == Begin(a, c)
  {
  }

  lemma PersistDoes(a: Agent, c: Command, r: Report)
    requires a.phase == Up(Ended(c, r))
    ensures Enabled(a, Persist)
    ensures Next(a, Persist) == a.(outbox := a.outbox[r.job := r], phase := Up(Persisted(c, r)))
  {
  }

  lemma RecordDoes(a: Agent, c: Command, r: Report)
    requires a.phase == Up(Persisted(c, r))
    ensures Enabled(a, Record)
    ensures Next(a, Record) == a.(completed := Storing(a.completed, r), phase := Up(Recorded(c, r)))
  {
  }

  lemma TransmitDoes(a: Agent, c: Command, r: Report)
    requires a.phase == Up(Recorded(c, r))
    ensures Enabled(a, Transmit) && Next(a, Transmit) == a.(phase := Up(Closing(c)))
  {
  }

  lemma DownloadFailedDoes(a: Agent, c: Command)
    requires a.phase == Up(Preparing(c))
    ensures Enabled(a, DownloadFailed)
    ensures Next(a, DownloadFailed) == a.(phase := Up(Ended(c, ReportOn(c, Error))))
  {
  }

  lemma WriteCheckpointDoes(a: Agent, c: Command)
    requires a.phase == Up(Preparing(c))
    ensures Enabled(a, WriteCheckpoint)
    ensures Next(a, WriteCheckpoint)
         == a.(checkpoint := Some(c), phase := Up(Armed(c)), scripts := a.scripts + multiset{c.job})
  {
  }

  lemma LaunchScriptDoes(a: Agent, c: Command)
    requires a.phase == Up(Armed(c))
    ensures Enabled(a, LaunchScript) && Next(a, LaunchScript) == Begin(a, c)
  {
  }

  lemma FinishDoes(a: Agent, c: Command, outcome: Outcome)
    requires a.phase == Up(Executing(c))
    ensures Enabled(a, Finish(outcome))
    ensures c.kind.NetworkMode? ==> Next(a, Finish(outcome)) == a.(phase := Up(Closing(c)))
    ensures !c.kind.NetworkMode? ==>
              Next(a, Finish(outcome)) == a.(phase := Up(Ended(c, ReportOn(c, outcome))),
                                             checkpoint := if c.kind.FileDeploy? then None else a.checkpoint)
  {
  }

  lemma InferOutcomeDoes(a: Agent, outcome: Outcome)
    requires a.phase == Booting
    ensures Enabled(a, InferOutcome(outcome))
    ensures a.checkpoint.None? ==> Next(a, InferOutcome(outcome)) == a.(phase := Up(Idle))
    ensures a.checkpoint.Some? ==>
              var r := ReportOn(a.checkpoint.value, outcome);
              Next(a, InferOutcome(outcome)) == a.(outbox := a.outbox[r.job := r], phase := BootPersisted(r))
  {
  }

  lemma RecordInferredDoes(a: Agent, r: Report)
    requires a.phase == BootPersisted(r)
    ensures Enabled(a, RecordInferred)
    ensures Next(a, RecordInferred) == a.(completed := Storing(a.completed, r), phase := BootRecorded)
  {
  }

  lemma RemoveCheckpointDoes(a: Agent)
    requires a.phase == BootRecorded
    ensures Enabled(a, RemoveCheckpoint)
    ensures Next(a, RemoveCheckpoint) == a.(checkpoint := None, phase := Up(Idle))
  {
  }

  lemma SlotEmpty(states: seq<Agent>, events: seq<Event>)
    requires Run(states, events)
    requires |states| > 0 && states[|states| - 1].phase == Up(Idle)
    ensures states[|states| - 1].checkpoint == None
    ensures forall c :: c in states[|states| - 1].queue ==> WellFormed(c)
  {
    hide JobInv;
    RunInv(states, events, |states| - 1);
  }

  /** What is done with a command: the frame sent, whether it is stored first, and whether the handler ran. */
  datatype Treatment = Treatment(sends: Option<Report>, stores: bool, ran: bool)

  function Treat(c: Command, completed: map<JobId, Report>, now: int, downloaded: bool, outcome: Outcome)
    : (t: Treatment)
    ensures t.stores ==> t.sends.Some?
    ensures t.ran ==> !Stored(c.job, completed) && !(c.expireAt.Some? && now > c.expireAt.value)
  {
    if Stored(c.job, completed) then Treatment(Some(completed[c.job]), false, false)
    else if c.expireAt.Some? && now > c.expireAt.value then Treatment(Some(ReportOn(c, Expired)), true, false)
    else Handle(c, downloaded, outcome)
  }

  lemma TreatMeans(c: Command, completed: map<JobId, Report>, now: int, downloaded: bool, outcome: Outcome)
    ensures var t := Treat(c, completed, now, downloaded, outcome);
      if Stored(c.job, completed) then t == Treatment(Some(completed[c.job]), false, false)
      else if c.expireAt.Some? && now > c.expireAt.value then
        t == Treatment(Some(Report(c.job, c.agent, c.attempt, Expired)), true, false)
      else if c.kind == FileDeploy && !downloaded then
        t == Treatment(Some(Report(c.job, c.agent, c.attempt, Error)), true, false)
      else if c.kind == NetworkMode then t == Treatment(None, false, true)
      else t == Treatment(Some(Report(c.job, c.agent, c.attempt, outcome)), true, true)
  {
  }

  function Handle(c: Command, downloaded: bool, outcome: Outcome): (t: Treatment)
    ensures t.stores ==> t.sends.Some?
    ensures t.ran <==> !c.kind.FileDeploy? || downloaded
  {
    if c.kind.FileDeploy? && !downloaded then Treatment(Some(ReportOn(c, Error)), true, false)
    else if c.kind.NetworkMode? then Treatment(None, false, true)
    else Treatment(Some(ReportOn(c, outcome)), true, true)
  }

  function Storing(completed: map<JobId, Report>, r: Report): map<JobId, Report> {
    if r.job == "" then completed else completed[r.job := r]
  }

  predicate SameModel(a: Agent, b: Agent) { b.id == a.id && b.phase == a.phase && b.effects == a.effects }

  predicate Stored(job: JobId, completed: map<JobId, Report>) { job != "" && job in completed }

  predicate Admitted(c: Command, completed: map<JobId, Report>, active: set<JobId>, queue: seq<Command>) {
    !Stored(c.job, completed) && c.job !in active && |queue| < 16
  }
}
