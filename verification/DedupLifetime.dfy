/**
 The agent together with the file behind its dedup memory: a job is forgotten only where pruning the file
 drops it, so what AgentProcess leaves to a free event becomes a matter of hours and of other jobs.
 */
module DedupLifetime {
  import opened Basics
  import opened Commands
  import AgentProcess
  import CompletedStore

  /** The agent, and the calls its dedup file has seen. */
  datatype Moment = Moment(agent: AgentProcess.Agent, ops: seq<CompletedStore.Op>)

  datatype Step =
    | Look(job: JobId, at: int)                                      // completedJobResult prunes the file
    | Happens(event: AgentProcess.Event, data: string, at: int)      // data and at matter to a record only

  /** The job an event records, if any. */
  function Records(a: AgentProcess.Agent, e: AgentProcess.Event): JobId
    requires AgentProcess.Enabled(a, e)
  {
    if e.Record? then a.phase.worker.report.job
    else if e.RecordInferred? then a.phase.report.job
    else ""
  }

  /** The job an event looks up, if any. */
  function LooksUp(a: AgentProcess.Agent, e: AgentProcess.Event): JobId
    requires AgentProcess.Enabled(a, e)
  {
    if e.Receive? then e.cmd.job
    else if e.Recheck? then a.phase.worker.cmd.job
    else ""
  }

  ghost predicate Later(ops: seq<CompletedStore.Op>, at: int) {
    forall i :: 0 <= i < |ops| ==> ops[i].at < at
  }

  predicate InFile(m: Moment, job: JobId) {
    CompletedStore.Find(CompletedStore.Store(m.ops), job).Some?
  }

  /** Memory has forgotten what the file dropped. */
  ghost predicate InSync(m: Moment) {
    forall job :: job in m.agent.completed ==> InFile(m, job)
  }

  /** A look-up reads the file it has just pruned; only what the file no longer holds is forgotten. */
  ghost predicate Next(m: Moment, m': Moment, step: Step) {
    match step
    case Look(job, at) => job != "" && Later(m.ops, at) && m' == m.(ops := m.ops + [CompletedStore.Lookup(job, at)])
    case Happens(e, data, at) =>
      && AgentProcess.Enabled(m.agent, e) && m'.agent == AgentProcess.Next(m.agent, e)
      && (e.Forget? ==> !InFile(m, e.job))
      && (LooksUp(m.agent, e) != "" ==>
            && InSync(m) && m.ops != [] && m.ops[|m.ops| - 1].Lookup?
            && m.ops[|m.ops| - 1].job == LooksUp(m.agent, e))
      && (if Records(m.agent, e) == "" then m'.ops == m.ops
          else Later(m.ops, at) && m'.ops == m.ops + [CompletedStore.Record(Records(m.agent, e), data, at)])
  }

  ghost predicate Run(moments: seq<Moment>, steps: seq<Step>) {
    && |moments| == |steps| + 1
    && AgentProcess.Init(moments[0].agent) && moments[0].ops == []
    && forall i :: 0 <= i < |steps| ==> Next(moments[i], moments[i + 1], steps[i])
  }

  // ---------------------------------------------------------------- invariants

  ghost predicate Inv(m: Moment) {
    && AgentProcess.Inv(m.agent) && CompletedStore.Increasing(m.ops)
    && forall i :: 0 <= i < |m.ops| ==> m.ops[i].job != ""
  }

  lemma InvStep(m: Moment, m': Moment, step: Step)
    requires Inv(m) && Next(m, m', step)
    ensures Inv(m') && m.ops <= m'.ops
  {
    hide AgentProcess.Inv, AgentProcess.Next, AgentProcess.Enabled, InSync, InFile, LooksUp;
    if step.Happens? {
      AgentProcess.InvStep(m.agent, step.event);
    }
  }

  lemma {:induction false} RunInv(moments: seq<Moment>, steps: seq<Step>, i: nat)
    requires Run(moments, steps) && i < |moments|
    ensures Inv(moments[i])
  {
    hide Next;
    if i == 0 {
      AgentProcess.InitInv(moments[0].agent);
    } else {
      RunInv(moments, steps, i - 1);
      InvStep(moments[i - 1], moments[i], steps[i - 1]);
    }
  }

  lemma {:induction false} OpsGrow(moments: seq<Moment>, steps: seq<Step>, i: nat, j: nat)
    requires Run(moments, steps) && i <= j < |moments|
    ensures moments[i].ops <= moments[j].ops
  {
    hide Next, Inv;
    if i < j {
      OpsGrow(moments, steps, i, j - 1);
      RunInv(moments, steps, j - 1);
      InvStep(moments[j - 1], moments[j], steps[j - 1]);
    }
  }

  // ---------------------------------------------------------------- what a suffix of the calls says

  lemma {:induction false} LastRecordSuffix(before: seq<CompletedStore.Op>, since: seq<CompletedStore.Op>, job: JobId)
    requires job != "" && CompletedStore.LastRecord(since, job).Some?
    ensures CompletedStore.LastRecord(before + since, job) == CompletedStore.LastRecord(since, job)
    ensures CompletedStore.LaterJobs(before + since, job) == CompletedStore.LaterJobs(since, job)
    decreases |since|
  {
    var n := |since| - 1;
    assert (before + since)[..|before + since| - 1] == before + since[..n];
    if !(since[n].Record? && since[n].job == job) {
      LastRecordSuffix(before, since[..n], job);
    }
  }

  lemma RecordSnoc(since: seq<CompletedStore.Op>, op: CompletedStore.Op, job: JobId)
    ensures CompletedStore.LastRecord(since, job).Some? || (op.Record? && op.job == job)
            ==> CompletedStore.LastRecord(since + [op], job).Some?
  {
    assert (since + [op])[..|since|] == since;
  }

  // ---------------------------------------------------------------- recorded, then forgotten

  function Since(moments: seq<Moment>, i: nat, k: nat): seq<CompletedStore.Op>
    requires i < |moments| && k < |moments| && moments[i].ops <= moments[k].ops
  {
    moments[k].ops[|moments[i].ops|..]
  }

  /** Only a record puts a job into memory. */
  lemma CompletedStep(m: Moment, m': Moment, step: Step, job: JobId)
    requires Next(m, m', step) && job != "" && job !in m.agent.completed && job in m'.agent.completed
    ensures step.Happens? && |m'.ops| == |m.ops| + 1 && m'.ops[..|m.ops|] == m.ops
    ensures m'.ops[|m.ops|].Record? && m'.ops[|m.ops|].job == job
  {
    hide InSync, InFile, LooksUp;
    if step.Happens? {
      AgentProcess.Frame(m.agent, step.event);
    }
  }

  lemma {:induction false} RecordedSince(moments: seq<Moment>, steps: seq<Step>, i: nat, k: nat, job: JobId)
    requires Run(moments, steps) && i <= k < |moments| && job != ""
    requires job !in moments[i].agent.completed && job in moments[k].agent.completed
    ensures moments[i].ops <= moments[k].ops
    ensures CompletedStore.LastRecord(Since(moments, i, k), job).Some?
    decreases k
  {
    hide Next, Inv, CompletedStore.LastRecord;
    OpsGrow(moments, steps, i, k);
    OpsGrow(moments, steps, i, k - 1);
    OpsGrow(moments, steps, k - 1, k);
    var m, m' := moments[k - 1], moments[k];
    var since := Since(moments, i, k - 1);
    if job in m.agent.completed {
      RecordedSince(moments, steps, i, k - 1, job);
      RunInv(moments, steps, k - 1);
      OpsStep(m, m', steps[k - 1]);
    } else {
      CompletedStep(m, m', steps[k - 1], job);
    }
    if |m'.ops| == |m.ops| {
      assert Since(moments, i, k) == since;
    } else {
      assert Since(moments, i, k) == since + [m'.ops[|m.ops|]];
      RecordSnoc(since, m'.ops[|m.ops|], job);
    }
  }

  lemma OpsStep(m: Moment, m': Moment, step: Step)
    requires Next(m, m', step)
    ensures m.ops <= m'.ops && |m'.ops| <= |m.ops| + 1
  {
    hide AgentProcess.Next, AgentProcess.Enabled, InSync, InFile, LooksUp;
  }

  /** The job was recorded after that point, and since then a day has passed or 256 other jobs were recorded. */
  ghost predicate Outlived(moments: seq<Moment>, i: nat, k: nat, job: JobId)
    requires i < |moments| && k < |moments|
  {
    && moments[i].ops <= moments[k].ops
    && var since := Since(moments, i, k);
       && CompletedStore.LastRecord(since, job).Some?
       && (|| CompletedStore.LastTime(moments[k].ops) - CompletedStore.LastRecord(since, job).value.at
              >= CompletedStore.TTL
           || |CompletedStore.LaterJobs(since, job)| >= CompletedStore.MAX_ENTRIES)
  }

  predicate IsForget(step: Step, job: JobId) { step.Happens? && step.event == AgentProcess.Forget(job) }

  predicate IsCrash(step: Step) { step.Happens? && step.event == AgentProcess.Crash }

  /** A job not in memory at one point and forgotten at a later one was recorded in between, and outlived. */
  lemma ForgottenIsOutlived(moments: seq<Moment>, steps: seq<Step>, i: nat, k: nat, job: JobId)
    requires Run(moments, steps) && i <= k < |steps| && job != ""
    requires job !in moments[i].agent.completed && IsForget(steps[k], job)
    ensures Outlived(moments, i, k, job)
  {
    ForgetMeans(moments[k], moments[k + 1], steps[k], job);
    hide Next, Inv, CompletedStore.LastRecord, CompletedStore.LaterJobs;
    hide CompletedStore.Increasing, CompletedStore.Store;
    OpsGrow(moments, steps, i, k);
    RecordedSince(moments, steps, i, k, job);
    MomentIncreasing(moments, steps, k);
    var since := Since(moments, i, k);
    assert moments[k].ops == moments[i].ops + since;
    LastRecordSuffix(moments[i].ops, since, job);
    CompletedStore.RememberedIff(moments[k].ops, job);
  }

  lemma ForgetMeans(m: Moment, m': Moment, step: Step, job: JobId)
    requires Next(m, m', step) && IsForget(step, job)
    ensures job in m.agent.completed && !InFile(m, job)
  {
    hide AgentProcess.Next, InSync, InFile, LooksUp;
  }

  lemma MomentIncreasing(moments: seq<Moment>, steps: seq<Step>, i: nat)
    requires Run(moments, steps) && i < |moments|
    ensures CompletedStore.Increasing(moments[i].ops)
  {
    hide AgentProcess.Inv, Next;
    RunInv(moments, steps, i);
  }

  // ---------------------------------------------------------------- second starts

  lemma CountersStep(m: Moment, m': Moment, step: Step, job: JobId)
    requires Next(m, m', step)
    ensures !IsCrash(step) && !IsForget(step, job) ==> m'.agent.live[job] >= m.agent.live[job]
    ensures !IsForget(step, job) && !(IsCrash(step) && InWindow(m, job)) ==>
              m'.agent.scripts[job] >= m.agent.scripts[job]
  {
    hide AgentProcess.Next, AgentProcess.Enabled, InSync, InFile, LooksUp, Records;
    if step.Happens? {
      AgentProcess.CountersStep(m.agent, step.event, job);
    }
  }

  /** The worker is between clearing the job's checkpoint and recording its result. */
  predicate InWindow(m: Moment, job: JobId) {
    AgentProcess.Unguarded(m.agent) && m.agent.phase.worker.cmd.job == job
  }

  lemma {:induction false} LiveKept(moments: seq<Moment>, steps: seq<Step>, job: JobId, i: nat, j: nat)
    requires Run(moments, steps) && i <= j < |moments|
    requires forall k :: i <= k < j ==> !IsCrash(steps[k]) && !IsForget(steps[k], job)
    ensures moments[j].agent.live[job] >= moments[i].agent.live[job]
  {
    hide Next, IsCrash, IsForget;
    if i < j {
      LiveKept(moments, steps, job, i, j - 1);
      CountersStep(moments[j - 1], moments[j], steps[j - 1], job);
    }
  }

  lemma {:induction false} ScriptsKept(moments: seq<Moment>, steps: seq<Step>, job: JobId, i: nat, j: nat)
    requires Run(moments, steps) && i <= j < |moments|
    requires forall k :: i <= k < j ==> !IsForget(steps[k], job) && !(IsCrash(steps[k]) && InWindow(moments[k], job))
    ensures moments[j].agent.scripts[job] >= moments[i].agent.scripts[job]
  {
    hide Next, IsCrash, IsForget, InWindow;
    if i < j {
      ScriptsKept(moments, steps, job, i, j - 1);
      CountersStep(moments[j - 1], moments[j], steps[j - 1], job);
    }
  }

  /** The handler of job starts at this step. */
  ghost predicate Starts(m: Moment, m': Moment, step: Step, job: JobId) {
    && step.Happens? && Next(m, m', step) && AgentProcess.Enabled(m.agent, step.event)
    && AgentProcess.Starts(m.agent, step.event, job)
  }

  /** The script of job is about to be launched: its checkpoint is written. */
  ghost predicate Launches(m: Moment, m': Moment, step: Step, job: JobId) {
    && step.Happens? && Next(m, m', step) && step.event == AgentProcess.WriteCheckpoint
    && m.agent.phase.Up? && m.agent.phase.worker.Preparing? && m.agent.phase.worker.cmd.job == job
  }

  lemma StartCounts(m: Moment, m': Moment, step: Step, job: JobId)
    requires Inv(m) && job != "" && (Starts(m, m', step, job) || Launches(m, m', step, job))
    ensures job !in m.agent.completed
    ensures Starts(m, m', step, job) ==> m'.agent.live[job] == m.agent.live[job] + 1
    ensures Launches(m, m', step, job) ==> m'.agent.scripts[job] == m.agent.scripts[job] + 1
  {
    hide InSync, InFile, LooksUp, Records, AgentProcess.MemoryInv, AgentProcess.JobInv;
  }

  lemma AtMostOne(moments: seq<Moment>, steps: seq<Step>, i: nat, job: JobId)
    requires Run(moments, steps) && i < |moments| && job != ""
    ensures moments[i].agent.live[job] <= 1 && moments[i].agent.scripts[job] <= 1
  {
    hide Next;
    RunInv(moments, steps, i);
    assert AgentProcess.JobInv(moments[i].agent, job);
  }

  /**
   Two starts of one job's handler: in between the process crashed, or the job's result was recorded and
   then outlived - a day passed, or 256 other jobs were recorded.
   */
  lemma SecondStart(moments: seq<Moment>, steps: seq<Step>, job: JobId, i: nat, j: nat)
    requires Run(moments, steps) && job != "" && i < j < |steps|
    requires Starts(moments[i], moments[i + 1], steps[i], job) && Starts(moments[j], moments[j + 1], steps[j], job)
    ensures exists k :: i < k < j && (IsCrash(steps[k]) || Outlived(moments, i, k, job))
  {
    hide Next, Inv, Starts, Launches, IsCrash, IsForget, Outlived;
    RunInv(moments, steps, i);
    StartCounts(moments[i], moments[i + 1], steps[i], job);
    RunInv(moments, steps, j);
    StartCounts(moments[j], moments[j + 1], steps[j], job);
    AtMostOne(moments, steps, j + 1, job);
    if forall k :: i < k < j ==> !IsCrash(steps[k]) && !IsForget(steps[k], job) {
      LiveKept(moments, steps, job, i + 1, j);
    } else {
      var k :| i < k < j && (IsCrash(steps[k]) || IsForget(steps[k], job));
      if IsForget(steps[k], job) {
        ForgottenIsOutlived(moments, steps, i, k, job);
      }
    }
  }

  /**
   Two launches of one job's script, crashes included: in between its result was recorded and outlived, or
   a crash fell between clearing its checkpoint and recording its result.
   */
  lemma SecondLaunch(moments: seq<Moment>, steps: seq<Step>, job: JobId, i: nat, j: nat)
    requires Run(moments, steps) && job != "" && i < j < |steps|
    requires Launches(moments[i], moments[i + 1], steps[i], job) && Launches(moments[j], moments[j + 1], steps[j], job)
    ensures exists k :: i < k < j && ((IsCrash(steps[k]) && InWindow(moments[k], job)) || Outlived(moments, i, k, job))
  {
    hide Next, Inv, Starts, Launches, IsCrash, IsForget, Outlived, InWindow;
    RunInv(moments, steps, i);
    StartCounts(moments[i], moments[i + 1], steps[i], job);
    RunInv(moments, steps, j);
    StartCounts(moments[j], moments[j + 1], steps[j], job);
    AtMostOne(moments, steps, j + 1, job);
    if forall k :: i < k < j ==> !IsForget(steps[k], job) && !(IsCrash(steps[k]) && InWindow(moments[k], job)) {
      ScriptsKept(moments, steps, job, i + 1, j);
    } else {
      var k :| i < k < j && (IsForget(steps[k], job) || (IsCrash(steps[k]) && InWindow(moments[k], job)));
      if IsForget(steps[k], job) {
        ForgottenIsOutlived(moments, steps, i, k, job);
      }
    }
  }

  // ---------------------------------------------------------------- file and memory

  /** A call never brings a dropped job back, except by recording it. */
  lemma FoundBefore(ops: seq<CompletedStore.Op>, op: CompletedStore.Op, job: JobId)
    requires CompletedStore.Increasing(ops + [op]) && job != "" && op.job != ""
    requires forall i :: 0 <= i < |ops| ==> ops[i].job != ""
    requires CompletedStore.Find(CompletedStore.Store(ops + [op]), job).Some? && !(op.Record? && op.job == job)
    ensures CompletedStore.Find(CompletedStore.Store(ops), job).Some?
  {
    hide CompletedStore.Store, CompletedStore.Find;
    var more := ops + [op];
    assert more[..|more| - 1] == ops && more[|more| - 1] == op;
    assert forall i :: 0 <= i < |ops| ==> ops[i] == more[i];
    CompletedStore.RememberedIff(more, job);
    CompletedStore.RememberedIff(ops, job);
    assert ops != [] ==> ops[|ops| - 1].at < op.at;
    FewerAreFewer(CompletedStore.LaterJobs(ops, job), CompletedStore.LaterJobs(more, job));
  }

  lemma FewerAreFewer(a: set<JobId>, b: set<JobId>)
    requires a <= b
    ensures |a| <= |b|
  {
    assert b == a + (b - a);
  }

  /** Every job the file holds is in memory, so memory in sync is memory equal to the file. */
  lemma {:induction false} FileIsInMemory(moments: seq<Moment>, steps: seq<Step>, i: nat, job: JobId)
    requires Run(moments, steps) && i < |moments| && job != "" && InFile(moments[i], job)
    ensures job in moments[i].agent.completed
  {
    hide Next, CompletedStore.Store, CompletedStore.Increasing;
    if i == 0 {
      EmptyFile(job);
    } else {
      var m, m' := moments[i - 1], moments[i];
      RunInv(moments, steps, i - 1);
      RunInv(moments, steps, i);
      FileStep(m, m', steps[i - 1], job);
      if InFile(m, job) {
        FileIsInMemory(moments, steps, i - 1, job);
      }
    }
  }

  lemma EmptyFile(job: JobId)
    ensures CompletedStore.Find(CompletedStore.Store([]), job).None?
  {
  }

  /** The file gains a job only with memory, and memory loses one only after the file. */
  lemma FileStep(m: Moment, m': Moment, step: Step, job: JobId)
    requires Inv(m) && Inv(m') && Next(m, m', step) && job != "" && InFile(m', job)
    ensures InFile(m, job) || job in m'.agent.completed
    ensures InFile(m, job) && job in m.agent.completed ==> job in m'.agent.completed
  {
    hide CompletedStore.Store, CompletedStore.Increasing, AgentProcess.Inv, InSync, LooksUp;
    if m'.ops != m.ops {
      var op := m'.ops[|m.ops|];
      assert m'.ops == m.ops + [op];
      if !(op.Record? && op.job == job) {
        FoundBefore(m.ops, op, job);
      }
    }
    if step.Happens? {
      AgentProcess.Frame(m.agent, step.event);
    }
  }
}
