/** A run that launches one script twice: the crash falls into the window that deployFile leaves open. */
module ScriptWindow {
  import opened Basics
  import opened Commands
  import opened AgentProcess

  /** The events can be taken one after the other. */
  predicate Takes(a: Agent, events: seq<Event>)
    decreases |events|
  {
    events == [] || (Enabled(a, events[0]) && Takes(Next(a, events[0]), events[1..]))
  }

  function After(a: Agent, events: seq<Event>): Agent
    requires Takes(a, events)
    decreases |events|
  {
    if events == [] then a else After(Next(a, events[0]), events[1..])
  }

  lemma {:induction false} TakesConcat(a: Agent, x: seq<Event>, y: seq<Event>)
    requires Takes(a, x) && Takes(After(a, x), y)
    ensures Takes(a, x + y) && After(a, x + y) == After(After(a, x), y)
    decreases |x|
  {
    hide Next, Enabled;
    if x == [] {
      assert x + y == y;
    } else {
      assert (x + y)[1..] == x[1..] + y;
      TakesConcat(Next(a, x[0]), x[1..], y);
    }
  }

  lemma TakesOne(a: Agent, e: Event, rest: seq<Event>)
    requires Enabled(a, e) && Takes(Next(a, e), rest)
    ensures Takes(a, [e] + rest) && After(a, [e] + rest) == After(Next(a, e), rest)
  {
    assert ([e] + rest)[1..] == rest;
  }

  /** Such a list of events is a run. */
  lemma {:induction false} TakesIsPath(a: Agent, events: seq<Event>) returns (states: seq<Agent>)
    requires Takes(a, events)
    ensures |states| == |events| + 1 && states[0] == a
    ensures forall i :: 0 <= i < |events| ==>
              Enabled(states[i], events[i]) && states[i + 1] == Next(states[i], events[i])
    ensures forall i :: 0 <= i <= |events| ==> Takes(a, events[..i]) && states[i] == After(a, events[..i])
    decreases |events|
  {
    hide Next, Enabled;
    if events == [] {
      states := [a];
    } else {
      var e := events[0];
      var rest := TakesIsPath(Next(a, e), events[1..]);
      states := [a] + rest;
      forall i | 0 < i <= |events|
        ensures Takes(a, events[..i]) && states[i] == After(a, events[..i])
      {
        TakesOne(a, e, events[1..][..i - 1]);
        assert events[..i] == [e] + events[1..][..i - 1];
      }
    }
  }

  // ---------------------------------------------------------------- the pieces of the run

  const BOOT := [Start, InferOutcome(Error)]

  function Launch(c: Command): seq<Event> { [Receive(c), ClaimSlot(0), Enqueue(0), Pop, Recheck(0), WriteCheckpoint] }

  /** The script ends, its checkpoint is cleared, and the process dies before its result is stored. */
  const DIE := [LaunchScript, Finish(Success), Crash]

  predicate Stopped(a: Agent) { a.phase == Down && MemoryEmpty(a) && a.checkpoint == None }

  predicate AtRest(a: Agent) { a.phase == Up(Idle) && MemoryEmpty(a) && a.checkpoint == None }

  lemma BootRuns(a: Agent)
    requires Stopped(a)
    ensures Takes(a, BOOT) && AtRest(After(a, BOOT))
    ensures After(a, BOOT).completed == a.completed && After(a, BOOT).id == a.id
  {
    var b := Next(a, Start);
    TakesOne(b, InferOutcome(Error), []);
    TakesOne(a, Start, [InferOutcome(Error)]);
    assert BOOT == [Start] + [InferOutcome(Error)];
  }

  predicate Deploys(a: Agent, c: Command) {
    c.agent == a.id && c.job != "" && c.kind.FileDeploy? && c.expireAt.None? && c.job !in a.completed
  }

  /** The state with the command in the queue. */
  function Queued(a: Agent, c: Command): Agent { a.(queue := [c], active := {c.job}) }

  lemma SubmitRuns(a: Agent, c: Command)
    requires AtRest(a) && Deploys(a, c)
    ensures Takes(a, [Receive(c), ClaimSlot(0), Enqueue(0)])
    ensures After(a, [Receive(c), ClaimSlot(0), Enqueue(0)]) == Queued(a, c)
  {
    var b := a.(checking := [c]);
    assert Next(a, Receive(c)) == b;
    var d := a.(claimed := [c], active := {c.job});
    assert Next(b, ClaimSlot(0)) == d by {
      assert Without(b.checking, 0) == [];
    }
    assert Next(d, Enqueue(0)) == Queued(a, c) by {
      assert Without(d.claimed, 0) == [];
    }
    hide Next, Enabled;
    TakesOne(d, Enqueue(0), []);
    TakesOne(b, ClaimSlot(0), [Enqueue(0)]);
    TakesOne(a, Receive(c), [ClaimSlot(0), Enqueue(0)]);
  }

  function WithCheckpoint(a: Agent, c: Command): Agent {
    a.(checkpoint := Some(c), phase := Up(Armed(c)), active := {c.job}, scripts := a.scripts + multiset{c.job})
  }

  lemma ArmRuns(a: Agent, c: Command)
    requires AtRest(a) && Deploys(a, c)
    ensures Takes(Queued(a, c), [Pop, Recheck(0), WriteCheckpoint])
    ensures After(Queued(a, c), [Pop, Recheck(0), WriteCheckpoint]) == WithCheckpoint(a, c)
  {
    var q := Queued(a, c);
    var b := q.(queue := [], phase := Up(Popped(c)));
    var d := b.(phase := Up(Preparing(c)));
    assert Next(q, Pop) == b;
    assert Next(b, Recheck(0)) == d;
    assert Next(d, WriteCheckpoint) == WithCheckpoint(a, c);
    hide Next, Enabled;
    TakesOne(d, WriteCheckpoint, []);
    TakesOne(b, Recheck(0), [WriteCheckpoint]);
    TakesOne(q, Pop, [Recheck(0), WriteCheckpoint]);
    assert [Pop] + [Recheck(0), WriteCheckpoint] == [Pop, Recheck(0), WriteCheckpoint];
    assert [Recheck(0)] + [WriteCheckpoint] == [Recheck(0), WriteCheckpoint];
  }

  lemma LaunchRuns(a: Agent, c: Command)
    requires AtRest(a) && Deploys(a, c)
    ensures Takes(a, Launch(c)) && After(a, Launch(c)) == WithCheckpoint(a, c)
  {
    hide Next, Enabled, Takes, After;
    SubmitRuns(a, c);
    ArmRuns(a, c);
    TakesConcat(a, [Receive(c), ClaimSlot(0), Enqueue(0)], [Pop, Recheck(0), WriteCheckpoint]);
    assert Launch(c) == [Receive(c), ClaimSlot(0), Enqueue(0)] + [Pop, Recheck(0), WriteCheckpoint];
  }

  lemma DieStates(a: Agent, c: Command)
    requires AtRest(a) && Deploys(a, c)
    ensures var w := WithCheckpoint(a, c);
      var b := Begin(w, c);
      var d := b.(checkpoint := None, phase := Up(Ended(c, ReportOn(c, Success))));
      && Enabled(w, LaunchScript) && Next(w, LaunchScript) == b
      && Enabled(b, Finish(Success)) && Next(b, Finish(Success)) == d
      && Enabled(d, Crash)
  {
  }

  lemma CrashStops(d: Agent)
    requires Enabled(d, Crash) && d.checkpoint == None
    ensures var z := Next(d, Crash); Stopped(z) && z.completed == d.completed && z.id == d.id
  {
  }

  lemma DieRuns(a: Agent, c: Command)
    requires AtRest(a) && Deploys(a, c)
    ensures Takes(WithCheckpoint(a, c), DIE) && Stopped(After(WithCheckpoint(a, c), DIE))
    ensures After(WithCheckpoint(a, c), DIE).completed == a.completed && After(WithCheckpoint(a, c), DIE).id == a.id
  {
    hide Next, Enabled;
    var b := Begin(WithCheckpoint(a, c), c);
    var d := b.(checkpoint := None, phase := Up(Ended(c, ReportOn(c, Success))));
    DieStates(a, c);
    CrashStops(d);
    TakesOne(d, Crash, []);
    TakesOne(b, Finish(Success), [Crash]);
    TakesOne(WithCheckpoint(a, c), LaunchScript, [Finish(Success), Crash]);
    assert [LaunchScript] + [Finish(Success), Crash] == DIE && [Finish(Success)] + [Crash] == [Finish(Success), Crash];
  }

  /** Boot, launch and die, from any stopped agent that has not completed the job. */
  lemma OnceRuns(a: Agent, c: Command)
    requires Stopped(a) && Deploys(a, c)
    ensures Takes(a, BOOT + Launch(c)) && After(a, BOOT + Launch(c)).phase == Up(Armed(c))
    ensures Takes(a, BOOT + Launch(c) + DIE)
    ensures var z := After(a, BOOT + Launch(c) + DIE); Stopped(z) && Deploys(z, c)
  {
    hide Next, Enabled, Takes, After, Launch;
    BootRuns(a);
    var b := After(a, BOOT);
    LaunchRuns(b, c);
    TakesConcat(a, BOOT, Launch(c));
    DieRuns(b, c);
    TakesConcat(a, BOOT + Launch(c), DIE);
  }

  function TwiceEvents(c: Command): seq<Event> { BOOT + Launch(c) + DIE + (BOOT + Launch(c)) }

  lemma TwiceRuns(a: Agent, c: Command)
    requires Stopped(a) && Deploys(a, c)
    ensures Takes(a, TwiceEvents(c)) && After(a, TwiceEvents(c)).phase == Up(Armed(c))
    ensures Takes(a, BOOT + Launch(c)) && After(a, BOOT + Launch(c)).phase == Up(Armed(c))
  {
    hide Next, Enabled, Takes, After, Launch;
    OnceRuns(a, c);
    OnceRuns(After(a, BOOT + Launch(c) + DIE), c);
    TakesConcat(a, BOOT + Launch(c) + DIE, BOOT + Launch(c));
  }

  /** The launch at these places of the run. */
  predicate LaunchesAt(states: seq<Agent>, events: seq<Event>, i: nat, job: JobId) {
    && i < |events| && i < |states| && events[i] == WriteCheckpoint
    && states[i].phase.Up? && states[i].phase.worker.Preparing? && states[i].phase.worker.cmd.job == job
  }

  /** Nothing was forgotten, and the script is launched twice: the window is real. */
  lemma LaunchedTwice(a: Agent, c: Command) returns (states: seq<Agent>, events: seq<Event>)
    requires Init(a) && Deploys(a, c)
    ensures Run(states, events) && states[0] == a
    ensures LaunchesAt(states, events, 7, c.job) && LaunchesAt(states, events, 18, c.job)
    ensures forall k :: 0 <= k < |events| ==> !events[k].Forget?
  {
    hide Next, Enabled, Takes, After;
    events := TwiceEvents(c);
    TwiceRuns(a, c);
    states := TakesIsPath(a, events);
    assert events[..8] == BOOT + Launch(c) && events[..19] == events;
    ArmedFrom(states[7], c);
    ArmedFrom(states[18], c);
  }

  lemma ArmedFrom(a: Agent, c: Command)
    requires Enabled(a, WriteCheckpoint) && Next(a, WriteCheckpoint).phase == Up(Armed(c))
    ensures a.phase == Up(Preparing(c))
  {
  }
}
