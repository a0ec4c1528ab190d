/**
 The messages of the command-delivery protocol, shared by the server side (JobQueue) and the
 agent side (AgentProcess), and the counting of copies of one command in a list.
 */
module Commands {
  import opened Basics

  type JobId = string
  type AgentId = string

  /** What a handler is, as far as delivery is concerned. Network-mode pushes carry no job id
      and report outside the durable path; a file deploy is guarded by an on-disk checkpoint. */
  datatype Kind = Plain | FileDeploy | NetworkMode

  /** A command frame: the server dispatches it with the retry count current at claim time. */
  datatype Command = Command(job: JobId, agent: AgentId, attempt: nat, kind: Kind, expireAt: Option<int>)

  /** The terminal statuses an agent can report. */
  datatype Outcome = Success | Error | Expired

  datatype Report = Report(job: JobId, agent: AgentId, attempt: nat, outcome: Outcome)

  /** A command as the agent's dispatcher may legally meet it. */
  predicate WellFormed(c: Command) {
    c.kind.NetworkMode? ==> c.job == ""
  }

  function ReportOn(c: Command, outcome: Outcome): Report {
    Report(c.job, c.agent, c.attempt, outcome)
  }

  /** How many copies of (job, agent) the list holds, whatever their attempt. */
  function Count(s: seq<Command>, job: JobId, agent: AgentId): nat {
    if s == [] then 0
    else One(s[0].job == job && s[0].agent == agent) + Count(s[1..], job, agent)
  }

  lemma {:induction false} CountConcat(s: seq<Command>, t: seq<Command>, job: JobId, agent: AgentId)
    ensures Count(s + t, job, agent) == Count(s, job, agent) + Count(t, job, agent)
  {
    if s == [] {
      assert s + t == t;
    } else {
      assert (s + t)[1..] == s[1..] + t;
      CountConcat(s[1..], t, job, agent);
    }
  }

  lemma CountAppend(s: seq<Command>, c: Command, job: JobId, agent: AgentId)
    ensures Count(s + [c], job, agent) == Count(s, job, agent) + One(c.job == job && c.agent == agent)
  {
    CountConcat(s, [c], job, agent);
    assert Count([c], job, agent) == One(c.job == job && c.agent == agent) + Count([c][1..], job, agent);
  }

  lemma CountWithout(s: seq<Command>, i: nat, job: JobId, agent: AgentId)
    requires i < |s|
    ensures Count(s, job, agent) == Count(Without(s, i), job, agent) + One(s[i].job == job && s[i].agent == agent)
  {
    assert s == s[..i] + ([s[i]] + s[i + 1..]);
    CountConcat(s[..i], [s[i]] + s[i + 1..], job, agent);
    CountConcat([s[i]], s[i + 1..], job, agent);
    CountConcat(s[..i], s[i + 1..], job, agent);
    assert [s[i]][1..] == [];
    assert Count([s[i]], job, agent) == One(s[i].job == job && s[i].agent == agent);
  }

  lemma {:induction false} CountPositive(s: seq<Command>, job: JobId, agent: AgentId)
    ensures Count(s, job, agent) > 0 <==> exists c :: c in s && c.job == job && c.agent == agent
  {
    if s != [] {
      assert s == [s[0]] + s[1..];
      CountPositive(s[1..], job, agent);
      if Count(s, job, agent) > 0 {
        if s[0].job == job && s[0].agent == agent {
          assert s[0] in s;
        } else {
          var c :| c in s[1..] && c.job == job && c.agent == agent;
          assert c in s;
        }
      }
    }
  }
}
