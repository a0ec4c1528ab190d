/** The server's pass over an agent's processes, with its short-lived cache of flagged applications. */
module PolicyEngine {
  import opened Basics
  import opened Text
  import opened PolicyMatching

  const CACHE_TTL := 5

  datatype Process = Process(name: string, path: string)

  datatype Action = Action(process: Process, decision: Decision)

  /**
   The cache behind relevantApps. Reading the database and storing what was read are separate moments, and
   several callers may refresh at once and store in either order; each critical section is one method.
   database(t) is the database's content at time t, delay bounds the time from a read to its store.
   */
  class PolicyEngine {
    var cache: Option<map<string, App>>
    var cachedAt: int
    ghost var readAt: int

    ghost predicate Valid(database: int -> map<string, App>, delay: nat)
      reads this
    {
      cache.Some? ==> cache.value == database(readAt) && readAt <= cachedAt <= readAt + delay
    }

    constructor ()
      ensures cache == None
    {
      cache, cachedAt, readAt := None, 0, 0;
    }

    /** The section under the read lock. */
    method Cached(now: int) returns (apps: Option<map<string, App>>)
      ensures apps == if cache.Some? && now - cachedAt < CACHE_TTL then cache else None
    {
      if cache.Some? && now - cachedAt < CACHE_TTL {
        return cache;
      }
      return None;
    }

    /** The section under the write lock, for what was read at time read. */
    method Store(apps: map<string, App>, ghost read: int, now: int)
      modifies this
      ensures cache == Some(apps) && cachedAt == now && readAt == read
    {
      cache, cachedAt, readAt := Some(apps), now, read;
    }

    /** relevantApps, uninterrupted: what is returned was read less than the lifetime plus delay before
        the call, and after the call if the cache was stale. */
    method RelevantApps(database: int -> map<string, App>, ghost delay: nat, now: int, read: int, stored: int)
      returns (apps: map<string, App>, ghost at: int)
      requires Valid(database, delay) && now <= read <= stored <= read + delay
      modifies this
      ensures Valid(database, delay)
      ensures apps == database(at) && now - CACHE_TTL - delay < at
      ensures !(old(cache).Some? && now - old(cachedAt) < CACHE_TTL) ==>
                at == read && readAt == read && cachedAt == stored
      ensures old(cache).Some? && now - old(cachedAt) < CACHE_TTL ==>
                at == old(readAt) && cache == old(cache) && cachedAt == old(cachedAt)
    {
      var hit := Cached(now);
      if hit.Some? {
        return hit.value, readAt;
      }
      apps, at := database(read), read;
      Store(apps, read, stored);
    }
  }

  datatype Refresh = Refresh(read: int, stored: int)

  ghost predicate Timely(refreshes: seq<Refresh>, delay: nat) {
    forall i :: 0 <= i < |refreshes| ==> refreshes[i].read <= refreshes[i].stored <= refreshes[i].read + delay
  }

  /** However many refreshes store, in whatever order, a hit never returns content read longer ago than
      the lifetime plus the longest delay between a read and its store. */
  method StaleByAtMost(p: PolicyEngine, database: int -> map<string, App>, refreshes: seq<Refresh>, delay: nat,
                       now: int)
    returns (hit: Option<map<string, App>>)
    requires p.Valid(database, delay) && Timely(refreshes, delay)
    modifies p
    ensures p.Valid(database, delay)
    ensures hit.Some? ==> exists t :: now - CACHE_TTL - delay < t && hit.value == database(t)
  {
    for i := 0 to |refreshes|
      invariant p.Valid(database, delay)
    {
      p.Store(database(refreshes[i].read), refreshes[i].read, refreshes[i].stored);
    }
    hit := p.Cached(now);
    assert hit.Some? ==> hit.value == database(p.readAt) && now - CACHE_TTL - delay < p.readAt;
  }

  /** What the pass should act on: every process that is judged, and not to a plain log entry. */
  function Due(procs: seq<Process>, all: seq<Rule>, apps: map<string, App>, group: string, order: seq<Location>,
               windows: bool): seq<Action>
  {
    if procs == [] then []
    else
      var rest, p := Due(procs[..|procs| - 1], all, apps, group, order, windows), procs[|procs| - 1];
      var d := ServerDecision(all, apps, group, p.name, p.path, order, windows);
      if d.Some? && d.value.action != LOG then rest + [Action(p, d.value)] else rest
  }

  /** A process is acted on exactly when its decision is something other than a log entry. */
  lemma {:induction false} DueMeans(procs: seq<Process>, all: seq<Rule>, apps: map<string, App>, group: string,
                                    order: seq<Location>, windows: bool, p: Process, d: Decision)
    ensures Action(p, d) in Due(procs, all, apps, group, order, windows) <==>
      && p in procs && d.action != "log"
      && ServerDecision(all, apps, group, p.name, p.path, order, windows) == Some(d)
  {
    hide ServerDecision;
    if procs != [] {
      var n := |procs| - 1;
      DueMeans(procs[..n], all, apps, group, order, windows, p, d);
      assert procs == procs[..n] + [procs[n]];
    }
  }

  /** EvaluateProcesses, given the apps it loaded: the group is read at the first process that needs it. */
  method EvaluateProcesses(procs: seq<Process>, all: seq<Rule>, apps: map<string, App>, storedGroup: string,
                           order: seq<Location>, windows: bool) returns (acted: seq<Action>)
    ensures acted == Due(procs, all, apps, storedGroup, order, windows)
  {
    acted := [];
    var group, groupLoaded := "", false;
    for i := 0 to |procs|
      invariant acted == Due(procs[..i], all, apps, storedGroup, order, windows)
      invariant groupLoaded ==> group == storedGroup
    {
      var p := procs[i];
      assert procs[..i + 1][..i] == procs[..i];
      var loc := Classify(p.path, order);
      var key := Lower(p.name);
      if loc == "" && key !in apps {
        continue;
      }
      if !groupLoaded {
        group, groupLoaded := storedGroup, true;
      }
      var app := if key in apps then apps[key] else App("", None, "");
      var ctx := Context(group, "", app.categoryId, app.status, Extension(p.path, windows), loc);
      var d := Evaluate(EnabledOnly(all), ctx);
      if d.action == LOG {
        continue;
      }
      acted := acted + [Action(p, d)];
    }
    assert procs[..|procs|] == procs;
  }

  /** What the agent acts on, judging each process as it starts from its cached policy. */
  function DueLocally(procs: seq<Process>, cached: seq<Rule>, apps: map<string, App>, group: string,
                      order: seq<Location>): seq<Action>
  {
    if procs == [] then []
    else
      var rest, p := DueLocally(procs[..|procs| - 1], cached, apps, group, order), procs[|procs| - 1];
      var d := AgentDecision(cached, apps, group, p.name, p.path, order);
      if d.Some? && d.value.action != LOG then rest + [Action(p, d.value)] else rest
  }

  /** Agent and server act on the same processes, in the same way and order. */
  lemma {:induction false} AgentActsAlike(procs: seq<Process>, all: seq<Rule>, apps: map<string, App>, group: string,
                                          order: seq<Location>, other: seq<Location>, windows: bool)
    requires ScanOrder(order) && ScanOrder(other)
    requires forall j :: 0 <= j < |procs| ==>
      OneBucket(procs[j].path) && (windows || PlainExtensions(all) || '\\' !in Ext(procs[j].path, false))
    ensures DueLocally(procs, EnabledOnly(all), apps, group, other) == Due(procs, all, apps, group, order, windows)
  {
    hide Classify, Ext, AgentDecision, ServerDecision, OneBucket, PlainExtensions;
    if procs != [] {
      var p := procs[|procs| - 1];
      AgentActsAlike(procs[..|procs| - 1], all, apps, group, order, other, windows);
      AgentAgreesWithServer(all, apps, group, p.name, p.path, other, order, windows);
    }
  }
}
