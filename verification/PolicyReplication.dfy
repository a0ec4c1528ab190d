/**
 Policy replication to one agent: a write, its version bump, the reads behind a push, the push itself and
 the agent's two stores are separate events, so pushes may be stale, lost or reordered.
 */
module PolicyReplication {
  import opened Basics
  import opened Text
  import opened PolicyMatching

  datatype Policy = Policy(rules: seq<Rule>, apps: map<string, App>)

  const NO_POLICY := Policy([], map[])

  datatype Update = Update(version: nat, policy: Policy)

  /** A push being built: the version is read first, then the rules, then the apps. */
  datatype Push = Push(version: nat, rules: Option<seq<Rule>>, apps: Option<map<string, App>>)

  datatype State = State(
    policy: Policy, version: nat,
    unbumped: nat,              // requests that have written and not yet bumped
    pushes: seq<Push>,
    frames: seq<Update>,
    memory: Option<Update>,     // the agent's cache; None means version 0 and no rules
    saves: seq<Update>,         // stored in memory, not yet on disk
    disk: Option<Update>,
    seed: Policy                // what the database held before the first bump
  )

  datatype Event =
    | Write(policy: Policy)         // the first write of a request
    | WriteMore(policy: Policy)     // a further write of a request under way
    | Bump
    | ReadVersion
    | ReadRules(i: nat)
    | ReadApps(i: nat)
    | Deliver(i: nat)               // the push leaves the server
    | Lose(i: nat)
    | Receive(i: nat, apps: map<string, App>)   // in any order; the apps normalized
    | Save(i: nat)
    | Restart(apps: map<string, App>)           // a crash at any point, then initPolicyCache

  function CachedVersion(s: State): nat {
    if s.memory.Some? then s.memory.value.version else 0
  }

  function CachedPolicy(s: State): Policy {
    if s.memory.Some? then s.memory.value.policy else NO_POLICY
  }

  /** GetPolicyRelevantApps lowercases its keys. */
  ghost predicate LowerKeys(apps: map<string, App>) {
    forall k :: k in apps ==> Lower(k) == k
  }

  /** normalizeRelevantApps: keys lowercased; which of two colliding entries survives is left open. */
  ghost predicate Normalized(apps: map<string, App>, out: map<string, App>) {
    && (forall k :: k in apps ==> Lower(k) in out)
    && (forall l :: l in out ==> exists k :: k in apps && Lower(k) == l && out[l] == apps[k])
  }

  method NormalizeRelevantApps(apps: map<string, App>) returns (out: map<string, App>)
    ensures Normalized(apps, out)
  {
    out := map[];
    var todo := apps.Keys;
    while todo != {}
      invariant todo <= apps.Keys
      invariant forall k :: k in apps && k !in todo ==> Lower(k) in out
      invariant forall l :: l in out ==> exists k :: k in apps && Lower(k) == l && out[l] == apps[k]
      decreases |todo|
    {
      var k :| k in todo;
      out := out[Lower(k) := apps[k]];
      todo := todo - {k};
    }
  }

  /** What the server sends is normalized already. */
  lemma NormalizedLower(apps: map<string, App>, out: map<string, App>)
    requires LowerKeys(apps) && Normalized(apps, out)
    ensures out == apps
  {
    forall l | l in out
      ensures l in apps && out[l] == apps[l]
    {
      var k :| k in apps && Lower(k) == l && out[l] == apps[k];
      assert Lower(k) == k;
    }
    assert forall k :: k in apps ==> Lower(k) == k;
  }

  ghost predicate Enabled(s: State, e: Event) {
    match e
    case Write(p) => LowerKeys(p.apps)
    case WriteMore(p) => s.unbumped > 0 && LowerKeys(p.apps)
    case Bump => s.unbumped > 0
    case ReadVersion => s.version > 0
    case ReadRules(i) => i < |s.pushes| && s.pushes[i].rules.None? && s.pushes[i].apps.None?
    case ReadApps(i) => i < |s.pushes| && s.pushes[i].rules.Some?
    case Deliver(i) => i < |s.pushes| && s.pushes[i].rules.Some? && s.pushes[i].apps.Some?
    case Lose(i) => i < |s.frames|
    case Receive(i, apps) => i < |s.frames| && Normalized(s.frames[i].policy.apps, apps)
    case Save(i) => i < |s.saves|
    case Restart(apps) => s.disk.Some? ==> Normalized(s.disk.value.policy.apps, apps)
  }

  ghost function Next(s: State, e: Event): State
    requires Enabled(s, e)
  {
    match e
    case Write(p) => s.(policy := p, unbumped := s.unbumped + 1)
    case WriteMore(p) => s.(policy := p)
    case Bump => s.(version := s.version + 1, unbumped := s.unbumped - 1)
    case ReadVersion => s.(pushes := s.pushes + [Push(s.version, None, None)])
    case ReadRules(i) => s.(pushes := s.pushes[i := s.pushes[i].(rules := Some(s.policy.rules))])
    case ReadApps(i) => s.(pushes := s.pushes[i := s.pushes[i].(apps := Some(s.policy.apps))])
    case Deliver(i) =>
      var p := s.pushes[i];
      s.(pushes := Without(s.pushes, i), frames := s.frames + [Update(p.version, Policy(p.rules.value, p.apps.value))])
    case Lose(i) => s.(frames := Without(s.frames, i))
    case Receive(i, apps) =>
      var kept := s.frames[i].(policy := s.frames[i].policy.(apps := apps));
      s.(frames := Without(s.frames, i), memory := Some(kept), saves := s.saves + [kept])
    case Save(i) => s.(disk := Some(s.saves[i]), saves := Without(s.saves, i))
    case Restart(apps) =>
      s.(saves := [], memory := if s.disk.None? then None
                                else Some(s.disk.value.(policy := s.disk.value.policy.(apps := apps))))
  }

  predicate Init(s: State) {
    && s.version == 0 && s.unbumped == 0 && s.policy == s.seed
    && s.pushes == [] && s.frames == [] && s.memory == None && s.saves == [] && s.disk == None
  }

  // ---------------------------------------------------------------- the invariant

  /** A version and what was read after it: current unless something changed since. */
  ghost predicate Sound(s: State, version: nat, policy: Policy) {
    && 0 < version <= s.version && LowerKeys(policy.apps)
    && (version == s.version && s.unbumped == 0 ==> policy == s.policy)
  }

  ghost predicate SoundPush(s: State, p: Push) {
    && 0 < p.version <= s.version
    && (p.rules.Some? && p.version == s.version && s.unbumped == 0 ==> p.rules.value == s.policy.rules)
    && (p.apps.Some? ==> LowerKeys(p.apps.value))
    && (p.apps.Some? && p.version == s.version && s.unbumped == 0 ==> p.apps.value == s.policy.apps)
  }

  ghost predicate Inv(s: State) {
    && LowerKeys(s.policy.apps)
    && (s.version == 0 && s.unbumped == 0 ==> s.policy == s.seed)
    && (forall p :: p in s.pushes ==> SoundPush(s, p))
    && (forall u :: u in s.frames || u in s.saves ==> Sound(s, u.version, u.policy))
    && (s.memory.Some? ==> Sound(s, s.memory.value.version, s.memory.value.policy))
    && (s.disk.Some? ==> Sound(s, s.disk.value.version, s.disk.value.policy))
  }

  /** A write makes everything on its way stale until its bump; the bump makes it old. */
  lemma ServerStep(s: State, e: Event)
    requires Inv(s) && Enabled(s, e) && (e.Write? || e.WriteMore? || e.Bump? || e.ReadVersion?)
    ensures Inv(Next(s, e))
  {
  }

  lemma DeliverStep(s: State, i: nat)
    requires Inv(s) && Enabled(s, Deliver(i))
    ensures Inv(Next(s, Deliver(i)))
  {
    WithoutIn(s.pushes, i);
  }

  lemma ReceiveStep(s: State, i: nat, apps: map<string, App>)
    requires Inv(s) && Enabled(s, Receive(i, apps))
    ensures Inv(Next(s, Receive(i, apps)))
  {
    hide LowerKeys, Normalized;
    WithoutIn(s.frames, i);
    NormalizedLower(s.frames[i].policy.apps, apps);
  }

  lemma RestartStep(s: State, apps: map<string, App>)
    requires Inv(s) && Enabled(s, Restart(apps))
    ensures Inv(Next(s, Restart(apps)))
  {
    hide LowerKeys, Normalized;
    if s.disk.Some? {
      NormalizedLower(s.disk.value.policy.apps, apps);
    }
  }

  lemma DropStep(s: State, e: Event)
    requires Inv(s) && Enabled(s, e) && (e.Lose? || e.Save?)
    ensures Inv(Next(s, e))
  {
    hide LowerKeys;
    WithoutIn(if e.Lose? then s.frames else s.saves, e.i);
  }

  lemma InvStep(s: State, e: Event)
    requires Inv(s) && Enabled(s, e)
    ensures Inv(Next(s, e))
  {
    hide Inv;
    match e {
      case Deliver(i) => DeliverStep(s, i);
      case Lose(_) => DropStep(s, e);
      case Save(_) => DropStep(s, e);
      case Receive(i, apps) => ReceiveStep(s, i, apps);
      case Restart(apps) => RestartStep(s, apps);
      case ReadRules(i) => ReadStep(s, i, s.pushes[i].(rules := Some(s.policy.rules)));
      case ReadApps(i) => ReadStep(s, i, s.pushes[i].(apps := Some(s.policy.apps)));
      case _ => ServerStep(s, e);
    }
  }

  lemma ReadStep(s: State, i: nat, p: Push)
    requires Inv(s) && i < |s.pushes|
    requires p == s.pushes[i].(rules := Some(s.policy.rules)) || p == s.pushes[i].(apps := Some(s.policy.apps))
    ensures Inv(s.(pushes := s.pushes[i := p]))
  {
    var t := s.(pushes := s.pushes[i := p]);
    assert SoundPush(s, s.pushes[i]);
    assert SoundPush(t, p);
    forall q | q in t.pushes
      ensures SoundPush(t, q)
    {
      assert q == p || q in s.pushes;
    }
  }

  ghost predicate Run(states: seq<State>, events: seq<Event>) {
    && |states| == |events| + 1
    && Init(states[0]) && LowerKeys(states[0].seed.apps)
    && forall i :: 0 <= i < |events| ==> Enabled(states[i], events[i]) && states[i + 1] == Next(states[i], events[i])
  }

  lemma {:induction false} RunInv(states: seq<State>, events: seq<Event>, i: nat)
    requires Run(states, events) && i < |states|
    ensures Inv(states[i])
  {
    if i > 0 {
      RunInv(states, events, i - 1);
      InvStep(states[i - 1], events[i - 1]);
    }
  }

  /** The policy is in place: same version, and no write still waiting for its bump. */
  predicate UpToDate(s: State) {
    CachedVersion(s) == s.version && s.unbumped == 0
  }

  /**
   An agent at the server's version holds exactly the server's rules and apps, in every interleaving -
   once the version has ever been bumped. Before the first bump it does so exactly when the database
   started empty.
   */
  lemma SameVersionSamePolicy(states: seq<State>, events: seq<Event>, i: nat)
    requires Run(states, events) && i < |states| && UpToDate(states[i])
    ensures CachedPolicy(states[i]) == states[i].policy <==> states[i].version > 0 || states[i].seed == NO_POLICY
  {
    RunInv(states, events, i);
  }

  /** handlePolicyVersionCheck replies to a reported version exactly when the server's is newer. */
  predicate RepliesTo(s: State, reported: nat) {
    reported < s.version
  }

  /** A cache is never ahead of the server, and once the version has been bumped every cache that differs
      from a settled policy is one the version check repairs. */
  lemma DriftIsDetected(states: seq<State>, events: seq<Event>, i: nat)
    requires Run(states, events) && i < |states|
    ensures CachedVersion(states[i]) <= states[i].version
    ensures states[i].unbumped == 0 && states[i].version > 0 && CachedPolicy(states[i]) != states[i].policy
            ==> RepliesTo(states[i], CachedVersion(states[i]))
    ensures CachedVersion(states[i]) == states[i].version ==> !RepliesTo(states[i], CachedVersion(states[i]))
  {
    RunInv(states, events, i);
  }

  lemma LowerNormalized(apps: map<string, App>)
    requires LowerKeys(apps)
    ensures Normalized(apps, apps)
  {
    forall k | k in apps
      ensures Lower(k) in apps && Lower(k) == k
    {
    }
  }

  /** The state after the reply to a version check was built, with nothing in between. */
  function Replied(s: State): State {
    s.(frames := s.frames + [Update(s.version, s.policy)])
  }

  /** Building a reply: the version, then the rules, then the apps, then the frame. */
  lemma ReplyIsBuilt(s: State)
    requires s.version > 0
    ensures var n := |s.pushes|;
      && Enabled(s, ReadVersion) && Enabled(Next(s, ReadVersion), ReadRules(n))
      && var s2 := Next(Next(s, ReadVersion), ReadRules(n));
      && Enabled(s2, ReadApps(n)) && Enabled(Next(s2, ReadApps(n)), Deliver(n))
      && Next(Next(s2, ReadApps(n)), Deliver(n)) == Replied(s)
  {
    var n := |s.pushes|;
    var s1 := Next(s, ReadVersion);
    var s2 := Next(s1, ReadRules(n));
    assert s2.pushes == s.pushes + [Push(s.version, Some(s.policy.rules), None)];
    var s3 := Next(s2, ReadApps(n));
    assert s3.pushes == s.pushes + [Push(s.version, Some(s.policy.rules), Some(s.policy.apps))];
    assert Without(s3.pushes, n) == s.pushes;
  }

  /** Once such a reply arrives, the agent has the server's version and policy, in memory and, after the
      save, across a restart. */
  lemma ReplyRepairs(s: State)
    requires s.version > 0 && LowerKeys(s.policy.apps) && s.unbumped == 0
    ensures var t, i := Replied(s), |s.frames|;
      && Enabled(t, Receive(i, s.policy.apps))
      && var u := Next(t, Receive(i, s.policy.apps));
      && UpToDate(u) && CachedPolicy(u) == s.policy && u.policy == s.policy && u.version == s.version
      && Enabled(u, Save(|s.saves|))
      && var v := Next(u, Save(|s.saves|));
      && Enabled(v, Restart(s.policy.apps))
      && UpToDate(Next(v, Restart(s.policy.apps))) && CachedPolicy(Next(v, Restart(s.policy.apps))) == s.policy
  {
    LowerNormalized(s.policy.apps);
    hide Normalized, LowerKeys;
    var t, i := Replied(s), |s.frames|;
    assert t.frames[i] == Update(s.version, s.policy);
    var u := Next(t, Receive(i, s.policy.apps));
    assert u.saves[|s.saves|] == Update(s.version, s.policy);
  }

  /** Until the first bump nothing leaves the server and no cache holds anything, in every run. */
  lemma NothingBeforeTheFirstBump(states: seq<State>, events: seq<Event>, i: nat)
    requires Run(states, events) && i < |states| && states[i].version == 0
    ensures states[i].pushes == [] && states[i].frames == [] && states[i].saves == []
    ensures states[i].memory == None && states[i].disk == None
  {
    var s := states[i];
    RunInv(states, events, i);
    assert s.pushes != [] ==> !SoundPush(s, s.pushes[0]);
    assert s.frames != [] ==> !Sound(s, s.frames[0].version, s.frames[0].policy);
    assert s.saves != [] ==> !Sound(s, s.saves[0].version, s.saves[0].policy);
  }

  /** So rules that were in the database from the start can stay there with nobody told to ask. */
  lemma SeedIsNotPushed(seed: Policy) returns (s: State)
    requires LowerKeys(seed.apps) && seed != NO_POLICY
    ensures Run([s], []) && s.seed == seed && UpToDate(s)
    ensures CachedPolicy(s) != s.policy && !RepliesTo(s, CachedVersion(s))
  {
    s := State(seed, 0, 0, [], [], None, [], None, seed);
  }
}
