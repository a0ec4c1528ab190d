/**
 The policy matcher that server and agent share, and the decision each of them takes for a process.
 */
module PolicyMatching {
  import opened Basics
  import opened Text

  datatype Rule = Rule(
    id: int, eventType: string, categoryId: Option<int>, appStatus: string, fileExtension: string,
    executionLocation: string, deviceGroup: string, action: string, enabled: bool)

  datatype Context = Context(
    deviceGroup: string, eventType: string, categoryId: Option<int>, appStatus: string,
    fileExtension: string, executionLocation: string)

  datatype Decision = Decision(action: string, rule: Option<Rule>)

  datatype App = App(status: string, categoryId: Option<int>, company: string)

  const LOG := "log"

  // ---------------------------------------------------------------- matching

  /** How specific a rule is for a context, or that it does not apply. */
  function MatchScore(r: Rule, ctx: Context): Option<nat> {
    if r.eventType != "" && r.eventType != ctx.eventType then None
    else if r.categoryId.Some? && (ctx.categoryId.None? || r.categoryId.value != ctx.categoryId.value) then None
    else if r.appStatus != "" && r.appStatus != ctx.appStatus then None
    else if r.fileExtension != "" && !EqualFold(r.fileExtension, ctx.fileExtension) then None
    else if r.executionLocation != "" && !EqualFold(r.executionLocation, ctx.executionLocation) then None
    else if r.deviceGroup != "" && !EqualFold(r.deviceGroup, ctx.deviceGroup) then None
    else Some(One(r.eventType != "") + One(r.categoryId.Some?) + One(r.appStatus != "") + One(r.fileExtension != "")
              + One(r.executionLocation != "") + One(r.deviceGroup != ""))
  }

  // ---------------------------------------------------------------- what a match is, dimension by dimension

  datatype Dimension = EventType | Category | AppStatus | FileExtension | ExecutionLocation | DeviceGroup

  datatype Value = Text(text: string) | Number(number: int)

  const ALL_DIMENSIONS := [EventType, Category, AppStatus, FileExtension, ExecutionLocation, DeviceGroup]

  function TextOf(s: string): Option<Value> { if s == "" then None else Some(Text(s)) }

  function NumberOf(n: Option<int>): Option<Value> { if n.None? then None else Some(Number(n.value)) }

  /** What a rule asks of a dimension; an empty field asks nothing. */
  function Asked(r: Rule, d: Dimension): Option<Value> {
    match d
    case EventType => TextOf(r.eventType)
    case Category => NumberOf(r.categoryId)
    case AppStatus => TextOf(r.appStatus)
    case FileExtension => TextOf(r.fileExtension)
    case ExecutionLocation => TextOf(r.executionLocation)
    case DeviceGroup => TextOf(r.deviceGroup)
  }

  /** What a context offers in it. */
  function Offered(ctx: Context, d: Dimension): Option<Value> {
    match d
    case EventType => TextOf(ctx.eventType)
    case Category => NumberOf(ctx.categoryId)
    case AppStatus => TextOf(ctx.appStatus)
    case FileExtension => TextOf(ctx.fileExtension)
    case ExecutionLocation => TextOf(ctx.executionLocation)
    case DeviceGroup => TextOf(ctx.deviceGroup)
  }

  /** Extension, location and group are compared without regard to case. */
  predicate SameIn(d: Dimension, a: Value, b: Value) {
    if d.FileExtension? || d.ExecutionLocation? || d.DeviceGroup?
    then a.Text? && b.Text? && EqualFold(a.text, b.text)
    else a == b
  }

  predicate AgreesIn(r: Rule, ctx: Context, d: Dimension) {
    Asked(r, d).Some? ==> Offered(ctx, d).Some? && SameIn(d, Asked(r, d).value, Offered(ctx, d).value)
  }

  /** A rule applies when it agrees with the context in every dimension it asks about. */
  ghost predicate Applies(r: Rule, ctx: Context) {
    forall d: Dimension :: AgreesIn(r, ctx, d)
  }

  function AskedAmong(r: Rule, ds: seq<Dimension>): nat {
    if ds == [] then 0 else One(Asked(r, ds[0]).Some?) + AskedAmong(r, ds[1..])
  }

  /** In how many dimensions a rule asks something. */
  function Breadth(r: Rule): nat { AskedAmong(r, ALL_DIMENSIONS) }

  /** The decision promised: the applicable rule that asks most, the oldest among equals, or the default. */
  ghost predicate Chosen(rules: seq<Rule>, ctx: Context, d: Decision) {
    && (d.rule.None? <==> forall r :: r in rules ==> !Applies(r, ctx))
    && (d.rule.None? ==> d.action == "log")
    && (d.rule.Some? ==>
          && d.rule.value in rules && Applies(d.rule.value, ctx) && d.action == d.rule.value.action
          && forall r :: r in rules && Applies(r, ctx) ==>
               Breadth(r) < Breadth(d.rule.value) || (Breadth(r) == Breadth(d.rule.value) && d.rule.value.id <= r.id))
  }

  lemma AppliesMeans(r: Rule, ctx: Context)
    ensures Applies(r, ctx) <==>
      && AgreesIn(r, ctx, EventType) && AgreesIn(r, ctx, Category) && AgreesIn(r, ctx, AppStatus)
      && AgreesIn(r, ctx, FileExtension) && AgreesIn(r, ctx, ExecutionLocation) && AgreesIn(r, ctx, DeviceGroup)
  {
    forall d: Dimension
      ensures d in ALL_DIMENSIONS
    {
      match d
      case EventType => assert ALL_DIMENSIONS[0] == d;
      case Category => assert ALL_DIMENSIONS[1] == d;
      case AppStatus => assert ALL_DIMENSIONS[2] == d;
      case FileExtension => assert ALL_DIMENSIONS[3] == d;
      case ExecutionLocation => assert ALL_DIMENSIONS[4] == d;
      case DeviceGroup => assert ALL_DIMENSIONS[5] == d;
    }
  }

  lemma BreadthMeans(r: Rule)
    ensures Breadth(r) == One(r.eventType != "") + One(r.categoryId.Some?) + One(r.appStatus != "")
                          + One(r.fileExtension != "") + One(r.executionLocation != "") + One(r.deviceGroup != "")
  {
    var ds := ALL_DIMENSIONS;
    forall i | 0 <= i < 6
      ensures AskedAmong(r, ds[i..]) == One(Asked(r, ds[i]).Some?) + AskedAmong(r, ds[i + 1..])
    {
      assert ds[i..][0] == ds[i] && ds[i..][1..] == ds[i + 1..];
    }
    assert ds[0..] == ds && ds[6..] == [];
    assert AskedAmong(r, ds[5..]) == One(r.deviceGroup != "");
    assert AskedAmong(r, ds[4..]) == One(r.executionLocation != "") + AskedAmong(r, ds[5..]);
    assert AskedAmong(r, ds[3..]) == One(r.fileExtension != "") + AskedAmong(r, ds[4..]);
    assert AskedAmong(r, ds[2..]) == One(r.appStatus != "") + AskedAmong(r, ds[3..]);
    assert AskedAmong(r, ds[1..]) == One(r.categoryId.Some?) + AskedAmong(r, ds[2..]);
  }

  /** The score is the promised match: there is one exactly when the rule applies, and it is its breadth. */
  lemma ScoreMeans(r: Rule, ctx: Context)
    ensures MatchScore(r, ctx).Some? <==> Applies(r, ctx)
    ensures Applies(r, ctx) ==> MatchScore(r, ctx).value == Breadth(r)
  {
    hide Applies, Breadth;
    AppliesMeans(r, ctx);
    BreadthMeans(r);
  }

  lemma DecidesIsChosen(rules: seq<Rule>, ctx: Context, d: Decision)
    requires Decides(rules, ctx, d)
    ensures Chosen(rules, ctx, d)
  {
    hide Applies, Breadth, MatchScore;
    forall r
      ensures MatchScore(r, ctx).Some? <==> Applies(r, ctx)
      ensures Applies(r, ctx) ==> MatchScore(r, ctx).value == Breadth(r)
    {
      ScoreMeans(r, ctx);
    }
  }

  // ---------------------------------------------------------------- choosing

  /** The rule that wins: it matches, no match is more specific, and among equals none is older. */
  ghost predicate Wins(rules: seq<Rule>, ctx: Context, w: Rule) {
    && w in rules && MatchScore(w, ctx).Some?
    && forall r :: r in rules && MatchScore(r, ctx).Some? ==>
         || MatchScore(r, ctx).value < MatchScore(w, ctx).value
         || (MatchScore(r, ctx).value == MatchScore(w, ctx).value && w.id <= r.id)
  }

  /** The decision the rules promise for a context. */
  ghost predicate Decides(rules: seq<Rule>, ctx: Context, d: Decision) {
    if d.rule.Some? then Wins(rules, ctx, d.rule.value) && d.action == d.rule.value.action
    else d.action == LOG && forall r :: r in rules ==> MatchScore(r, ctx).None?
  }

  /** The scan, as a function of the rules seen so far. */
  function Best(rules: seq<Rule>, ctx: Context): Option<Rule> {
    if rules == [] then None
    else
      var best, r := Best(rules[..|rules| - 1], ctx), rules[|rules| - 1];
      if Replaces(r, best, ctx) then Some(r) else best
  }

  predicate Replaces(r: Rule, best: Option<Rule>, ctx: Context) {
    && MatchScore(r, ctx).Some?
    && (best.None? || MatchScore(best.value, ctx).None?
        || MatchScore(r, ctx).value > MatchScore(best.value, ctx).value
        || (MatchScore(r, ctx).value == MatchScore(best.value, ctx).value && r.id < best.value.id))
  }

  method Evaluate(rules: seq<Rule>, ctx: Context) returns (d: Decision)
    ensures Chosen(rules, ctx, d)
    ensures Decides(rules, ctx, d)
    ensures d == DecisionOf(Best(rules, ctx))
  {
    hide Chosen;
    var best: Option<Rule> := None;
    var bestScore: int := -1;
    for i := 0 to |rules|
      invariant best == Best(rules[..i], ctx)
      invariant best.None? ==> bestScore == -1 && forall r :: r in rules[..i] ==> MatchScore(r, ctx).None?
      invariant best.Some? ==> Wins(rules[..i], ctx, best.value) && bestScore == MatchScore(best.value, ctx).value
    {
      var r := rules[i];
      assert rules[..i + 1] == rules[..i] + [r];
      assert rules[..i + 1][..i] == rules[..i];
      var score := MatchScore(r, ctx);
      if score.Some? {
        if score.value > bestScore || (score.value == bestScore && best.Some? && r.id < best.value.id) {
          best, bestScore := Some(r), score.value;
        }
      }
    }
    assert rules[..|rules|] == rules;
    d := DecisionOf(best);
    DecidesIsChosen(rules, ctx, d);
  }

  function DecisionOf(best: Option<Rule>): Decision {
    if best.None? then Decision(LOG, None) else Decision(best.value.action, best)
  }

  /** The scan takes the promised decision on every rule list. */
  lemma BestIsChosen(rules: seq<Rule>, ctx: Context)
    ensures Chosen(rules, ctx, DecisionOf(Best(rules, ctx)))
  {
    BestDecides(rules, ctx);
    DecidesIsChosen(rules, ctx, DecisionOf(Best(rules, ctx)));
  }

  lemma {:induction false} BestDecides(rules: seq<Rule>, ctx: Context)
    ensures Decides(rules, ctx, DecisionOf(Best(rules, ctx)))
  {
    if rules != [] {
      var before, r := rules[..|rules| - 1], rules[|rules| - 1];
      BestDecides(before, ctx);
      assert rules == before + [r];
    }
  }

  ghost predicate UniqueIds(rules: seq<Rule>) {
    forall r, q :: r in rules && q in rules && r.id == q.id ==> r == q
  }

  /** With unique ids the decision depends on which rules there are, not on their order. */
  lemma OrderIndependent(rules: seq<Rule>, others: seq<Rule>, ctx: Context, d: Decision, e: Decision)
    requires UniqueIds(rules) && forall r :: r in rules <==> r in others
    requires Decides(rules, ctx, d) && Decides(others, ctx, e)
    ensures d == e
  {
    if d.rule.Some? && e.rule.Some? {
      var w, v := d.rule.value, e.rule.value;
      assert w in others && v in rules;
    }
  }

  /** Contexts that every rule scores alike get the same decision. */
  lemma {:induction false} SameScoresSameBest(rules: seq<Rule>, ctx: Context, other: Context)
    requires forall r :: r in rules ==> MatchScore(r, ctx) == MatchScore(r, other)
    ensures Best(rules, ctx) == Best(rules, other)
    ensures Best(rules, ctx).Some? ==> Best(rules, ctx).value in rules
  {
    if rules != [] {
      var before, r := rules[..|rules| - 1], rules[|rules| - 1];
      assert rules == before + [r];
      SameScoresSameBest(before, ctx, other);
    }
  }

  // ---------------------------------------------------------------- enabled rules

  function EnabledOnly(rules: seq<Rule>): seq<Rule> {
    if rules == [] then []
    else if rules[0].enabled then [rules[0]] + EnabledOnly(rules[1..])
    else EnabledOnly(rules[1..])
  }

  /** Exactly the enabled rules are kept. */
  lemma {:induction false} EnabledMeans(rules: seq<Rule>)
    ensures forall r :: r in EnabledOnly(rules) <==> r in rules && r.enabled
  {
    if rules != [] {
      EnabledMeans(rules[1..]);
      assert rules == [rules[0]] + rules[1..];
    }
  }

  /** Filtering what was already filtered changes nothing. */
  lemma {:induction false} EnabledTwice(rules: seq<Rule>)
    ensures EnabledOnly(EnabledOnly(rules)) == EnabledOnly(rules)
  {
    if rules != [] {
      EnabledTwice(rules[1..]);
      var rest := EnabledOnly(rules[1..]);
      assert ([rules[0]] + rest)[1..] == rest;
    }
  }

  // ---------------------------------------------------------------- execution location

  datatype Location = Downloads | Desktop | Temp

  function Marker(l: Location): string {
    match l
    case Downloads => "\\downloads\\"
    case Desktop => "\\desktop\\"
    case Temp => "\\temp\\"
  }

  function Name(l: Location): string {
    match l
    case Downloads => "downloads"
    case Desktop => "desktop"
    case Temp => "temp"
  }

  predicate Hits(path: string, l: Location) {
    Contains(Lower(path), Marker(l))
  }

  /** One of the orders in which the marker table may be scanned. */
  predicate ScanOrder(order: seq<Location>) {
    |order| == 3 && Downloads in order && Desktop in order && Temp in order
  }

  predicate OtherDrive(path: string) {
    |path| >= 2 && path[1] == ':' && !EqualFold(path[..2], "c:")
  }

  function FirstHit(path: string, order: seq<Location>): string {
    if order == [] then "" else if Hits(path, order[0]) then Name(order[0]) else FirstHit(path, order[1..])
  }

  /** ClassifyExecutionLocation, scanning the markers in the given order. */
  function Classify(path: string, order: seq<Location>): string {
    if path == "" then "" else if OtherDrive(path) then "usb" else FirstHit(path, order)
  }

  predicate OneMarkerAtMost(path: string) {
    forall l, m :: Hits(path, l) && Hits(path, m) ==> l == m
  }

  predicate OneBucket(path: string) {
    path == "" || OtherDrive(path) || OneMarkerAtMost(path)
  }

  lemma {:induction false} FirstHitIn(path: string, order: seq<Location>)
    ensures FirstHit(path, order) == "" ==> forall l :: l in order ==> !Hits(path, l)
    ensures FirstHit(path, order) != "" ==> exists l :: l in order && Hits(path, l) && FirstHit(path, order) == Name(l)
  {
    if order != [] {
      assert order == [order[0]] + order[1..];
      FirstHitIn(path, order[1..]);
    }
  }

  /** The bucket is well defined exactly when the path is not classified by markers, or hits at most one. */
  lemma ClassifyDeterminedIff(path: string)
    ensures OneBucket(path) <==>
      forall p, q :: ScanOrder(p) && ScanOrder(q) ==> Classify(path, p) == Classify(path, q)
  {
    hide Contains, Lower;
    if OneBucket(path) {
      forall p, q | ScanOrder(p) && ScanOrder(q)
        ensures Classify(path, p) == Classify(path, q)
      {
        SameBucket(path, p, q);
      }
    } else {
      var l, m :| Hits(path, l) && Hits(path, m) && l != m;
      var p, q := OrderFrom(l), OrderFrom(m);
      assert Classify(path, p) == Name(l) && Classify(path, q) == Name(m);
    }
  }

  function OrderFrom(l: Location): (p: seq<Location>)
    ensures ScanOrder(p) && p[0] == l
  {
    match l
    case Downloads => [Downloads, Desktop, Temp]
    case Desktop => [Desktop, Downloads, Temp]
    case Temp => [Temp, Desktop, Downloads]
  }

  lemma SameBucket(path: string, p: seq<Location>, q: seq<Location>)
    requires OneBucket(path) && ScanOrder(p) && ScanOrder(q)
    ensures Classify(path, p) == Classify(path, q)
  {
    FirstHitIn(path, p);
    FirstHitIn(path, q);
    assert forall l: Location :: l in p && l in q by {
      forall l: Location
        ensures l in p && l in q
      {
        match l
        case Downloads =>
        case Desktop =>
        case Temp =>
      }
    }
  }

  /** What the buckets are: another drive is "usb"; otherwise a folder's name anywhere in the path decides. */
  lemma ClassifyMeans(path: string, order: seq<Location>)
    requires ScanOrder(order)
    ensures Classify(path, order) == "usb" <==> |path| >= 2 && path[1] == ':' && path[0] != 'c' && path[0] != 'C'
    ensures Classify(path, order) != "usb" && OneMarkerAtMost(path) ==>
      && (Classify(path, order) == "downloads" <==> Contains(Lower(path), "\\downloads\\"))
      && (Classify(path, order) == "desktop" <==> Contains(Lower(path), "\\desktop\\"))
      && (Classify(path, order) == "temp" <==> Contains(Lower(path), "\\temp\\"))
    ensures Classify(path, order) in ["usb", "downloads", "desktop", "temp", ""]
  {
    hide Contains;
    FirstHitIn(path, order);
    OtherDriveMeans(path);
    if path == "" {
      NothingInEmpty("\\downloads\\");
      NothingInEmpty("\\desktop\\");
      NothingInEmpty("\\temp\\");
    }
    assert Hits(path, Downloads) <==> Contains(Lower(path), "\\downloads\\");
    assert Hits(path, Desktop) <==> Contains(Lower(path), "\\desktop\\");
    assert Hits(path, Temp) <==> Contains(Lower(path), "\\temp\\");
    NamesDiffer();
  }

  lemma NamesDiffer()
    ensures |"usb"| == 3 && |"downloads"| == 9 && |"desktop"| == 7 && |"temp"| == 4
  {
  }

  lemma NothingInEmpty(t: string)
    requires t != ""
    ensures !Contains(Lower(""), t)
  {
  }

  lemma OtherDriveMeans(path: string)
    ensures OtherDrive(path) <==> |path| >= 2 && path[1] == ':' && path[0] != 'c' && path[0] != 'C'
  {
    if |path| >= 2 {
      assert Lower("c:") == "c:";
      assert Lower(path[..2]) == [LowerChar(path[0]), LowerChar(path[1])];
      assert Lower(path[..2]) == "c:" <==> LowerChar(path[0]) == 'c' && LowerChar(path[1]) == ':';
    }
  }

  // ---------------------------------------------------------------- file extension

  /** filepath.Ext: from the last dot of the last path element; which characters separate elements
      depends on the operating system. */
  function Ext(path: string, windows: bool): string {
    if path == "" then ""
    else
      var c := path[|path| - 1];
      if c == '/' || (windows && c == '\\') then ""
      else if c == '.' then "."
      else
        var rest := Ext(path[..|path| - 1], windows);
        if rest == "" then "" else rest + [c]
  }

  /** strings.TrimPrefix(strings.ToLower(filepath.Ext(path)), "."). */
  function Extension(path: string, windows: bool): string {
    var e := Lower(Ext(path, windows));
    if |e| > 0 && e[0] == '.' then e[1..] else e
  }

  /** The extension is what follows the last dot of the last path element. */
  lemma {:induction false} ExtOfName(prefix: string, e: string, windows: bool)
    requires '.' !in e && '/' !in e && '\\' !in e
    ensures Ext(prefix + ['.'] + e, windows) == ['.'] + e
    decreases |e|
  {
    var path := prefix + ['.'] + e;
    if e == "" {
      assert path[|path| - 1] == '.';
    } else {
      var n := |e| - 1;
      ExtOfName(prefix, e[..n], windows);
      assert path[..|path| - 1] == prefix + ['.'] + e[..n];
      assert path[|path| - 1] == e[n];
      assert ['.'] + e == ['.'] + e[..n] + [e[n]];
    }
  }

  lemma ExtensionOfName(prefix: string, e: string, windows: bool)
    requires '.' !in e && '/' !in e && '\\' !in e
    ensures Extension(prefix + ['.'] + e, windows) == Lower(e)
  {
    ExtOfName(prefix, e, windows);
    assert Lower(['.'] + e)[1..] == Lower(e);
  }

  /** A last element without a dot has none. */
  lemma {:induction false} NoExtension(prefix: string, name: string, windows: bool)
    requires '.' !in name
    ensures Ext(prefix + ['/'] + name, windows) == "" && (windows ==> Ext(prefix + ['\\'] + name, windows) == "")
    decreases |name|
  {
    var path, other := prefix + ['/'] + name, prefix + ['\\'] + name;
    if name == "" {
      assert path[|path| - 1] == '/' && other[|other| - 1] == '\\';
    } else {
      var n := |name| - 1;
      NoExtension(prefix, name[..n], windows);
      assert path[..|path| - 1] == prefix + ['/'] + name[..n] && path[|path| - 1] == name[n];
      assert other[..|other| - 1] == prefix + ['\\'] + name[..n] && other[|other| - 1] == name[n];
    }
  }

  /** The two systems disagree only on a backslash after the last dot, where Windows sees no extension. */
  lemma {:induction false} ExtBySystem(path: string)
    ensures '\\' !in Ext(path, false) ==> Ext(path, true) == Ext(path, false)
    ensures '\\' in Ext(path, false) ==> Ext(path, true) == ""
    ensures Ext(path, false) != "" ==> Ext(path, false)[0] == '.'
  {
    if path != "" {
      ExtBySystem(path[..|path| - 1]);
    }
  }

  lemma LowerKeepsBackslash(s: string)
    ensures '\\' in Lower(s) <==> '\\' in s
  {
    if '\\' in s {
      var i :| 0 <= i < |s| && s[i] == '\\';
      assert Lower(s)[i] == '\\';
    }
    if '\\' in Lower(s) {
      var i :| 0 <= i < |s| && Lower(s)[i] == '\\';
      assert LowerChar(s[i]) == '\\';
    }
  }

  // ---------------------------------------------------------------- the two sides

  /** What a process is judged by; None when it is neither in a watched place nor flagged. */
  function ContextFor(apps: map<string, App>, group: string, name: string, path: string, order: seq<Location>,
                      windows: bool): Option<Context>
  {
    var loc := Classify(path, order);
    var key := Lower(name);
    if loc == "" && key !in apps then None
    else
      var app := if key in apps then apps[key] else App("", None, "");
      Some(Context(group, "", app.categoryId, app.status, Extension(path, windows), loc))
  }

  /** evaluateProcessLocally, on the agent (Windows). */
  function AgentDecision(cached: seq<Rule>, apps: map<string, App>, group: string, name: string, path: string,
                         order: seq<Location>): Option<Decision>
  {
    var ctx := ContextFor(apps, group, name, path, order, true);
    if ctx.None? then None else Some(DecisionOf(Best(EnabledOnly(cached), ctx.value)))
  }

  /** The decision part of EvaluateProcesses, on the server. */
  function ServerDecision(all: seq<Rule>, apps: map<string, App>, group: string, name: string, path: string,
                          order: seq<Location>, windows: bool): Option<Decision>
  {
    var ctx := ContextFor(apps, group, name, path, order, windows);
    if ctx.None? then None else Some(DecisionOf(Best(EnabledOnly(all), ctx.value)))
  }

  /** How a process is judged on the PC: not at all unless it runs from a watched place or is flagged, and
      otherwise by the enabled rule that suits it best. */
  lemma AgentJudges(cached: seq<Rule>, apps: map<string, App>, group: string, name: string, path: string,
                    order: seq<Location>)
    ensures var d := AgentDecision(cached, apps, group, name, path, order);
      var key, place := Lower(name), Classify(path, order);
      && (d.None? <==> place == "" && key !in apps)
      && (d.Some? && key in apps ==>
            Chosen(EnabledOnly(cached), Context(group, "", apps[key].categoryId, apps[key].status,
                                                Extension(path, true), place), d.value))
      && (d.Some? && key !in apps ==>
            Chosen(EnabledOnly(cached), Context(group, "", None, "", Extension(path, true), place), d.value))
  {
    hide Chosen, Classify, Extension, Best, EnabledOnly;
    var ctx := ContextFor(apps, group, name, path, order, true);
    if ctx.Some? {
      BestIsChosen(EnabledOnly(cached), ctx.value);
    }
  }

  /** No rule asks for an extension with a backslash in it. */
  ghost predicate PlainExtensions(rules: seq<Rule>) {
    forall r :: r in rules ==> '\\' !in r.fileExtension
  }

  lemma ExtensionScores(r: Rule, ctx: Context, path: string)
    requires '\\' !in r.fileExtension && ctx.fileExtension == Extension(path, true)
    ensures MatchScore(r, ctx) == MatchScore(r, ctx.(fileExtension := Extension(path, false)))
  {
    ExtBySystem(path);
    if '\\' in Ext(path, false) {
      var e := Extension(path, false);
      LowerKeepsBackslash(Ext(path, false));
      assert '\\' in e;
      LowerKeepsBackslash(e);
      LowerKeepsBackslash(r.fileExtension);
      assert Lower(Ext(path, true)) == "";
    }
  }

  /**
   Given the rules the server pushes (its enabled ones), the same apps and the same group, the agent skips
   or decides exactly as the server does, whatever order either scans the markers in - for every path that
   falls in one bucket, and on either server system unless the path has a backslash after its last dot and
   some rule's extension has one too.
   */
  lemma AgentAgreesWithServer(all: seq<Rule>, apps: map<string, App>, group: string, name: string, path: string,
                              order: seq<Location>, other: seq<Location>, windows: bool)
    requires OneBucket(path) && ScanOrder(order) && ScanOrder(other)
    requires windows || PlainExtensions(all) || '\\' !in Ext(path, false)
    ensures AgentDecision(EnabledOnly(all), apps, group, name, path, order)
         == ServerDecision(all, apps, group, name, path, other, windows)
  {
    EnabledTwice(all);
    SameBucket(path, order, other);
    ExtBySystem(path);
    var ctx := ContextFor(apps, group, name, path, order, true);
    if ctx.Some? && !windows && PlainExtensions(all) {
      EnabledMeans(all);
      var there := ctx.value.(fileExtension := Extension(path, false));
      forall r | r in EnabledOnly(all)
        ensures MatchScore(r, ctx.value) == MatchScore(r, there)
      {
        ExtensionScores(r, ctx.value, path);
      }
      SameScoresSameBest(EnabledOnly(all), ctx.value, there);
    }
  }

  ghost predicate AlwaysAgree(path: string, order: seq<Location>, windows: bool) {
    forall all, apps, group, name ::
      AgentDecision(EnabledOnly(all), apps, group, name, path, order)
      == ServerDecision(all, apps, group, name, path, order, windows)
  }

  /** On which paths the two agree for every policy: on a non-Windows server, exactly those with no
      backslash after the last dot. */
  lemma AgreementIff(path: string, order: seq<Location>, windows: bool)
    requires OneBucket(path) && ScanOrder(order)
    ensures AlwaysAgree(path, order, windows) <==> windows || '\\' !in Ext(path, false)
  {
    hide AgentDecision, ServerDecision, Ext, EnabledOnly;
    if windows || '\\' !in Ext(path, false) {
      forall all, apps, group, name
        ensures AgentDecision(EnabledOnly(all), apps, group, name, path, order)
             == ServerDecision(all, apps, group, name, path, order, windows)
      {
        AgentAgreesWithServer(all, apps, group, name, path, order, order, windows);
      }
    } else {
      DisagreementRefutes(path, order);
    }
  }

  lemma DisagreementRefutes(path: string, order: seq<Location>)
    requires '\\' in Ext(path, false)
    ensures !AlwaysAgree(path, order, false)
  {
    hide AgentDecision, ServerDecision, Ext, EnabledOnly, Extension;
    DisagreementWitness(path, order);
    var all := [Rule(1, "", None, "", Extension(path, false), "", "", "kill", true)];
    var apps := map["a.exe" := App("blocked", None, "")];
    assert AgentDecision(EnabledOnly(all), apps, "", "a.exe", path, order)
        != ServerDecision(all, apps, "", "a.exe", path, order, false);
  }

  /** A blocked "a.exe" and one rule for its extension: the server kills, the agent logs. */
  lemma DisagreementWitness(path: string, order: seq<Location>)
    requires '\\' in Ext(path, false)
    ensures var all := [Rule(1, "", None, "", Extension(path, false), "", "", "kill", true)];
      var apps := map["a.exe" := App("blocked", None, "")];
      && ServerDecision(all, apps, "", "a.exe", path, order, false) == Some(Decision("kill", Some(all[0])))
      && AgentDecision(EnabledOnly(all), apps, "", "a.exe", path, order) == Some(Decision(LOG, None))
  {
    hide Classify, Ext, Extension, Lower;
    ExtensionsDiffer(path);
    LowerOfName();
    var rule := Rule(1, "", None, "", Extension(path, false), "", "", "kill", true);
    var apps := map["a.exe" := App("blocked", None, "")];
    var there := ContextFor(apps, "", "a.exe", path, order, false).value;
    var here := ContextFor(apps, "", "a.exe", path, order, true).value;
    OneRule(rule, there);
    OneRule(rule, here);
    assert MatchScore(rule, there) == Some(1) && MatchScore(rule, here) == None;
  }

  lemma ExtensionsDiffer(path: string)
    requires '\\' in Ext(path, false)
    ensures Extension(path, false) != "" && Extension(path, true) == ""
    ensures !EqualFold(Extension(path, false), "")
  {
    ExtBySystem(path);
    LowerKeepsBackslash(Ext(path, false));
    assert '\\' in Extension(path, false);
    assert Lower(Ext(path, true)) == "";
  }

  lemma LowerOfName()
    ensures Lower("a.exe") == "a.exe"
  {
  }

  lemma OneRule(rule: Rule, ctx: Context)
    ensures rule.enabled ==> EnabledOnly([rule]) == [rule]
    ensures Best([rule], ctx) == if MatchScore(rule, ctx).Some? then Some(rule) else None
  {
    assert [rule][1..] == [] && [rule][..0] == [];
  }
}
