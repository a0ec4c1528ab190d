/**
 Network modes: the server moves an agent's desired mode, the agent reconciles its two adapters to it by
 enabling, confirming and only then disabling. Adapter calls may fail and an enabled adapter may take a
 while to come up, so every call into the system has several outcomes.
 */
module NetworkMode {
  import opened Basics

  datatype Which = Wifi | Ethernet

  /** starting: told to come up and not up yet. */
  datatype Adapter = Adapter(found: bool, enabled: bool, starting: bool)

  datatype Links = Links(wifi: Adapter, ethernet: Adapter) {
    function Of(w: Which): Adapter { if w.Wifi? then wifi else ethernet }
    function With(w: Which, a: Adapter): Links { if w.Wifi? then this.(wifi := a) else this.(ethernet := a) }
    predicate Connected() { wifi.enabled || ethernet.enabled }
    predicate Wf() {
      && (wifi.enabled || wifi.starting ==> wifi.found)
      && (ethernet.enabled || ethernet.starting ==> ethernet.found)
    }
  }

  predicate ValidMode(mode: string) { mode == "ethernet" || mode == "wifi" || mode == "both" }

  predicate Wants(mode: string, w: Which) {
    mode == "both" || (if w.Wifi? then mode == "wifi" else mode == "ethernet")
  }

  // ---------------------------------------------------------------- the server's transitions

  /** computeNetworkModeTransition. */
  function Transition(action: string, current: string): Option<string> {
    if action == "enable_wifi" then Some(if current == "ethernet" then "both" else current)
    else if action == "disable_wifi" then
      if current == "both" then Some("ethernet") else if current == "wifi" then None else Some(current)
    else if action == "enable_lan" then Some(if current == "wifi" then "both" else current)
    else if action == "disable_lan" then
      if current == "both" then Some("wifi") else if current == "ethernet" then None else Some(current)
    else None
  }

  function Paths(mode: string): set<Which> { set w: Which | Wants(mode, w) }

  /** What an action asks for, on sets of adapters. */
  function Asked(action: string, paths: set<Which>): set<Which> {
    if action == "enable_wifi" then paths + {Wifi}
    else if action == "disable_wifi" then paths - {Wifi}
    else if action == "enable_lan" then paths + {Ethernet}
    else if action == "disable_lan" then paths - {Ethernet}
    else {}
  }

  /** From a valid mode an action is refused exactly when no adapter would be left, and otherwise does
      exactly what it asks for. */
  lemma TransitionIsSetUpdate(action: string, current: string)
    requires ValidMode(current)
    ensures Transition(action, current).None? <==> Asked(action, Paths(current)) == {}
    ensures Transition(action, current).Some? ==>
              && ValidMode(Transition(action, current).value)
              && Paths(Transition(action, current).value) == Asked(action, Paths(current))
  {
    PathsOf();
    ModesDiffer();
    var asked := Asked(action, Paths(current));
    assert asked == {} <==> Wifi !in asked && Ethernet !in asked by {
      if asked != {} {
        var w :| w in asked;
      }
    }
  }

  lemma ModesDiffer()
    ensures "both" != "wifi" && "both" != "ethernet" && "wifi" != "ethernet"
  {
    assert "both"[0] != "wifi"[0] && "both"[0] != "ethernet"[0] && "wifi"[0] != "ethernet"[0];
  }

  lemma PathsOf()
    ensures Paths("both") == {Wifi, Ethernet} && Paths("wifi") == {Wifi} && Paths("ethernet") == {Ethernet}
  {
    ModesDiffer();
    forall w: Which
      ensures w in Paths("both") && (w in Paths("wifi") <==> w.Wifi?) && (w in Paths("ethernet") <==> w.Ethernet?)
    {
    }
    assert Paths("both") == {Wifi, Ethernet};
  }

  // ---------------------------------------------------------------- the plan of one reconciliation

  datatype Reading = Reading(found: bool, enabled: bool)

  /** getAdapterStatus: a failed read looks like a missing adapter. */
  function Read(a: Adapter, fails: bool): Reading {
    if fails || !a.found then Reading(false, false) else Reading(true, a.enabled)
  }

  predicate NeedsEnable(mode: string, w: Which, r: Reading) { Wants(mode, w) && r.found && !r.enabled }

  predicate NeedsDisable(mode: string, w: Which, r: Reading) { !Wants(mode, w) && r.found && r.enabled }

  predicate Converged(mode: string, wifi: Reading, ethernet: Reading) {
    && !NeedsEnable(mode, Wifi, wifi) && !NeedsEnable(mode, Ethernet, ethernet)
    && !NeedsDisable(mode, Wifi, wifi) && !NeedsDisable(mode, Ethernet, ethernet)
  }

  predicate SomeWantedFound(mode: string, wifi: Reading, ethernet: Reading) {
    (Wants(mode, Wifi) && wifi.found) || (Wants(mode, Ethernet) && ethernet.found)
  }

  /** The state one adapter has after a reconciliation in which nothing failed but this status read, if it
      did: an adapter that could not be read is left alone. */
  predicate EndsEnabled(mode: string, w: Which, a: Adapter, fails: bool) {
    if fails then a.enabled else Wants(mode, w) && a.found
  }

  /** Some adapter is wanted and was read, or is enabled and could not be read. */
  predicate KeepsAPath(mode: string, links: Links, f: Faults) {
    EndsEnabled(mode, Wifi, links.wifi, f.wifi) || EndsEnabled(mode, Ethernet, links.ethernet, f.ethernet)
  }

  /** With both adapters read, a path is kept exactly when a wanted one exists. */
  lemma ReadableKeepsIff(mode: string, links: Links, f: Faults)
    requires !f.wifi && !f.ethernet
    ensures KeepsAPath(mode, links, f) <==> SomeWantedFound(mode, Read(links.wifi, false), Read(links.ethernet, false))
  {
  }

  /** Finding a wanted adapter is not enough: Wi-Fi is there and wanted, but its status could not be read. */
  lemma FailedReadLosesThePath() returns (links: Links, f: Faults)
    ensures links.Wf() && links.Connected() && links.wifi.found && !links.wifi.starting && !links.ethernet.starting
    ensures f.Wf() && Wants("wifi", Wifi) && !KeepsAPath("wifi", links, f)
  {
    links := Links(Adapter(true, false, false), Adapter(true, true, false));
    f := Faults(true, false, [false, false, false], [false, false, false], false, false);
    ModesDiffer();
  }

  /** currentCombinedMode. */
  function CombinedMode(wifi: bool, ethernet: bool): string {
    if wifi && ethernet then "both" else if wifi then "wifi" else if ethernet then "ethernet" else "none"
  }

  /** The reported mode names exactly the enabled adapters. */
  lemma CombinedModeMeans(wifi: bool, ethernet: bool)
    ensures wifi || ethernet ==>
      ValidMode(CombinedMode(wifi, ethernet))
      && (Wifi in Paths(CombinedMode(wifi, ethernet)) <==> wifi)
      && (Ethernet in Paths(CombinedMode(wifi, ethernet)) <==> ethernet)
    ensures !wifi && !ethernet ==> CombinedMode(wifi, ethernet) == "none"
  {
    PathsOf();
  }

  lemma NoneIsNoMode()
    ensures "none" != "both" && "none" != "wifi" && "none" != "ethernet"
  {
    assert "none"[0] != "both"[0] && "none"[0] != "wifi"[0] && "none"[0] != "ethernet"[0];
  }

  /** What a status read makes of an adapter that is up. */
  predicate SeenUp(a: Adapter, fails: bool) { a.found && a.enabled && !fails }

  datatype Status = Ok | Partial | Failed

  datatype Reply = Reply(mode: string, status: Status)

  /** Which status reads of one reconciliation fail. */
  datatype Faults = Faults(wifi: bool, ethernet: bool, wifiPolls: seq<bool>, ethernetPolls: seq<bool>,
                           finalWifi: bool, finalEthernet: bool)
  {
    predicate Wf() { |wifiPolls| == VERIFY_POLLS && |ethernetPolls| == VERIFY_POLLS }

    /** The reads outside the polls all succeed. */
    predicate ReadsSucceed() { !wifi && !ethernet && !finalWifi && !finalEthernet }
  }

  // ---------------------------------------------------------------- the machine

  /** An adapter that was left alone, or came up while starting. */
  predicate Rises(a: Adapter, b: Adapter) {
    b == a || (a.starting && b == a.(enabled := true))
  }

  ghost predicate AllConnected(log: seq<Links>) {
    forall i :: 0 <= i < |log| ==> log[i].Connected()
  }

  const VERIFY_POLLS := 3

  class Machine {
    var links: Links
    ghost var log: seq<Links>       // the state after every change
    ghost var actions: nat          // enable and disable calls issued
    ghost var failures: nat         // calls that reported an error, and adapters that did not come up

    ghost predicate Safe()
      reads this
    {
      links.Wf() && links.Connected() && AllConnected(log)
    }

    constructor (initial: Links)
      ensures links == initial && log == [initial] && actions == 0 && failures == 0
    {
      links, log, actions, failures := initial, [initial], 0, 0;
    }

    method Set(w: Which, a: Adapter)
      modifies this
      ensures links == old(links).With(w, a) && log == old(log) + [links]
      ensures actions == old(actions) && failures == old(failures)
    {
      links := links.With(w, a);
      log := log + [links];
    }

    /** A starting adapter may have come up by the time it is looked at. */
    method GetAdapterStatus(w: Which, fails: bool) returns (r: Reading)
      requires links.Of(w).starting ==> links.Of(w).found
      modifies this
      ensures Rises(old(links).Of(w), links.Of(w)) && links == old(links).With(w, links.Of(w))
      ensures old(Safe()) ==> Safe()
      ensures actions == old(actions) && failures == old(failures) && (!old(links).Of(w).starting ==> log == old(log))
      ensures r == Read(links.Of(w), fails)
    {
      if * {
        if links.Of(w).starting {
          Set(w, links.Of(w).(enabled := true));
        }
      }
      r := Read(links.Of(w), fails);
    }

    method EnableAdapter(w: Which) returns (ok: bool)
      requires links.Of(w).found
      modifies this
      ensures links == old(links).With(w, links.Of(w)) && log == old(log) + [links] && actions == old(actions) + 1
      ensures links.Of(w).found && (old(links).Of(w).enabled ==> links.Of(w).enabled)
      ensures failures == old(failures) + One(!ok)
    {
      ok := *;
      var up, starting := *, *;
      actions, failures := actions + 1, failures + One(!ok);
      Set(w, links.Of(w).(enabled := up || links.Of(w).enabled, starting := starting));
    }

    method DisableAdapter(w: Which) returns (ok: bool)
      requires links.Of(w).found
      modifies this
      ensures links == old(links).With(w, links.Of(w)) && log == old(log) + [links] && actions == old(actions) + 1
      ensures links.Of(w).found && (ok ==> !links.Of(w).enabled && !links.Of(w).starting)
      ensures links.Of(w).enabled ==> old(links).Of(w).enabled
      ensures failures == old(failures) + One(!ok)
    {
      ok := *;
      var down := *;
      actions, failures := actions + 1, failures + One(!ok);
      Set(w, if ok || down then links.Of(w).(enabled := false, starting := false) else links.Of(w));
    }

    /** pollUntilEnabled, on an adapter that was just told to start. */
    method PollUntilEnabled(w: Which, fails: seq<bool>) returns (confirmed: bool)
      requires links.Of(w).found && |fails| == VERIFY_POLLS
      modifies this
      ensures Rises(old(links).Of(w), links.Of(w)) && links == old(links).With(w, links.Of(w))
      ensures old(Safe()) ==> Safe()
      ensures actions == old(actions) && failures == old(failures) + One(!confirmed)
      ensures confirmed ==> links.Of(w).enabled
      ensures old(links).Of(w).enabled && (!fails[0] || !fails[1] || !fails[2]) ==> confirmed
    {
      for i := 0 to VERIFY_POLLS
        invariant old(links).Of(w).enabled ==> forall j :: 0 <= j < i ==> fails[j]
        invariant Rises(old(links).Of(w), links.Of(w)) && links == old(links).With(w, links.Of(w))
        invariant old(Safe()) ==> Safe()
        invariant actions == old(actions) && failures == old(failures)
      {
        var r := GetAdapterStatus(w, fails[i]);
        if r.enabled {
          return true;
        }
      }
      confirmed, failures := false, failures + 1;
    }

    /** Phase 1 for one adapter: the enable call. */
    method EnableIfNeeded(w: Which, needed: bool) returns (ok: bool)
      requires needed ==> links.Of(w).found
      modifies this
      ensures old(Safe()) ==> Safe()
      ensures links == old(links).With(w, links.Of(w)) && actions == old(actions) + (if needed then 1 else 0)
      ensures links.Of(w).found == old(links).Of(w).found && (old(links).Of(w).enabled ==> links.Of(w).enabled)
      ensures failures == old(failures) + One(!ok)
      ensures !needed ==> ok && links == old(links) && log == old(log)
    {
      ok := true;
      if needed {
        ok := EnableAdapter(w);
      }
    }

    /** Phase 1 for one adapter: the confirmation. */
    method ConfirmIfNeeded(w: Which, needed: bool, fails: seq<bool>) returns (confirmed: bool)
      requires |fails| == VERIFY_POLLS && (needed ==> links.Of(w).found)
      modifies this
      ensures old(Safe()) ==> Safe()
      ensures Rises(old(links).Of(w), links.Of(w)) && links == old(links).With(w, links.Of(w))
      ensures actions == old(actions) && failures == old(failures) + One(!confirmed)
      ensures !needed ==> confirmed && links == old(links) && log == old(log)
      ensures needed && confirmed ==> links.Of(w).enabled
    {
      confirmed := !needed;
      if needed {
        confirmed := PollUntilEnabled(w, fails);
      }
    }

    /** Phase 2 for one adapter. */
    method DisableIfNeeded(w: Which, needed: bool, replaced: bool) returns (ok: bool)
      requires needed ==> links.Of(w).found
      modifies this
      ensures old(Safe()) && (needed && replaced ==> links.Of(Other(w)).enabled) ==> Safe()
      ensures links == old(links).With(w, links.Of(w))
      ensures links.Of(w).found == old(links).Of(w).found && (links.Of(w).enabled ==> old(links).Of(w).enabled)
      ensures ok && needed ==> !links.Of(w).enabled && !links.Of(w).starting
      ensures actions == old(actions) + (if needed && replaced then 1 else 0)
      ensures failures == old(failures) + One(!ok && replaced)
      ensures needed && !replaced ==> !ok
      ensures !needed ==> ok && links == old(links) && log == old(log)
    {
      ok := true;
      if needed {
        if replaced {
          ok := DisableAdapter(w);
        } else {
          ok := false;
        }
      }
    }

    /** reconcileNetworkMode. */
    method Reconcile(mode: string, f: Faults) returns (reply: Reply)
      requires links.Wf() && f.Wf()
      modifies this
      ensures !ValidMode(mode) ==> links == old(links) && log == old(log) && actions == old(actions)
      ensures old(Safe()) && (ValidMode(mode) ==> KeepsAPath(mode, old(links), f)) ==> Safe()
      ensures ValidMode(mode) && failures == old(failures) && Settled(old(links)) ==>
                CarriedOut(mode, old(links), f, links)
      ensures SameFound(old(links), links) && links.Wf()
      ensures Converged(mode, Read(old(links).wifi, f.wifi), Read(old(links).ethernet, f.ethernet))
              && !old(links).wifi.starting && !old(links).ethernet.starting
              ==> actions == old(actions) && links == old(links) && log == old(log)
      ensures reply.status.Ok? ==> Reached(mode, Wifi, old(links).wifi, links.wifi)
      ensures reply.status.Ok? ==> Reached(mode, Ethernet, old(links).ethernet, links.ethernet)
      ensures !ValidMode(mode) ==> reply == Reply("unknown", Failed)
      ensures ValidMode(mode) && f.ReadsSucceed() ==>
                reply.mode == CombinedMode(links.wifi.enabled, links.ethernet.enabled)
      ensures failures == old(failures) && f.ReadsSucceed() && ValidMode(mode)
              && SomeWantedFound(mode, Read(old(links).wifi, false), Read(old(links).ethernet, false))
              ==> reply.status.Ok?
    {
      hide Wants, AllConnected;
      if !ValidMode(mode) {
        return Reply("unknown", Failed);
      }
      var wifi := GetAdapterStatus(Wifi, f.wifi);
      var ethernet := GetAdapterStatus(Ethernet, f.ethernet);
      if Converged(mode, wifi, ethernet) {
        return Reply(CombinedMode(wifi.enabled, ethernet.enabled), if !f.wifi && !f.ethernet then Ok else Failed);
      }
      reply := CarryOut(mode, wifi, ethernet, f);
    }

    /** Phase 1: bring up everything that should be up, and look whether it came up. */
    method BringUp(wifi: bool, ethernet: bool, f: Faults) returns (ok: bool, wifiUp: bool, ethernetUp: bool)
      requires f.Wf() && links.Wf() && (wifi ==> links.wifi.found) && (ethernet ==> links.ethernet.found)
      modifies this
      ensures old(Safe()) ==> Safe()
      ensures Raised(wifi, old(links).wifi, links.wifi) && Raised(ethernet, old(links).ethernet, links.ethernet)
      ensures (wifi && wifiUp ==> links.wifi.enabled) && (!wifi ==> wifiUp)
      ensures (ethernet && ethernetUp ==> links.ethernet.enabled) && (!ethernet ==> ethernetUp)
      ensures ok ==> wifiUp && ethernetUp
      ensures ok <==> failures == old(failures)
      ensures failures >= old(failures)
    {
      var ok1 := EnableIfNeeded(Wifi, wifi);
      var ok2 := EnableIfNeeded(Ethernet, ethernet);
      wifiUp := ConfirmIfNeeded(Wifi, wifi, f.wifiPolls);
      ethernetUp := ConfirmIfNeeded(Ethernet, ethernet, f.ethernetPolls);
      ok := ok1 && ok2 && wifiUp && ethernetUp;
    }

    /** Phase 2: take down what should be down, once its replacement is confirmed. */
    method TakeDown(wifi: bool, ethernet: bool, wifiUp: bool, ethernetUp: bool) returns (ok: bool)
      requires links.Wf() && (wifi ==> links.wifi.found) && (ethernet ==> links.ethernet.found)
      modifies this
      ensures old(Safe()) && !(wifi && ethernet)
              && (wifi && ethernetUp ==> old(links).ethernet.enabled)
              && (ethernet && wifiUp ==> old(links).wifi.enabled)
              ==> Safe()
      ensures Lowered(wifi, old(links).wifi, links.wifi) && Lowered(ethernet, old(links).ethernet, links.ethernet)
      ensures ok && wifi ==> !links.wifi.enabled && !links.wifi.starting
      ensures ok && ethernet ==> !links.ethernet.enabled && !links.ethernet.starting
      ensures wifiUp && ethernetUp ==> (failures == old(failures) <==> ok)
      ensures failures >= old(failures)
    {
      var ok1 := DisableIfNeeded(Wifi, wifi, ethernetUp);
      var ok2 := DisableIfNeeded(Ethernet, ethernet, wifiUp);
      ok := ok1 && ok2;
    }

    /** Final verification: look again and report what is there. */
    method VerifyFinal(mode: string, wifiFound: bool, ethernetFound: bool, clean: bool, f: Faults)
      returns (reply: Reply)
      requires links.Wf()
      modifies this
      ensures old(Safe()) ==> Safe()
      ensures Rises(old(links).wifi, links.wifi) && Rises(old(links).ethernet, links.ethernet)
      ensures failures == old(failures)
      ensures reply.status.Ok? ==> clean
      ensures clean && !f.finalWifi && !f.finalEthernet && links.Connected()
              && (Wants(mode, Wifi) && wifiFound ==> links.wifi.enabled)
              && (Wants(mode, Ethernet) && ethernetFound ==> links.ethernet.enabled)
              ==> reply.status.Ok?
      ensures reply.status.Ok? && wifiFound && Wants(mode, Wifi) ==> links.wifi.enabled
      ensures reply.status.Ok? && ethernetFound && Wants(mode, Ethernet) ==> links.ethernet.enabled
      ensures reply.mode == CombinedMode(SeenUp(links.wifi, f.finalWifi), SeenUp(links.ethernet, f.finalEthernet))
      ensures reply.status.Failed? <==>
        || (Wants(mode, Wifi) && wifiFound && !SeenUp(links.wifi, f.finalWifi))
        || (Wants(mode, Ethernet) && ethernetFound && !SeenUp(links.ethernet, f.finalEthernet))
        || (!SeenUp(links.wifi, f.finalWifi) && !SeenUp(links.ethernet, f.finalEthernet))
      ensures reply.status.Ok? <==> !reply.status.Failed? && clean
    {
      NoneIsNoMode();
      var finalWifi := GetAdapterStatus(Wifi, f.finalWifi);
      var finalEthernet := GetAdapterStatus(Ethernet, f.finalEthernet);
      var current := CombinedMode(finalWifi.enabled, finalEthernet.enabled);
      var missing := || (Wants(mode, Wifi) && wifiFound && !finalWifi.enabled)
                     || (Wants(mode, Ethernet) && ethernetFound && !finalEthernet.enabled);
      reply := Reply(current, if missing || current == "none" then Failed else if clean then Ok else Partial);
    }

    /** The part of reconcileNetworkMode that acts on what was read. */
    method CarryOut(mode: string, wifi: Reading, ethernet: Reading, f: Faults) returns (reply: Reply)
      requires links.Wf() && f.Wf() && ValidMode(mode)
      requires wifi == Read(links.wifi, f.wifi) && ethernet == Read(links.ethernet, f.ethernet)
      modifies this
      ensures old(Safe()) && KeepsAPath(mode, old(links), f) ==> Safe()
      ensures failures == old(failures) && Settled(old(links)) ==> CarriedOut(mode, old(links), f, links)
      ensures SameFound(old(links), links) && links.Wf()
      ensures reply.status.Ok? ==> !f.wifi && !f.ethernet
      ensures f.ReadsSucceed() ==> reply.mode == CombinedMode(links.wifi.enabled, links.ethernet.enabled)
      ensures f.ReadsSucceed() && !links.Connected() ==> reply.status.Failed?
      ensures failures == old(failures) && f.ReadsSucceed() && SomeWantedFound(mode, wifi, ethernet) ==>
                reply.status.Ok?
      ensures failures >= old(failures)
      ensures reply.status.Ok? ==> Reached(mode, Wifi, old(links).wifi, links.wifi)
      ensures reply.status.Ok? ==> Reached(mode, Ethernet, old(links).ethernet, links.ethernet)
    {
      hide Wants, CombinedMode, Safe, NeedsEnable, NeedsDisable;
      var clean := Act(mode, wifi, ethernet, f);
      reply := VerifyFinal(mode, wifi.found, ethernet.found, clean, f);
    }

    /** Both phases. */
    method Act(mode: string, wifi: Reading, ethernet: Reading, f: Faults) returns (clean: bool)
      requires links.Wf() && f.Wf() && ValidMode(mode)
      requires wifi == Read(links.wifi, f.wifi) && ethernet == Read(links.ethernet, f.ethernet)
      modifies this
      ensures old(Safe()) && KeepsAPath(mode, old(links), f) ==> Safe()
      ensures SameFound(old(links), links) && links.Wf() && failures >= old(failures)
      ensures failures == old(failures) ==> Ended(mode, Wifi, old(links).wifi, f.wifi, links.wifi)
      ensures failures == old(failures) ==> Ended(mode, Ethernet, old(links).ethernet, f.ethernet, links.ethernet)
      ensures clean <==> failures == old(failures) && !f.wifi && !f.ethernet
    {
      hide Wants, CombinedMode, AllConnected;
      var enableWifi, enableEthernet := NeedsEnable(mode, Wifi, wifi), NeedsEnable(mode, Ethernet, ethernet);
      var disableWifi, disableEthernet := NeedsDisable(mode, Wifi, wifi), NeedsDisable(mode, Ethernet, ethernet);
      var ok1, wifiUp, ethernetUp := BringUp(enableWifi, enableEthernet, f);
      var ok2 := TakeDown(disableWifi, disableEthernet, wifiUp, ethernetUp);
      clean := !f.wifi && !f.ethernet && ok1 && ok2;
    }
  }

  /** Where the two phases leave an adapter when no call fails; one that was starting may still come up. */
  predicate Ended(mode: string, w: Which, before: Adapter, fails: bool, after: Adapter) {
    && (after.enabled <==> EndsEnabled(mode, w, before, fails))
    && (!before.starting && !after.enabled ==> !after.starting)
  }

  // ---------------------------------------------------------------- whole runs

  datatype Event =
    | Toggle(action: string)          // the server moves the desired mode and pushes it
    | Deliver(i: nat, f: Faults)      // any mode pushed so far arrives: late, twice or out of order

  ghost predicate EventOk(e: Event) {
    e.Deliver? ==> e.f.Wf() && !e.f.wifi && !e.f.ethernet
  }

  /** Every run of toggles and deliveries on a machine with both adapters: it is connected after every
      single adapter change, and the desired mode always names an adapter. */
  method Operate(m: Machine, initial: string, events: seq<Event>) returns (desired: string)
    requires m.Safe() && m.links.wifi.found && m.links.ethernet.found && ValidMode(initial)
    requires forall i :: 0 <= i < |events| ==> EventOk(events[i])
    modifies m
    ensures m.Safe() && ValidMode(desired)
    ensures desired == DesiredAfter(initial, events)
  {
    hide Wants, Transition, AllConnected;
    desired := initial;
    var pushed := [initial];
    for n := 0 to |events|
      invariant m.Safe() && m.links.wifi.found && m.links.ethernet.found && ValidMode(desired)
      invariant desired == DesiredAfter(initial, events[..n])
      invariant forall k :: 0 <= k < |pushed| ==> ValidMode(pushed[k])
    {
      var e := events[n];
      assert EventOk(e);
      assert events[..n + 1][..n] == events[..n];
      if e.Toggle? {
        var next := Transition(e.action, desired);
        TransitionIsSetUpdate(e.action, desired);
        if next.Some? {
          desired := next.value;
          pushed := pushed + [desired];
        }
      } else if e.i < |pushed| {
        SomeAdapterWanted(pushed[e.i]);
        var _ := m.Reconcile(pushed[e.i], e.f);
      }
    }
    assert events[..|events|] == events;
  }

  lemma SomeAdapterWanted(mode: string)
    requires ValidMode(mode)
    ensures Wants(mode, Wifi) || Wants(mode, Ethernet)
  {
  }

  /** The desired mode, as the toggles that were not refused leave it. */
  function DesiredAfter(initial: string, events: seq<Event>): string {
    if events == [] then initial
    else
      var before := DesiredAfter(initial, events[..|events| - 1]);
      var e := events[|events| - 1];
      if e.Toggle? && Transition(e.action, before).Some? then Transition(e.action, before).value else before
  }

  predicate Raised(touched: bool, a: Adapter, b: Adapter) {
    b.found == a.found && (a.enabled ==> b.enabled) && (!touched ==> b == a)
  }

  predicate Lowered(touched: bool, a: Adapter, b: Adapter) {
    b.found == a.found && (!touched ==> b == a) && (b.enabled || b.starting ==> b.found)
  }

  predicate Settled(links: Links) { !links.wifi.starting && !links.ethernet.starting }

  /** Both adapters ended where the mode and the readings put them, so the machine is connected exactly
      when a path was kept. */
  predicate CarriedOut(mode: string, before: Links, f: Faults, after: Links) {
    && (after.wifi.enabled <==> EndsEnabled(mode, Wifi, before.wifi, f.wifi))
    && (after.ethernet.enabled <==> EndsEnabled(mode, Ethernet, before.ethernet, f.ethernet))
    && (after.Connected() <==> KeepsAPath(mode, before, f))
  }

  predicate SameFound(a: Links, b: Links) { a.wifi.found == b.wifi.found && a.ethernet.found == b.ethernet.found }

  /** An adapter that ended as the mode wants it; one told to start earlier may still come up unasked. */
  predicate Reached(mode: string, w: Which, before: Adapter, after: Adapter) {
    before.found ==> if Wants(mode, w) then after.enabled else before.starting || !after.enabled
  }

  function Other(w: Which): Which { if w.Wifi? then Ethernet else Wifi }
}
