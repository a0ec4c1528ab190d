/** Planning an uninstall from an inventory row, and the gates the planned job must pass later. */
module UninstallPlan {
  import opened Basics
  import Text
  import opened SoftwareIdentity
  import opened SoftwareInventory
  import CommandLine

  datatype Tier = Msi | Quiet | Winget

  datatype Plan =
    | Planned(tier: Tier, jobType: string, payload: string, args: string)
    | Unsupported

  predicate AlphaNumeric(c: char) { '0' <= c <= '9' || 'A' <= c <= 'Z' || 'a' <= c <= 'z' }

  /** wingetIDRe. */
  predicate WingetId(id: string) {
    && id != "" && AlphaNumeric(id[0])
    && forall i :: 0 <= i < |id| ==> AlphaNumeric(id[i]) || id[i] in "_.-+"
  }

  function WingetCommand(id: string): string {
    "winget uninstall --id " + id + " --silent --accept-source-agreements"
  }

  /** classifyUninstall on a row stored under key. */
  function Classify(item: Item, key: string): Plan {
    if item.identity.windowsInstaller && NormalizeProductCode(item.identity.productCode).Some? then
      Planned(Msi, "msiexec_uninstall", NormalizeProductCode(item.identity.productCode).value, "")
    else if item.quietUninstallString != "" && CommandLine.ParseQuietUninstall(item.quietUninstallString).Some? then
      Planned(Quiet, "quiet_uninstall", item.quietUninstallString, key)
    else if item.wingetId != "" && WingetId(item.wingetId) then
      Planned(Winget, "winget", WingetCommand(item.wingetId), "")
    else Unsupported
  }

  // ---------------------------------------------------------------- the server's gate

  function Utf8Width(c: char): nat {
    if c < '\U{80}' then 1 else if c < '\U{800}' then 2 else if c < '\U{10000}' then 3 else 4
  }

  function ByteLength(s: string): nat {
    if s == "" then 0 else Utf8Width(s[0]) + ByteLength(s[1..])
  }

  predicate WingetFields(fields: seq<string>) {
    && |fields| >= 4 && fields[0] == "winget" && (fields[1] == "install" || fields[1] == "uninstall")
    && fields[2] == "--id" && WingetId(fields[3])
  }

  /** validateDeployRequest. */
  predicate ValidRequest(jobType: string, payload: string, args: string) {
    if jobType == "exec" then ByteLength(payload) <= 8192 && '\0' !in payload
    else if jobType == "winget" then WingetFields(Text.Fields(payload))
    else if jobType == "file_deploy" then ByteLength(args) <= 512 && '\0' !in args
    else if jobType == "deepfreeze" then payload in ["thaw", "freeze", "query_df"]
    else if jobType == "install_ssh" then true
    else if jobType == "msiexec_uninstall" then NormalizeProductCode(payload).Some?
    else if jobType == "quiet_uninstall" then CommandLine.ParseQuietUninstall(payload).Some? && args != ""
    else false
  }

  // ---------------------------------------------------------------- the agent's gates

  datatype Gate = Mismatch | Unsafe | Runs(invocation: CommandLine.Invocation)

  /** executeQuietUninstall up to the check that the program exists on disk. */
  function QuietGates(inventory: map<string, Item>, payload: string, key: string): Gate {
    if key !in inventory || inventory[key].quietUninstallString == "" || inventory[key].quietUninstallString != payload
    then Mismatch
    else
      var parsed := CommandLine.ParseQuietUninstall(payload);
      if parsed.None? then Unsafe else Runs(parsed.value)
  }

  /** executeMsiexecUninstall: the product code handed to the installer. */
  function MsiGate(payload: string): Option<string> { NormalizeProductCode(payload) }

  // ---------------------------------------------------------------- plans pass the gates

  lemma WingetCommandFields(id: string)
    requires WingetId(id)
    ensures Text.Fields(WingetCommand(id))
         == ["winget", "uninstall", "--id", id, "--silent", "--accept-source-agreements"]
  {
    var words := ["winget", "uninstall", "--id", id, "--silent", "--accept-source-agreements"];
    WingetIdIsWord(id);
    LiteralsAreWords();
    Text.FieldsOfSpaced(words);
    SpacedWinget(id);
  }

  lemma WingetIdIsWord(id: string)
    requires WingetId(id)
    ensures Text.Word(id)
  {
    forall i | 0 <= i < |id|
      ensures !Text.IsSpace(id[i])
    {
      assert AlphaNumeric(id[i]) || id[i] in "_.-+";
    }
  }

  lemma LiteralsAreWords()
    ensures Text.Word("winget") && Text.Word("uninstall") && Text.Word("--id") && Text.Word("--silent")
    ensures Text.Word("--accept-source-agreements")
  {
  }

  lemma SpacedCons(w: string, rest: seq<string>)
    requires rest != []
    ensures Text.Spaced([w] + rest) == w + [' '] + Text.Spaced(rest)
  {
    assert ([w] + rest)[1..] == rest;
  }

  lemma BeforeId(x: string)
    ensures "winget" + [' '] + ("uninstall" + [' '] + ("--id" + [' '] + x)) == "winget uninstall --id " + x
  {
    assert "--id" + [' '] + x == "--id " + x;
    assert "uninstall" + [' '] + ("--id " + x) == "uninstall --id " + x;
    assert "winget" + [' '] + ("uninstall --id " + x) == "winget uninstall --id " + x;
  }

  lemma AfterId(id: string)
    ensures id + [' '] + ("--silent" + [' '] + "--accept-source-agreements")
         == id + " --silent --accept-source-agreements"
  {
    var silent := "--silent" + [' '] + "--accept-source-agreements";
    Associative(id, [' '], silent);
    assert [' '] + silent == " --silent --accept-source-agreements";
  }

  lemma SpacedWinget(id: string)
    ensures Text.Spaced(["winget", "uninstall", "--id", id, "--silent", "--accept-source-agreements"])
         == WingetCommand(id)
  {
    var words := ["winget", "uninstall", "--id", id, "--silent", "--accept-source-agreements"];
    SpacedSix(words);
    AfterId(id);
    BeforeId(id + " --silent --accept-source-agreements");
    WingetCommandParts(id);
  }

  lemma SpacedSix(w: seq<string>)
    requires |w| == 6
    ensures Text.Spaced(w)
         == w[0] + [' '] + (w[1] + [' '] + (w[2] + [' '] + (w[3] + [' '] + (w[4] + [' '] + w[5]))))
  {
    forall i | 0 <= i < 5
      ensures Text.Spaced(w[i..]) == w[i] + [' '] + Text.Spaced(w[i + 1..])
    {
      SpacedCons(w[i], w[i + 1..]);
      assert w[i..] == [w[i]] + w[i + 1..];
    }
    assert w[0..] == w && w[5..] == [w[5]] && Text.Spaced(w[5..]) == w[5];
    assert Text.Spaced(w[4..]) == w[4] + [' '] + w[5];
    assert Text.Spaced(w[3..]) == w[3] + [' '] + Text.Spaced(w[4..]);
    assert Text.Spaced(w[2..]) == w[2] + [' '] + Text.Spaced(w[3..]);
    assert Text.Spaced(w[1..]) == w[1] + [' '] + Text.Spaced(w[2..]);
  }

  lemma WingetCommandParts(id: string)
    ensures WingetCommand(id) == "winget uninstall --id " + (id + " --silent --accept-source-agreements")
  {
    Associative("winget uninstall --id ", id, " --silent --accept-source-agreements");
  }

  lemma Associative(a: string, b: string, c: string)
    ensures a + b + c == a + (b + c)
  {
  }

  lemma KeyIsNotEmpty(item: Item)
    ensures KeyOf(item) != ""
  {
  }

  /** Which mechanism is chosen: the product code first, then the quiet command, then winget, and a plan
      exists whenever one of them applies. */
  lemma TierIff(item: Item, key: string)
    ensures var p := Classify(item, key);
      var msi := item.identity.windowsInstaller && NormalizeProductCode(item.identity.productCode).Some?;
      var quiet := CommandLine.ParseQuietUninstall(item.quietUninstallString).Some?;
      var winget := WingetId(item.wingetId);
      && (p.Planned? <==> msi || quiet || winget)
      && (p.Planned? && p.tier.Msi? <==> msi)
      && (p.Planned? && p.tier.Quiet? <==> quiet && !msi)
      && (p.Planned? && p.tier.Winget? <==> winget && !msi && !quiet)
      && (p.Planned? && p.tier.Msi? ==>
            p.jobType == "msiexec_uninstall" && Some(p.payload) == NormalizeProductCode(item.identity.productCode))
      && (p.Planned? && p.tier.Quiet? ==>
            p.jobType == "quiet_uninstall" && p.payload == item.quietUninstallString && p.args == key)
      && (p.Planned? && p.tier.Winget? ==> p.jobType == "winget")
  {
    hide NormalizeProductCode;
  }

  predicate Allowed(c: char) {
    'a' <= c <= 'z' || 'A' <= c <= 'Z' || '0' <= c <= '9' || c == '_' || c == '.' || c == '-' || c == '+'
  }

  /** A winget request is accepted only for a package id of harmless characters. */
  lemma WingetRequestIsPlain(payload: string, args: string)
    requires ValidRequest("winget", payload, args)
    ensures var fields := Text.Fields(payload);
      && |fields| >= 4 && fields[0] == "winget" && fields[1] in ["install", "uninstall"] && fields[2] == "--id"
      && fields[3] != "" && fields[3][0] !in "_.-+"
      && forall i :: 0 <= i < |fields[3]| ==> Allowed(fields[3][i])
  {
    hide Text.Fields;
    assert |"exec"| == 4 && |"winget"| == 6;
    var id := Text.Fields(payload)[3];
    forall i | 0 <= i < |id|
      ensures Allowed(id[i])
    {
      assert AlphaNumeric(id[i]) || id[i] in "_.-+";
    }
  }

  /** What each job type must bring: short text without NUL, one of three words, a product code, or a safe
      command and the key it belongs to. */
  lemma RequestIff(payload: string, args: string)
    ensures ValidRequest("exec", payload, args) <==> ByteLength(payload) <= 8192 && '\0' !in payload
    ensures ValidRequest("file_deploy", payload, args) <==> ByteLength(args) <= 512 && '\0' !in args
    ensures ValidRequest("deepfreeze", payload, args) <==> payload in {"thaw", "freeze", "query_df"}
    ensures ValidRequest("install_ssh", payload, args)
    ensures ValidRequest("msiexec_uninstall", payload, args) <==> NormalizeProductCode(payload).Some?
    ensures ValidRequest("quiet_uninstall", payload, args) <==>
            CommandLine.ParseQuietUninstall(payload).Some? && args != ""
  {
    hide Text.Fields, NormalizeProductCode, CommandLine.ParseQuietUninstall;
    assert "msiexec_uninstall"[0] == 'm' && "quiet_uninstall"[0] == 'q';
    assert "exec"[0] == 'e' && "winget"[0] == 'w' && "file_deploy"[0] == 'f';
    assert "deepfreeze"[0] == 'd' && "install_ssh"[0] == 'i';
    assert ["thaw", "freeze", "query_df"][0] == "thaw" && ["thaw", "freeze", "query_df"][1] == "freeze";
    assert ["thaw", "freeze", "query_df"][2] == "query_df";
  }

  /** On plain ASCII the limits count characters. */
  lemma {:induction false} AsciiBytes(s: string)
    requires forall i :: 0 <= i < |s| ==> s[i] as int < 128
    ensures ByteLength(s) == |s|
  {
    if s != "" {
      AsciiBytes(s[1..]);
    }
  }

  /** Nothing but the known job types is ever accepted. */
  lemma UnknownTypeRefused(jobType: string, payload: string, args: string)
    requires ValidRequest(jobType, payload, args)
    ensures jobType in ["exec", "winget", "file_deploy", "deepfreeze", "install_ssh", "msiexec_uninstall",
                        "quiet_uninstall"]
  {
    hide Text.Fields, NormalizeProductCode, CommandLine.ParseQuietUninstall;
  }

  /** Every plan passes the server's own validation, and names what the row names. */
  lemma PlanIsValid(item: Item)
    requires Classify(item, KeyOf(item)).Planned?
    ensures var p := Classify(item, KeyOf(item));
      && ValidRequest(p.jobType, p.payload, p.args)
      && (p.tier.Msi? ==> MsiGate(p.payload) == Some(p.payload) && KeyOf(item) == "msi:" + p.payload)
      && (p.tier.Winget? ==> Text.Fields(p.payload)[3] == item.wingetId)
  {
    hide CommandLine.ParseQuietUninstall, NormalizeProductCode, Text.Fields;
    var p := Classify(item, KeyOf(item));
    KeyIsNotEmpty(item);
    if p.tier.Msi? {
      NormalizeIsStable(item.identity.productCode);
    } else if p.tier.Winget? {
      WingetCommandFields(item.wingetId);
    }
  }

  /** Every row the table ever holds is planned under its own key. */
  lemma StoredPlanIsValid(tables: seq<Table>, reports: seq<Snapshot>, n: nat, id: RowId)
    requires History(tables, reports) && n <= |reports| && id in tables[n]
    ensures KeyOf(tables[n][id].item) == id.key
    ensures var p := Classify(tables[n][id].item, id.key);
            p.Planned? ==> ValidRequest(p.jobType, p.payload, p.args)
  {
    hide CommandLine.ParseQuietUninstall, Text.Fields, KeyOf, ValidRequest, Classify;
    HistoryMeans(tables, reports, n, id);
    LastOfMeans(reports[Latest(reports, n, id.agent).value].items, id.key);
    if Classify(tables[n][id].item, id.key).Planned? {
      PlanIsValid(tables[n][id].item);
    }
  }

  /**
   A quiet uninstall planned from one snapshot passes the gates of an agent that holds another exactly when
   the two agree on the entry's command. Structural validation never stops it.
   */
  lemma QuietPassesIff(planned: seq<Item>, current: seq<Item>, inventory: map<string, Item>, key: string)
    requires LastOf(planned, key).Some? && Classify(LastOf(planned, key).value, key).Planned?
    requires Classify(LastOf(planned, key).value, key).tier.Quiet?
    requires Mirrors(inventory, current)
    ensures var p := Classify(LastOf(planned, key).value, key);
      && (QuietGates(inventory, p.payload, key).Runs? <==>
            && LastOf(current, key).Some?
            && LastOf(current, key).value.quietUninstallString == LastOf(planned, key).value.quietUninstallString)
      && !QuietGates(inventory, p.payload, key).Unsafe?
  {
    hide CommandLine.ParseQuietUninstall, NormalizeProductCode, LastOf;
  }

  /** In particular one planned from the agent's latest snapshot always passes, and runs what the row says. */
  lemma QuietFromLatestPasses(before: Table, agent: string, items: seq<Item>, now: int, after: Table,
                              inventory: map<string, Item>, key: string)
    requires Replaced(before, agent, items, now, after) && Mirrors(inventory, items)
    requires RowId(agent, key) in after
    requires Classify(after[RowId(agent, key)].item, key).Planned?
    requires Classify(after[RowId(agent, key)].item, key).tier.Quiet?
    ensures var p := Classify(after[RowId(agent, key)].item, key);
      && ValidRequest(p.jobType, p.payload, p.args)
      && QuietGates(inventory, p.payload, p.args)
         == Runs(CommandLine.ParseQuietUninstall(after[RowId(agent, key)].item.quietUninstallString).value)
  {
    hide CommandLine.ParseQuietUninstall, NormalizeProductCode, LastOf, KeyOf, ValidRequest;
    SidesAgree(before, agent, items, now, after, inventory, key);
    PlanIsValid(after[RowId(agent, key)].item);
  }
}
