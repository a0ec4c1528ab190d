/** The uninstall command line: splitting it into arguments and the gate in front of executing it. */
module CommandLine {
  import opened Basics
  import opened Text

  const QUOTE := '"'

  predicate Blank(c: char) { c == ' ' || c == '\t' }

  /** The tokenizer's local variables. */
  datatype Scan = Scan(tokens: seq<string>, current: string, quoted: bool, started: bool)

  const START := Scan([], "", false, false)

  function Step(s: Scan, c: char): Scan {
    if c == QUOTE then s.(quoted := !s.quoted, started := true)
    else if !Blank(c) || s.quoted then s.(current := s.current + [c], started := s.started || !Blank(c))
    else if s.started then Scan(s.tokens + [s.current], "", false, false)
    else s
  }

  function ScanAll(s: Scan, text: string): Scan
    decreases text
  {
    if text == "" then s else ScanAll(Step(s, text[0]), text[1..])
  }

  function Finish(s: Scan): Option<seq<string>> {
    if s.quoted then None
    else if s.started then Some(s.tokens + [s.current])
    else Some(s.tokens)
  }

  function Tokens(text: string): Option<seq<string>> { Finish(ScanAll(START, text)) }

  /** tokenizeCommandLine. */
  method TokenizeCommandLine(text: string) returns (r: Option<seq<string>>)
    ensures r == Tokens(text)
  {
    var tokens: seq<string>, current := [], "";
    var inQuotes, hasToken := false, false;
    for i := 0 to |text|
      invariant ScanAll(START, text) == ScanAll(Scan(tokens, current, inQuotes, hasToken), text[i..])
    {
      var c := text[i];
      assert text[i..][1..] == text[i + 1..];
      if c == QUOTE {
        inQuotes, hasToken := !inQuotes, true;
      } else if Blank(c) {
        if inQuotes {
          current := current + [c];
        } else if hasToken {
          tokens, current, hasToken := tokens + [current], "", false;
        }
      } else {
        current, hasToken := current + [c], true;
      }
    }
    if inQuotes {
      return None;
    }
    if hasToken {
      tokens := tokens + [current];
    }
    r := Some(tokens);
  }

  lemma {:induction false} ScanConcat(s: Scan, a: string, b: string)
    ensures ScanAll(s, a + b) == ScanAll(ScanAll(s, a), b)
    decreases a
  {
    if a == "" {
      assert a + b == b;
    } else {
      ScanConcat(Step(s, a[0]), a[1..], b);
      assert (a + b)[1..] == a[1..] + b;
    }
  }

  // ---------------------------------------------------------------- when it fails

  function Quotes(text: string): nat {
    if text == "" then 0 else (if text[0] == QUOTE then 1 else 0) + Quotes(text[1..])
  }

  lemma {:induction false} QuotedIsParity(s: Scan, text: string)
    ensures ScanAll(s, text).quoted <==> (s.quoted <==> Quotes(text) % 2 == 0)
    decreases text
  {
    if text != "" {
      QuotedIsParity(Step(s, text[0]), text[1..]);
    }
  }

  /** Tokenizing fails exactly on an odd number of quotes. */
  lemma FailsIffOddQuotes(text: string)
    ensures Tokens(text).None? <==> Quotes(text) % 2 == 1
  {
    QuotedIsParity(START, text);
  }

  // ---------------------------------------------------------------- what it keeps

  /** The characters an argument list is made of: no quote, and a blank only inside quotes. */
  function Payload(text: string, quoted: bool): string {
    if text == "" then ""
    else if text[0] == QUOTE then Payload(text[1..], !quoted)
    else if (text[0] == ' ' || text[0] == '\t') && !quoted then Payload(text[1..], quoted)
    else [text[0]] + Payload(text[1..], quoted)
  }

  function Flat(tokens: seq<string>): string {
    if tokens == [] then "" else Flat(tokens[..|tokens| - 1]) + tokens[|tokens| - 1]
  }

  lemma FlatSnoc(tokens: seq<string>, t: string)
    ensures Flat(tokens + [t]) == Flat(tokens) + t
  {
    assert (tokens + [t])[..|tokens|] == tokens;
  }

  predicate Sensible(s: Scan) {
    s.started || (s.current == "" && !s.quoted)
  }

  function Kept(s: Scan): string { Flat(s.tokens) + s.current }

  lemma KeptStep(s: Scan, c: char)
    requires Sensible(s)
    ensures Sensible(Step(s, c))
    ensures Kept(Step(s, c)) == Kept(s) + (if c == QUOTE || (Blank(c) && !s.quoted) then "" else [c])
  {
    FlatSnoc(s.tokens, s.current);
  }

  lemma {:induction false} KeptScan(s: Scan, text: string)
    requires Sensible(s)
    ensures Sensible(ScanAll(s, text))
    ensures Kept(ScanAll(s, text)) == Kept(s) + Payload(text, s.quoted)
    decreases text
  {
    if text != "" {
      KeptStep(s, text[0]);
      KeptScan(Step(s, text[0]), text[1..]);
    }
  }

  /** No character of an argument is lost, invented or moved. */
  lemma NothingLost(text: string)
    requires Tokens(text).Some?
    ensures Flat(Tokens(text).value) == Payload(text, false)
  {
    var s := ScanAll(START, text);
    KeptScan(START, text);
    assert Kept(START) + Payload(text, false) == Payload(text, false);
    assert s.current == "" ==> Kept(s) == Flat(s.tokens);
    FlatSnoc(s.tokens, s.current);
  }

  // ---------------------------------------------------------------- plain words

  predicate PlainWord(t: string) { t != "" && ' ' !in t && '\t' !in t && QUOTE !in t }

  /** Words with one blank after each, as people write command lines. */
  function Spelled(words: seq<string>, blanks: seq<char>): string
    requires |blanks| == |words|
  {
    if words == [] then "" else words[0] + [blanks[0]] + Spelled(words[1..], blanks[1..])
  }

  lemma {:induction false} ScanPlain(s: Scan, t: string)
    requires !s.quoted && ' ' !in t && '\t' !in t && QUOTE !in t
    ensures ScanAll(s, t) == s.(current := s.current + t, started := s.started || t != "")
    decreases t
  {
    if t == "" {
      assert s.current + t == s.current;
    } else {
      ScanPlain(Step(s, t[0]), t[1..]);
      assert s.current + t == s.current + [t[0]] + t[1..];
    }
  }

  lemma ScanWord(done: seq<string>, t: string, c: char, rest: string)
    requires PlainWord(t) && (c == ' ' || c == '\t')
    ensures ScanAll(Scan(done, "", false, false), t + [c] + rest) == ScanAll(Scan(done + [t], "", false, false), rest)
  {
    hide ScanAll;
    var s := Scan(done, "", false, false);
    ScanPlain(s, t);
    assert "" + t == t;
    ScanConcat(s, t + [c], rest);
    ScanConcat(s, t, [c]);
    ScanOne(Scan(done, t, false, true), c);
  }

  lemma {:induction false} ScanSpelled(done: seq<string>, words: seq<string>, blanks: seq<char>)
    requires |blanks| == |words| && forall i :: 0 <= i < |words| ==> PlainWord(words[i])
    requires forall i :: 0 <= i < |blanks| ==> blanks[i] == ' ' || blanks[i] == '\t'
    ensures Finish(ScanAll(Scan(done, "", false, false), Spelled(words, blanks))) == Some(done + words)
    decreases words
  {
    hide Step;
    if words == [] {
      assert done + words == done;
    } else {
      ScanWord(done, words[0], blanks[0], Spelled(words[1..], blanks[1..]));
      ScanSpelled(done + [words[0]], words[1..], blanks[1..]);
      assert done + words == done + [words[0]] + words[1..];
    }
  }

  /** Plain words come out as written, whether spaces or tabs separate them. */
  lemma WordsSplit(words: seq<string>, blanks: seq<char>)
    requires |blanks| == |words| && forall i :: 0 <= i < |words| ==> PlainWord(words[i])
    requires forall i :: 0 <= i < |blanks| ==> blanks[i] == ' ' || blanks[i] == '\t'
    ensures Tokens(Spelled(words, blanks)) == Some(words)
  {
    ScanSpelled([], words, blanks);
    assert [] + words == words;
  }

  // ---------------------------------------------------------------- quoting back

  predicate NoQuote(t: string) { QUOTE !in t }

  predicate NoQuotes(tokens: seq<string>) {
    forall i :: 0 <= i < |tokens| ==> NoQuote(tokens[i])
  }

  function Quoted(t: string): string { [QUOTE] + t + [QUOTE] }

  /** Every token in quotes, one space between. */
  function Joined(tokens: seq<string>): string {
    if tokens == [] then ""
    else if |tokens| == 1 then Quoted(tokens[0])
    else Quoted(tokens[0]) + [' '] + Joined(tokens[1..])
  }

  lemma {:induction false} ScanInside(s: Scan, t: string)
    requires s.quoted && s.started && NoQuote(t)
    ensures ScanAll(s, t) == s.(current := s.current + t)
    decreases t
  {
    if t != "" {
      ScanInside(Step(s, t[0]), t[1..]);
      assert s.current + t == s.current + [t[0]] + t[1..];
    }
  }

  lemma ScanOne(s: Scan, c: char)
    ensures ScanAll(s, [c]) == Step(s, c)
  {
    assert [c][1..] == "";
    assert ScanAll(Step(s, c), "") == Step(s, c);
  }

  lemma ScanQuoted(s: Scan, t: string)
    requires !s.quoted && !s.started && s.current == "" && NoQuote(t)
    ensures ScanAll(s, Quoted(t)) == Scan(s.tokens, t, false, true)
  {
    hide ScanAll;
    var inner := s.(quoted := true, started := true);
    ScanOne(s, QUOTE);
    ScanInside(inner, t);
    ScanOne(inner.(current := t), QUOTE);
    ScanConcat(s, [QUOTE] + t, [QUOTE]);
    ScanConcat(s, [QUOTE], t);
    assert "" + t == t;
  }

  lemma ScanFirst(done: seq<string>, t: string, rest: string)
    requires NoQuote(t)
    ensures ScanAll(Scan(done, "", false, false), Quoted(t) + [' '] + rest)
         == ScanAll(Scan(done + [t], "", false, false), rest)
  {
    hide ScanAll, Quoted;
    var s := Scan(done, "", false, false);
    ScanQuoted(s, t);
    ScanConcat(s, Quoted(t) + [' '], rest);
    ScanConcat(s, Quoted(t), [' ']);
    ScanOne(Scan(done, t, false, true), ' ');
  }

  lemma {:induction false} ScanJoined(done: seq<string>, tokens: seq<string>)
    requires NoQuotes(tokens)
    ensures Finish(ScanAll(Scan(done, "", false, false), Joined(tokens))) == Some(done + tokens)
    decreases tokens
  {
    hide Quoted, Step;
    if tokens == [] {
      assert done + tokens == done;
    } else if |tokens| == 1 {
      ScanQuoted(Scan(done, "", false, false), tokens[0]);
      assert tokens == [tokens[0]];
    } else {
      ScanFirst(done, tokens[0], Joined(tokens[1..]));
      ScanJoined(done + [tokens[0]], tokens[1..]);
      assert done + tokens == done + [tokens[0]] + tokens[1..];
    }
  }

  /** Tokenizing undoes quoting, for empty tokens and tokens with blanks too. */
  lemma TokenizeUndoesQuoting(tokens: seq<string>)
    requires NoQuotes(tokens)
    ensures Tokens(Joined(tokens)) == Some(tokens)
  {
    ScanJoined([], tokens);
    assert [] + tokens == tokens;
  }

  predicate Clean(s: Scan) { NoQuotes(s.tokens) && NoQuote(s.current) }

  lemma {:induction false} CleanScan(s: Scan, text: string)
    requires Clean(s)
    ensures Clean(ScanAll(s, text))
    decreases text
  {
    if text != "" {
      CleanScan(Step(s, text[0]), text[1..]);
    }
  }

  /** Quoting undoes tokenizing, up to spelling: what was split and quoted again splits the same way. */
  lemma RequotingIsStable(text: string)
    requires Tokens(text).Some?
    ensures NoQuotes(Tokens(text).value)
    ensures Tokens(Joined(Tokens(text).value)) == Tokens(text)
  {
    CleanScan(START, text);
    TokenizeUndoesQuoting(Tokens(text).value);
  }

  // ---------------------------------------------------------------- the gate

  const BLOCKED_HOSTS: set<string> := {
    "cmd.exe", "powershell.exe", "pwsh.exe", "wscript.exe", "cscript.exe", "mshta.exe", "rundll32.exe",
    "regsvr32.exe", "cmstp.exe", "installutil.exe", "msbuild.exe", "forfiles.exe", "certutil.exe",
    "bitsadmin.exe", "wmic.exe", "conhost.exe", "control.exe"
  }

  /** The letters a case-insensitive A to Z class accepts. */
  predicate DriveLetter(c: char) {
    'a' <= c <= 'z' || 'A' <= c <= 'Z' || c == '\U{017F}' || c == '\U{212A}'
  }

  /** absoluteExePathRe. */
  predicate AbsoluteExePath(p: string) {
    && |p| >= 8
    && DriveLetter(p[0]) && p[1] == ':' && p[2] == '\\' && p[3] != '\\'
    && (forall i :: 4 <= i < |p| - 4 ==> p[i] != '\n')
    && Lower(p[|p| - 4..]) == ".exe"
  }

  function BaseName(p: string): string {
    if p == "" then ""
    else if '\\' in p[1..] then BaseName(p[1..])
    else if p[0] == '\\' then p[1..]
    else p
  }

  predicate SafeProgram(p: string) {
    AbsoluteExePath(p) && Lower(BaseName(p)) !in BLOCKED_HOSTS
  }

  datatype Invocation = Invocation(program: string, arguments: seq<string>)

  /** ParseQuietUninstallCommand. */
  function ParseQuietUninstall(raw: string): Option<Invocation> {
    if raw == "" || '\0' in raw then None
    else
      var tokens := Tokens(raw);
      if tokens.None? || |tokens.value| == 0 then None
      else if !SafeProgram(tokens.value[0]) then None
      else Some(Invocation(tokens.value[0], tokens.value[1..]))
  }

  predicate NoNul(t: string) { '\0' !in t }

  predicate NoNuls(tokens: seq<string>) {
    forall i :: 0 <= i < |tokens| ==> NoNul(tokens[i])
  }

  lemma {:induction false} JoinedNoNul(tokens: seq<string>)
    requires NoNuls(tokens)
    ensures NoNul(Joined(tokens))
  {
    if |tokens| > 1 {
      JoinedNoNul(tokens[1..]);
    }
  }

  /** Every argument list over a safe program is reachable: quoted, it passes the gate unchanged. */
  lemma QuotedInvocationPasses(i: Invocation)
    requires SafeProgram(i.program) && NoQuotes([i.program] + i.arguments) && NoNuls([i.program] + i.arguments)
    ensures ParseQuietUninstall(Joined([i.program] + i.arguments)) == Some(i)
  {
    var tokens := [i.program] + i.arguments;
    TokenizeUndoesQuoting(tokens);
    JoinedNoNul(tokens);
    assert Joined(tokens)[0] == QUOTE;
    assert tokens[1..] == i.arguments;
  }

  predicate ScanNoNul(s: Scan) { NoNuls(s.tokens) && NoNul(s.current) }

  lemma {:induction false} NoNulScan(s: Scan, text: string)
    requires ScanNoNul(s) && NoNul(text)
    ensures ScanNoNul(ScanAll(s, text))
    decreases text
  {
    if text != "" {
      NoNulScan(Step(s, text[0]), text[1..]);
    }
  }

  /** What the gate lets through is exactly one of those: quoting it again gives the same invocation. */
  lemma PassedIsStable(raw: string)
    requires ParseQuietUninstall(raw).Some?
    ensures var i := ParseQuietUninstall(raw).value;
      && SafeProgram(i.program) && NoQuotes([i.program] + i.arguments) && NoNuls([i.program] + i.arguments)
      && ParseQuietUninstall(Joined([i.program] + i.arguments)) == Some(i)
  {
    var i := ParseQuietUninstall(raw).value;
    var tokens := Tokens(raw).value;
    assert [i.program] + i.arguments == tokens;
    RequotingIsStable(raw);
    NoNulScan(START, raw);
    QuotedInvocationPasses(i);
  }

  // ---------------------------------------------------------------- which programs pass

  lemma {:induction false} BaseNameAfter(dir: string, base: string)
    requires '\\' !in base
    ensures BaseName(dir + ['\\'] + base) == base
    decreases |dir|
  {
    var p := dir + ['\\'] + base;
    if dir == "" {
      assert p[1..] == base;
    } else {
      assert p[1..] == dir[1..] + ['\\'] + base;
      assert p[1..][|dir| - 1] == '\\';
      BaseNameAfter(dir[1..], base);
    }
  }

  /** A program passes exactly when it is a full local path to an ".exe" that hosts no scripts or shells. */
  lemma ProgramPassesIff(raw: string, dir: string, base: string)
    requires NoNul(raw) && Tokens(raw).Some? && |Tokens(raw).value| > 0
    requires Tokens(raw).value[0] == dir + ['\\'] + base && '\\' !in base
    ensures var p := dir + ['\\'] + base;
      ParseQuietUninstall(raw).Some? <==>
        && |p| >= 8 && DriveLetter(p[0]) && p[1] == ':' && p[2] == '\\' && p[3] != '\\'
        && '\n' !in p[4..|p| - 4] && EqualFold(p[|p| - 4..], ".exe")
        && Lower(base) !in {"cmd.exe", "powershell.exe", "pwsh.exe", "wscript.exe", "cscript.exe", "mshta.exe",
                            "rundll32.exe", "regsvr32.exe", "cmstp.exe", "installutil.exe", "msbuild.exe",
                            "forfiles.exe", "certutil.exe", "bitsadmin.exe", "wmic.exe", "conhost.exe", "control.exe"}
  {
    hide Tokens;
    BaseNameAfter(dir, base);
    TokensNeedText(raw);
    NoNewline(dir + ['\\'] + base);
    assert Lower(".exe") == ".exe";
  }

  lemma TokensNeedText(raw: string)
    requires Tokens(raw).Some? && |Tokens(raw).value| > 0
    ensures raw != ""
  {
  }

  lemma NoNewline(p: string)
    ensures |p| >= 8 ==> ('\n' !in p[4..|p| - 4] <==> forall i :: 4 <= i < |p| - 4 ==> p[i] != '\n')
  {
    if |p| >= 8 {
      var q := p[4..|p| - 4];
      assert forall i :: 4 <= i < |p| - 4 ==> q[i - 4] == p[i];
      assert forall i :: 0 <= i < |q| ==> q[i] == p[i + 4];
    }
  }

  /** A program given without any directory never passes. */
  lemma BareProgramRefused(raw: string)
    requires Tokens(raw).Some? && |Tokens(raw).value| > 0 && '\\' !in Tokens(raw).value[0]
    ensures ParseQuietUninstall(raw).None?
  {
    hide Tokens;
  }
}
