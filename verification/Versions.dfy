/** Comparing version texts by their runs of digits, and the newest version of a group of rows. */
module Versions {

  predicate Digit(c: char) { '0' <= c <= '9' }

  function RunLength(s: string): (n: nat)
    ensures n <= |s|
  {
    if s == "" || !Digit(s[0]) then 0 else 1 + RunLength(s[1..])
  }

  /** The maximal runs of digits, left to right. */
  function Runs(s: string): seq<string> {
    if s == "" then []
    else if !Digit(s[0]) then Runs(s[1..])
    else [s[..RunLength(s)]] + Runs(s[RunLength(s)..])
  }

  function Decimal(run: string): nat {
    if run == "" then 0
    else Decimal(run[..|run| - 1]) * 10
         + (if Digit(run[|run| - 1]) then run[|run| - 1] as int - '0' as int else 0)
  }

  const MAX_COMPONENT: nat := 0xFFFF_FFFF_FFFF_FFFF

  function Clamped(n: nat): nat { if n > MAX_COMPONENT then MAX_COMPONENT else n }

  function Parts(s: string): (r: seq<nat>)
    ensures |r| == |Runs(s)|
  {
    seq(|Runs(s)|, i requires 0 <= i < |Runs(s)| => Clamped(Decimal(Runs(s)[i])))
  }

  /** extractVersionParts. */
  method ExtractVersionParts(s: string) returns (parts: seq<nat>)
    ensures parts == Parts(s)
  {
    var matches := Runs(s);
    parts := [];
    for i := 0 to |matches|
      invariant parts == Parts(s)[..i]
    {
      var v := Decimal(matches[i]);
      if v > MAX_COMPONENT {
        v := MAX_COMPONENT;
      }
      parts := parts + [v];
    }
  }

  predicate Comparable(s: string) { exists i :: 0 <= i < |s| && Digit(s[i]) }

  /** A text has components exactly when it has a digit. */
  lemma {:induction false} ComparableIff(s: string)
    ensures Runs(s) != [] <==> Comparable(s)
    decreases |s|
  {
    if s != "" {
      if Digit(s[0]) {
        assert Comparable(s);
      } else {
        ComparableIff(s[1..]);
        if Comparable(s) {
          var i :| 0 <= i < |s| && Digit(s[i]);
          assert Digit(s[1..][i - 1]);
        }
        if Comparable(s[1..]) {
          var i :| 0 <= i < |s[1..]| && Digit(s[1..][i]);
          assert Digit(s[i + 1]);
        }
      }
    }
  }

  // ---------------------------------------------------------------- the reference order

  /** Components beyond the last are zero. */
  function Component(parts: seq<nat>, i: nat): nat { if i < |parts| then parts[i] else 0 }

  ghost predicate LessAt(a: seq<nat>, b: seq<nat>, k: nat) {
    Component(a, k) < Component(b, k) && forall i: nat :: i < k ==> Component(a, i) == Component(b, i)
  }

  /** Lexicographic order of the zero-padded components. */
  ghost predicate Less(a: seq<nat>, b: seq<nat>) { exists k: nat :: LessAt(a, b, k) }

  ghost predicate Same(a: seq<nat>, b: seq<nat>) { forall i: nat :: Component(a, i) == Component(b, i) }

  ghost predicate AtMost(a: seq<nat>, b: seq<nat>) { Less(a, b) || Same(a, b) }

  /** CompareVersions. */
  method CompareVersions(installed: string, available: string) returns (cmp: int, ok: bool)
    ensures ok <==> Comparable(installed) && Comparable(available)
    ensures ok ==> (cmp == -1 <==> Less(Parts(installed), Parts(available)))
    ensures ok ==> (cmp == 1 <==> Less(Parts(available), Parts(installed)))
    ensures ok ==> (cmp == 0 <==> Same(Parts(installed), Parts(available)))
    ensures -1 <= cmp <= 1
  {
    hide Comparable, Parts, Less, Same;
    var a := ExtractVersionParts(installed);
    var b := ExtractVersionParts(available);
    ComparableIff(installed);
    ComparableIff(available);
    if |a| == 0 || |b| == 0 {
      return 0, false;
    }
    var n := |a|;
    if |b| > n {
      n := |b|;
    }
    for i := 0 to n
      invariant forall k: nat :: k < i ==> Component(a, k) == Component(b, k)
    {
      var av, bv := 0, 0;
      if i < |a| {
        av := a[i];
      }
      if i < |b| {
        bv := b[i];
      }
      if av != bv {
        if av < bv {
          DecidedAt(a, b, i);
          return -1, true;
        }
        DecidedAt(b, a, i);
        return 1, true;
      }
    }
    Undecided(a, b);
    cmp, ok := 0, true;
  }

  lemma DecidedAt(a: seq<nat>, b: seq<nat>, k: nat)
    requires LessAt(a, b, k)
    ensures Less(a, b) && !Less(b, a) && !Same(a, b) && !Same(b, a)
  {
    forall j: nat
      ensures !LessAt(b, a, j)
    {
    }
    assert Component(a, k) != Component(b, k);
  }

  lemma Undecided(a: seq<nat>, b: seq<nat>)
    requires forall k: nat :: k < |a| || k < |b| ==> Component(a, k) == Component(b, k)
    ensures Same(a, b) && !Less(a, b) && !Less(b, a)
  {
  }

  /** The order is total, and its two halves exclude each other. */
  lemma OrderIsTotal(a: seq<nat>, b: seq<nat>)
    ensures AtMost(a, b) || AtMost(b, a)
    ensures AtMost(a, b) && AtMost(b, a) <==> Same(a, b)
    ensures AtMost(a, b) <==> !Less(b, a)
  {
    if Same(a, b) {
    } else {
      var k := FirstDifference(a, b);
      if Component(a, k) < Component(b, k) {
        DecidedAt(a, b, k);
      } else {
        DecidedAt(b, a, k);
      }
    }
  }

  lemma FirstDifference(a: seq<nat>, b: seq<nat>) returns (k: nat)
    requires !Same(a, b)
    ensures Component(a, k) != Component(b, k) && forall i: nat :: i < k ==> Component(a, i) == Component(b, i)
  {
    k := 0;
    while Component(a, k) == Component(b, k)
      invariant forall i: nat :: i < k ==> Component(a, i) == Component(b, i)
      decreases |a| + |b| - k
    {
      k := k + 1;
      if k > |a| + |b| {
        Undecided(a, b);
      }
    }
  }

  lemma OrderIsTransitive(a: seq<nat>, b: seq<nat>, c: seq<nat>)
    requires AtMost(a, b) && AtMost(b, c)
    ensures AtMost(a, c)
    ensures Less(a, b) || Less(b, c) ==> Less(a, c)
  {
    if j: nat :| LessAt(a, b, j) {
      if k: nat :| LessAt(b, c, k) {
        assert LessAt(a, c, if j < k then j else k);
      } else {
        assert LessAt(a, c, j);
      }
    } else {
      if k: nat :| LessAt(b, c, k) {
        assert LessAt(a, c, k);
      }
    }
  }

  // ---------------------------------------------------------------- separators and padding

  lemma {:induction false} RunLengthBefore(a: string, sep: char, b: string)
    requires !Digit(sep)
    ensures RunLength(a + [sep] + b) == RunLength(a)
    decreases |a|
  {
    if a != "" && Digit(a[0]) {
      RunLengthBefore(a[1..], sep, b);
      assert (a + [sep] + b)[1..] == a[1..] + [sep] + b;
    }
  }

  /** A character that is no digit separates: what is left and right of it contributes independently. */
  lemma {:induction false} RunsSplit(a: string, sep: char, b: string)
    requires !Digit(sep)
    ensures Runs(a + [sep] + b) == Runs(a) + Runs(b)
    decreases |a|
  {
    var s := a + [sep] + b;
    if a == "" {
      assert s[1..] == b;
    } else if !Digit(a[0]) {
      RunsSplit(a[1..], sep, b);
      assert s[1..] == a[1..] + [sep] + b;
    } else {
      var n := RunLength(a);
      RunLengthBefore(a, sep, b);
      RunsSplit(a[n..], sep, b);
      assert s[n..] == a[n..] + [sep] + b;
      assert s[..n] == a[..n];
    }
  }

  /** "1.2" is "1.2.0", and any text in front of a separator that holds no digit is ignored. */
  lemma PaddingIsIgnored(s: string, prefix: string)
    requires !Comparable(prefix)
    ensures Same(Parts(s), Parts(s + ['.'] + "0"))
    ensures Parts(prefix + ['v'] + s) == Parts(s)
  {
    RunsSplit(s, '.', "0");
    assert Runs("0") == ["0"] by {
      assert RunLength("0") == 1 by { assert RunLength("0"[1..]) == 0; }
      assert "0"[..1] == "0" && Runs("0"[1..]) == [];
    }
    assert Decimal("0") == 0;
    RunsSplit(prefix, 'v', s);
    ComparableIff(prefix);
    assert Runs(prefix) + Runs(s) == Runs(s);
  }

  // ---------------------------------------------------------------- versions as they are written

  function DigitChar(d: nat): char
    requires d < 10
  {
    ('0' as int + d) as char
  }

  /** A number in decimal. */
  function Numeral(n: nat): string {
    if n < 10 then [DigitChar(n)] else Numeral(n / 10) + [DigitChar(n % 10)]
  }

  /** Numbers in decimal with dots between, "1.2.3". */
  function Dotted(ns: seq<nat>): string {
    if ns == [] then ""
    else if |ns| == 1 then Numeral(ns[0])
    else Numeral(ns[0]) + ['.'] + Dotted(ns[1..])
  }

  /** Reading a numeral gives the number back. */
  lemma {:induction false} NumeralMeans(n: nat)
    ensures Decimal(Numeral(n)) == n && Numeral(n) != ""
    ensures forall i :: 0 <= i < |Numeral(n)| ==> Digit(Numeral(n)[i])
  {
    var s := Numeral(n);
    if n < 10 {
      assert s[..0] == "";
    } else {
      NumeralMeans(n / 10);
      assert s[..|s| - 1] == Numeral(n / 10);
    }
  }

  lemma {:induction false} OneRun(s: string)
    requires s != "" && forall i :: 0 <= i < |s| ==> Digit(s[i])
    ensures Runs(s) == [s]
  {
    AllOneRun(s);
    assert s[..|s|] == s && s[|s|..] == "";
  }

  lemma {:induction false} AllOneRun(s: string)
    requires forall i :: 0 <= i < |s| ==> Digit(s[i])
    ensures RunLength(s) == |s|
  {
    if s != "" {
      AllOneRun(s[1..]);
    }
  }

  lemma {:induction false} DottedRuns(ns: seq<nat>)
    ensures |Runs(Dotted(ns))| == |ns| && forall i :: 0 <= i < |ns| ==> Runs(Dotted(ns))[i] == Numeral(ns[i])
  {
    if ns != [] {
      NumeralMeans(ns[0]);
      OneRun(Numeral(ns[0]));
      if |ns| > 1 {
        RunsSplit(Numeral(ns[0]), '.', Dotted(ns[1..]));
        DottedRuns(ns[1..]);
      }
    }
  }

  /** A dotted version has its numbers as components; one beyond 64 bits counts as the largest. */
  lemma DottedParts(ns: seq<nat>)
    ensures |Parts(Dotted(ns))| == |ns|
    ensures forall i :: 0 <= i < |ns| ==>
      Parts(Dotted(ns))[i] == if ns[i] <= 18446744073709551615 then ns[i] else 18446744073709551615
  {
    DottedRuns(ns);
    forall i | 0 <= i < |ns|
      ensures Decimal(Runs(Dotted(ns))[i]) == ns[i]
    {
      NumeralMeans(ns[i]);
    }
  }

  /** So the order is that of the numbers, the first difference deciding: "1.9" is before "1.10". */
  lemma DottedOrder(ns: seq<nat>, ms: seq<nat>, k: nat)
    requires k < |ns| && k < |ms| && ns[..k] == ms[..k] && ns[k] < ms[k] && ns[k] < 18446744073709551615
    ensures Less(Parts(Dotted(ns)), Parts(Dotted(ms)))
  {
    DottedParts(ns);
    DottedParts(ms);
    assert forall i :: 0 <= i < k ==> ns[i] == ns[..k][i] && ms[i] == ms[..k][i];
    assert LessAt(Parts(Dotted(ns)), Parts(Dotted(ms)), k);
  }

  // ---------------------------------------------------------------- the newest of a group

  function FirstNonEmpty(versions: seq<string>): string {
    if versions == [] then "" else if versions[0] != "" then versions[0] else FirstNonEmpty(versions[1..])
  }

  ghost predicate Dominates(newest: string, v: string) {
    Comparable(newest) && AtMost(Parts(v), Parts(newest))
  }

  ghost predicate DominatesAll(newest: string, versions: seq<string>) {
    forall v :: v in versions && Comparable(v) ==> Dominates(newest, v)
  }

  /** What the loop has established about the versions seen. */
  ghost predicate NewestSoFar(newest: string, versions: seq<string>) {
    && (newest == "" <==> FirstNonEmpty(versions) == "")
    && (newest != "" ==> newest in versions)
    && (Comparable(FirstNonEmpty(versions)) ==> DominatesAll(newest, versions))
    && (Comparable(FirstNonEmpty(versions)) ==> Comparable(newest))
    && (!Comparable(FirstNonEmpty(versions)) ==> newest == FirstNonEmpty(versions))
  }

  lemma {:induction false} FirstNonEmptySnoc(versions: seq<string>, v: string)
    ensures FirstNonEmpty(versions + [v]) == if FirstNonEmpty(versions) == "" then v else FirstNonEmpty(versions)
  {
    if versions == [] {
      assert versions + [v] == [v];
    } else {
      FirstNonEmptySnoc(versions[1..], v);
      assert (versions + [v])[1..] == versions[1..] + [v];
    }
  }

  /** The newest moves up: everything below the one it replaces stays below. */
  lemma DominatesMoves(newest: string, v: string, versions: seq<string>)
    requires DominatesAll(newest, versions) && Comparable(newest)
    ensures Comparable(v) && Less(Parts(newest), Parts(v)) ==> DominatesAll(v, versions + [v])
    ensures !(Comparable(v) && Less(Parts(newest), Parts(v))) ==> DominatesAll(newest, versions + [v])
  {
    hide Comparable, Parts;
    forall u | u in versions && Comparable(u) && Less(Parts(newest), Parts(v))
      ensures AtMost(Parts(u), Parts(v))
    {
      assert Dominates(newest, u);
      OrderIsTransitive(Parts(u), Parts(newest), Parts(v));
    }
    OrderIsTotal(Parts(v), Parts(newest));
    assert Same(Parts(v), Parts(v));
  }

  lemma NewestStep(newest: string, v: string, versions: seq<string>, next: string)
    requires NewestSoFar(newest, versions)
    requires next == if v == "" then newest else if newest == "" then v
                     else if Comparable(newest) && Comparable(v) && Less(Parts(newest), Parts(v)) then v else newest
    ensures NewestSoFar(next, versions + [v])
  {
    hide Parts, DominatesAll, Less;
    FirstNonEmptySnoc(versions, v);
    if newest == "" {
      AllEmpty(versions, v);
    } else if Comparable(newest) {
      DominatesMoves(newest, v, versions);
    }
  }

  lemma AllEmpty(versions: seq<string>, v: string)
    requires FirstNonEmpty(versions) == ""
    ensures Comparable(v) ==> DominatesAll(v, versions + [v])
  {
    NonEmptyFirst(versions);
    assert Same(Parts(v), Parts(v));
  }

  lemma {:induction false} NonEmptyFirst(versions: seq<string>)
    ensures FirstNonEmpty(versions) == "" <==> forall v :: v in versions ==> v == ""
    ensures FirstNonEmpty(versions) != "" ==> FirstNonEmpty(versions) in versions
  {
    if versions != [] {
      assert versions[0] in versions;
      NonEmptyFirst(versions[1..]);
      assert forall v :: v in versions <==> v == versions[0] || v in versions[1..];
    }
  }

  /** The newest after each row, as the loop updates it. */
  ghost function NewestOf(versions: seq<string>): string {
    if versions == [] then ""
    else
      var newest, v := NewestOf(versions[..|versions| - 1]), versions[|versions| - 1];
      if v == "" then newest
      else if newest == "" then v
      else if Comparable(newest) && Comparable(v) && Less(Parts(newest), Parts(v)) then v
      else newest
  }

  /** A first version without a digit is never replaced, whatever follows. */
  lemma StuckAtFirst()
    ensures NewestOf(["beta", "1.2"]) == "beta" && !DominatesAll("beta", ["beta", "1.2"])
  {
    var versions := ["beta", "1.2"];
    assert versions[..1] == ["beta"] && ["beta"][..0] == [];
    assert NewestOf(["beta"]) == "beta";
    assert !Comparable("beta");
    assert Comparable("1.2") by { assert Digit("1.2"[0]); }
    assert !Dominates("beta", "1.2") && "1.2" in versions;
  }

  lemma NoneSeen()
    ensures NewestSoFar("", [])
  {
  }

  lemma NewestAtEnd(newest: string, versions: seq<string>)
    requires NewestSoFar(newest, versions)
    ensures newest == "" <==> forall v :: v in versions ==> v == ""
    ensures DominatesAll(newest, versions)
            <==> Comparable(FirstNonEmpty(versions)) || forall v :: v in versions ==> !Comparable(v)
  {
    hide Comparable, Parts, AtMost;
    NonEmptyFirst(versions);
    if !Comparable(FirstNonEmpty(versions)) {
      if v :| v in versions && Comparable(v) {
        assert !Dominates(newest, v);
      }
    }
  }

  /**
   The newest version of aggregateOneSoftwareGroup, over the rows' available versions. It is an upper bound
   of every comparable version exactly when the first version present is comparable, or none is.
   */
  method NewestAvailable(versions: seq<string>) returns (newest: string)
    ensures newest == NewestOf(versions)
    ensures newest == "" <==> forall v :: v in versions ==> v == ""
    ensures newest != "" ==> newest in versions
    ensures DominatesAll(newest, versions)
            <==> Comparable(FirstNonEmpty(versions)) || forall v :: v in versions ==> !Comparable(v)
  {
    hide Comparable, Parts, DominatesAll, Less;
    newest := "";
    NoneSeen();
    for i := 0 to |versions|
      invariant newest == NewestOf(versions[..i]) && NewestSoFar(newest, versions[..i])
    {
      var v := versions[i];
      ghost var before := newest;
      assert versions[..i + 1] == versions[..i] + [v] && versions[..i + 1][..i] == versions[..i];
      if v != "" {
        if newest == "" {
          newest := v;
        } else {
          var cmp, ok := CompareVersions(newest, v);
          if ok && cmp < 0 {
            newest := v;
          }
        }
      }
      NewestStep(before, v, versions[..i], newest);
    }
    assert versions[..|versions|] == versions;
    NewestAtEnd(newest, versions);
  }

  /** When every version present is comparable, the rows' order decides nothing but the spelling. */
  lemma NewestOrderIndependent(a: seq<string>, b: seq<string>, x: string, y: string)
    requires forall v :: v in a <==> v in b
    requires forall v :: v in a && v != "" ==> Comparable(v)
    requires x in a && x != "" && DominatesAll(x, a)
    requires y in b && y != "" && DominatesAll(y, b)
    ensures Same(Parts(x), Parts(y))
  {
    hide Comparable, Parts, Less, Same;
    assert Dominates(x, y) && Dominates(y, x);
    OrderIsTotal(Parts(x), Parts(y));
  }
}
