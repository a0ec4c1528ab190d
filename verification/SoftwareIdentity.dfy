/** What counts as the same installed software: product codes and identity keys. */
module SoftwareIdentity {
  import opened Basics
  import opened Text

  predicate Hex(c: char) { '0' <= c <= '9' || 'A' <= c <= 'F' || 'a' <= c <= 'f' }

  predicate Dash(i: int) { i == 8 || i == 13 || i == 18 || i == 23 }

  predicate Guid(s: string) {
    |s| == 36 && forall i :: 0 <= i < 36 ==> if Dash(i) then s[i] == '-' else Hex(s[i])
  }

  /** Either brace may be missing. */
  function WithoutBraces(s: string): string {
    var t := if s != "" && s[0] == '{' then s[1..] else s;
    if t != "" && t[|t| - 1] == '}' then t[..|t| - 1] else t
  }

  /** NormalizeProductCode. */
  function NormalizeProductCode(raw: string): Option<string> {
    var body := WithoutBraces(Trim(raw));
    if Guid(body) then Some(['{'] + Upper(body) + ['}']) else None
  }

  predicate HexText(s: string, n: nat) {
    |s| == n && forall i :: 0 <= i < n ==>
      s[i] in "0123456789abcdefABCDEF"
  }

  lemma HexMeans(c: char)
    ensures Hex(c) <==> c in "0123456789abcdefABCDEF"
  {
    var digits := "0123456789abcdefABCDEF";
    if '0' <= c <= '9' {
      assert digits[c as int - '0' as int] == c;
    } else if 'a' <= c <= 'f' {
      assert digits[c as int - 'a' as int + 10] == c;
    } else if 'A' <= c <= 'F' {
      assert digits[c as int - 'A' as int + 16] == c;
    }
  }

  function Groups(a: string, b: string, c: string, d: string, e: string): string {
    a + ['-'] + b + ['-'] + c + ['-'] + d + ['-'] + e
  }

  predicate FiveGroups(a: string, b: string, c: string, d: string, e: string) {
    HexText(a, 8) && HexText(b, 4) && HexText(c, 4) && HexText(d, 4) && HexText(e, 12)
  }

  /** A code is five groups of hexadecimal digits, 8-4-4-4-12. */
  lemma GuidIff(s: string)
    ensures Guid(s) <==> exists a, b, c, d, e :: FiveGroups(a, b, c, d, e) && s == Groups(a, b, c, d, e)
  {
    forall c: char
      ensures Hex(c) <==> c in "0123456789abcdefABCDEF"
    {
      HexMeans(c);
    }
    if Guid(s) {
      var a, b, c, d, e := s[..8], s[9..13], s[14..18], s[19..23], s[24..];
      assert FiveGroups(a, b, c, d, e);
      assert s == Groups(a, b, c, d, e);
    }
    if a, b, c, d, e :| FiveGroups(a, b, c, d, e) && s == Groups(a, b, c, d, e) {
      GroupsAreGuid(a, b, c, d, e);
    }
  }

  lemma GroupsAreGuid(a: string, b: string, c: string, d: string, e: string)
    requires FiveGroups(a, b, c, d, e)
    ensures Guid(Groups(a, b, c, d, e))
  {
    var s := Groups(a, b, c, d, e);
    forall i | 0 <= i < 36
      ensures if Dash(i) then s[i] == '-' else Hex(s[i])
    {
      HexMeans(s[i]);
      assert i < 8 ==> s[i] == a[i];
      assert 8 < i < 13 ==> s[i] == b[i - 9];
      assert 13 < i < 18 ==> s[i] == c[i - 14];
      assert 18 < i < 23 ==> s[i] == d[i - 19];
      assert 23 < i ==> s[i] == e[i - 24];
    }
  }

  lemma UpperGuid(s: string)
    requires Guid(s)
    ensures Guid(Upper(s))
  {
  }

  /** A normalized code is a valid code, and its own normal form. */
  lemma NormalizeIsStable(raw: string)
    requires NormalizeProductCode(raw).Some?
    ensures NormalizeProductCode(NormalizeProductCode(raw).value) == NormalizeProductCode(raw)
  {
    var body := WithoutBraces(Trim(raw));
    var code := ['{'] + Upper(body) + ['}'];
    UpperGuid(body);
    assert Trim(code) == code;
    assert code[1..] == Upper(body) + ['}'];
    assert WithoutBraces(code) == Upper(body);
    UpperTwice(body);
  }

  lemma LowerGuid(s: string)
    ensures Guid(s) <==> Guid(Lower(s))
  {
    if Guid(Lower(s)) {
      forall i | 0 <= i < 36
        ensures if Dash(i) then s[i] == '-' else Hex(s[i])
      {
        assert if Dash(i) then Lower(s)[i] == '-' else Hex(Lower(s)[i]);
      }
    }
  }

  lemma WithoutBracesFolds(s: string)
    ensures WithoutBraces(Lower(s)) == Lower(WithoutBraces(s))
  {
    var t := if s != "" && s[0] == '{' then s[1..] else s;
    assert Lower(t) == if s != "" && s[0] == '{' then Lower(s)[1..] else Lower(s);
    assert t != "" ==> Lower(t[..|t| - 1]) == Lower(t)[..|t| - 1];
  }

  lemma UpperFolds(s: string, t: string)
    ensures Upper(s) == Upper(t) <==> EqualFold(s, t)
  {
    if Upper(s) == Upper(t) {
      forall i | 0 <= i < |s|
        ensures LowerChar(s[i]) == LowerChar(t[i])
      {
        assert UpperChar(s[i]) == Upper(s)[i] && Upper(t)[i] == UpperChar(t[i]);
      }
      assert Lower(s) == Lower(t);
    }
    if EqualFold(s, t) {
      forall i | 0 <= i < |s|
        ensures UpperChar(s[i]) == UpperChar(t[i])
      {
        assert LowerChar(s[i]) == Lower(s)[i] && Lower(t)[i] == LowerChar(t[i]);
      }
      assert Upper(s) == Upper(t);
    }
  }

  /** Two spellings of a valid code normalize alike exactly when they differ in letter case, surrounding
      white space and braces at most. */
  lemma NormalizeFolds(a: string, b: string)
    requires NormalizeProductCode(a).Some?
    ensures NormalizeProductCode(a) == NormalizeProductCode(b)
            <==> EqualFold(WithoutBraces(Trim(a)), WithoutBraces(Trim(b)))
  {
    hide Trim, WithoutBraces, Guid;
    var s, t := WithoutBraces(Trim(a)), WithoutBraces(Trim(b));
    LowerGuid(s);
    LowerGuid(t);
    UpperFolds(s, t);
    if NormalizeProductCode(a) == NormalizeProductCode(b) {
      Unwrapped(s);
      Unwrapped(t);
    }
  }

  lemma Unwrapped(s: string)
    ensures (['{'] + Upper(s) + ['}'])[1..1 + |s|] == Upper(s)
  {
  }

  /** Letter case never tells two product codes apart, valid or not. */
  lemma NormalizeIgnoresCase(a: string, b: string)
    requires EqualFold(a, b)
    ensures NormalizeProductCode(a) == NormalizeProductCode(b)
  {
    hide Guid;
    TrimFolds(a);
    TrimFolds(b);
    WithoutBracesFolds(Trim(a));
    WithoutBracesFolds(Trim(b));
    hide Trim, WithoutBraces;
    var s, t := WithoutBraces(Trim(a)), WithoutBraces(Trim(b));
    LowerGuid(s);
    LowerGuid(t);
    UpperFolds(s, t);
  }

  datatype Identity = Identity(windowsInstaller: bool, productCode: string, displayName: string, publisher: string)

  function ProductOf(s: Identity): Option<string> {
    if s.windowsInstaller then NormalizeProductCode(s.productCode) else None
  }

  function Folded(s: string): string { Lower(Trim(s)) }

  /** SoftwareIdentity.Key. */
  function Key(s: Identity): string {
    if ProductOf(s).Some? then "msi:" + ProductOf(s).value
    else "np:" + (Folded(s.displayName) + (['|'] + Folded(s.publisher)))
  }

  lemma PrefixedApart(a: string, b: string)
    ensures "msi:" + a != "np:" + b
  {
    assert ("msi:" + a)[0] != ("np:" + b)[0];
  }

  lemma PrefixedEqual(p: string, a: string, b: string)
    requires p + a == p + b
    ensures a == b
  {
    assert (p + a)[|p|..] == a;
    assert (p + b)[|p|..] == b;
  }

  /** Two ways of reading the same text as name, separator, publisher. */
  ghost predicate Shifted(name: string, publisher: string, longer: string, shorter: string) {
    exists m :: Between(name, publisher, longer, shorter, m)
  }

  predicate Between(name: string, publisher: string, longer: string, shorter: string, m: string) {
    longer == name + (['|'] + m) && publisher == m + (['|'] + shorter)
  }

  lemma SplitAt(a: string, b: string, c: string, d: string)
    requires a + (['|'] + b) == c + (['|'] + d) && |a| <= |c|
    ensures (a == c && b == d) || Shifted(a, b, c, d)
  {
    var s := a + (['|'] + b);
    assert s[..|a|] == a && s[|a|] == '|' && s[|a| + 1..] == b;
    assert s[..|c|] == c && s[|c|] == '|' && s[|c| + 1..] == d;
    if |a| < |c| {
      var m := s[|a| + 1..|c|];
      assert Between(a, b, c, d, m);
    }
  }

  lemma ShiftedSame(a: string, b: string, c: string, d: string)
    requires Shifted(a, b, c, d)
    ensures a + (['|'] + b) == c + (['|'] + d)
  {
    var m :| Between(a, b, c, d, m);
    assert a + (['|'] + (m + (['|'] + d))) == (a + (['|'] + m)) + (['|'] + d);
  }

  /** MSI products are told apart by product code alone, and never collide with anything else. */
  lemma MsiKeys(a: Identity, b: Identity)
    requires ProductOf(a).Some?
    ensures Key(a) == Key(b) <==> ProductOf(a) == ProductOf(b)
  {
    if ProductOf(b).Some? {
      if Key(a) == Key(b) {
        PrefixedEqual("msi:", ProductOf(a).value, ProductOf(b).value);
      }
    } else {
      PrefixedApart(ProductOf(a).value, Folded(b.displayName) + (['|'] + Folded(b.publisher)));
    }
  }

  /**
   Everything else is told apart by folded name and publisher, except where the separator occurs in a name
   and shifts: those are exactly the collisions.
   */
  lemma OtherKeys(a: Identity, b: Identity)
    requires ProductOf(a).None? && ProductOf(b).None?
    ensures var (n, p) := (Folded(a.displayName), Folded(a.publisher));
            var (m, q) := (Folded(b.displayName), Folded(b.publisher));
            Key(a) == Key(b) <==> (n == m && p == q) || Shifted(n, p, m, q) || Shifted(m, q, n, p)
  {
    hide ProductOf, Folded, Shifted;
    var (n, p) := (Folded(a.displayName), Folded(a.publisher));
    var (m, q) := (Folded(b.displayName), Folded(b.publisher));
    if Key(a) == Key(b) {
      PrefixedEqual("np:", n + (['|'] + p), m + (['|'] + q));
      if |n| <= |m| {
        SplitAt(n, p, m, q);
      } else {
        SplitAt(m, q, n, p);
      }
    } else if Shifted(n, p, m, q) {
      ShiftedSame(n, p, m, q);
    } else if Shifted(m, q, n, p) {
      ShiftedSame(m, q, n, p);
    }
  }

  /** Names without the separator never collide. */
  lemma PlainNamesDoNotShift(n: string, p: string, m: string, q: string)
    requires '|' !in m
    ensures !Shifted(n, p, m, q)
  {
    forall x
      ensures !Between(n, p, m, q, x)
    {
      assert (n + (['|'] + x))[|n|] == '|';
    }
  }

  lemma FoldedFolds(a: string, b: string)
    requires EqualFold(a, b)
    ensures Folded(a) == Folded(b)
  {
    TrimFolds(a);
    TrimFolds(b);
  }

  /** Neither does white space around a name, a publisher or a product code. */
  lemma KeyIgnoresSpace(a: Identity, c: char)
    requires IsSpace(c)
    ensures Key(a) == Key(a.(productCode := [c] + a.productCode))
    ensures Key(a) == Key(a.(displayName := a.displayName + [c], publisher := [c] + a.publisher))
  {
    TrimDrops(a.productCode, c);
    TrimDrops(a.displayName, c);
    TrimDrops(a.publisher, c);
    hide Trim, IsSpace, Guid, WithoutBraces;
  }

  /** Letter case never tells two entries apart. */
  lemma KeyIgnoresCase(a: Identity, b: Identity)
    requires a.windowsInstaller == b.windowsInstaller && EqualFold(a.productCode, b.productCode)
    requires EqualFold(a.displayName, b.displayName) && EqualFold(a.publisher, b.publisher)
    ensures Key(a) == Key(b)
  {
    hide NormalizeProductCode, Folded;
    FoldedFolds(a.displayName, b.displayName);
    FoldedFolds(a.publisher, b.publisher);
    NormalizeIgnoresCase(a.productCode, b.productCode);
  }
}
