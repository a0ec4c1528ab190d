/** The pieces of Go's string handling the models need; letter case is that of ASCII. */
module Text {

  function LowerChar(c: char): char {
    if 'A' <= c <= 'Z' then (c as int - 'A' as int + 'a' as int) as char else c
  }

  function UpperChar(c: char): char {
    if 'a' <= c <= 'z' then (c as int - 'a' as int + 'A' as int) as char else c
  }

  /** strings.ToLower. */
  function Lower(s: string): (r: string)
    ensures |r| == |s|
    ensures forall i :: 0 <= i < |s| ==> r[i] == LowerChar(s[i])
  {
    seq(|s|, i requires 0 <= i < |s| => LowerChar(s[i]))
  }

  function Upper(s: string): (r: string)
    ensures |r| == |s|
    ensures forall i :: 0 <= i < |s| ==> r[i] == UpperChar(s[i])
  {
    seq(|s|, i requires 0 <= i < |s| => UpperChar(s[i]))
  }

  lemma UpperTwice(s: string)
    ensures Upper(Upper(s)) == Upper(s)
  {
  }

  /** strings.EqualFold. */
  predicate EqualFold(s: string, t: string) {
    Lower(s) == Lower(t)
  }

  /** The two cases of a text fold together, and lower case is that of the alphabet. */
  lemma CaseMeans(s: string)
    ensures EqualFold(Upper(s), s) && EqualFold(Lower(s), s)
    ensures Lower("ABCDEFGHIJKLMNOPQRSTUVWXYZ") == "abcdefghijklmnopqrstuvwxyz"
  {
    assert Lower(Upper(s)) == Lower(s);
    assert Lower(Lower(s)) == Lower(s);
  }

  predicate At(s: string, t: string, i: nat) {
    i + |t| <= |s| && s[i..i + |t|] == t
  }

  /** strings.Contains. */
  predicate Contains(s: string, t: string) {
    exists i :: 0 <= i <= |s| && At(s, t, i)
  }

  /** A text contains another exactly when it is that one with something before and after. */
  lemma ContainsIff(s: string, t: string)
    ensures Contains(s, t) <==> exists a, b :: s == a + t + b
  {
    if Contains(s, t) {
      var i :| 0 <= i <= |s| && At(s, t, i);
      assert s == s[..i] + t + s[i + |t|..];
    }
    if a, b :| s == a + t + b {
      assert s[|a|..|a| + |t|] == t;
      assert At(s, t, |a|);
    }
  }

  /** unicode.IsSpace. */
  predicate IsSpace(c: char) {
    || '\t' <= c <= '\r' || c == ' ' || c == '\U{0085}' || c == '\U{00A0}' || c == '\U{1680}'
    || '\U{2000}' <= c <= '\U{200A}' || c == '\U{2028}' || c == '\U{2029}' || c == '\U{202F}'
    || c == '\U{205F}' || c == '\U{3000}'
  }

  /** strings.TrimSpace. */
  function Trim(s: string): string
    decreases |s|
  {
    if s == "" then ""
    else if IsSpace(s[0]) then Trim(s[1..])
    else if IsSpace(s[|s| - 1]) then Trim(s[..|s| - 1])
    else s
  }

  lemma SpaceFolds(c: char)
    ensures IsSpace(LowerChar(c)) <==> IsSpace(c)
  {
  }

  lemma {:induction false} TrimFolds(s: string)
    ensures Trim(Lower(s)) == Lower(Trim(s))
    decreases |s|
  {
    hide IsSpace, LowerChar;
    if s == "" {
      return;
    }
    SpaceFolds(s[0]);
    SpaceFolds(s[|s| - 1]);
    if IsSpace(s[0]) {
      TrimFolds(s[1..]);
      assert Lower(s)[1..] == Lower(s[1..]);
    } else if IsSpace(s[|s| - 1]) {
      TrimFolds(s[..|s| - 1]);
      assert Lower(s)[..|s| - 1] == Lower(s[..|s| - 1]);
    }
  }

  /** White space around a text does not survive. */
  lemma {:induction false} TrimDrops(s: string, c: char)
    requires IsSpace(c)
    ensures Trim([c] + s) == Trim(s) && Trim(s + [c]) == Trim(s)
    decreases |s|
  {
    hide IsSpace;
    assert ([c] + s)[1..] == s;
    var t := s + [c];
    if s == "" {
      assert t == [c] && t[1..] == "";
    } else if IsSpace(s[0]) {
      assert t[1..] == s[1..] + [c];
      TrimDrops(s[1..], c);
    } else {
      assert t[..|t| - 1] == s;
    }
  }

  function WordLength(s: string): (n: nat)
    ensures n <= |s|
  {
    if s == "" || IsSpace(s[0]) then 0 else 1 + WordLength(s[1..])
  }

  /** strings.Fields. */
  function Fields(s: string): seq<string>
    decreases |s|
  {
    if s == "" then []
    else if IsSpace(s[0]) then Fields(s[1..])
    else [s[..WordLength(s)]] + Fields(s[WordLength(s)..])
  }

  predicate Word(w: string) { w != "" && forall i :: 0 <= i < |w| ==> !IsSpace(w[i]) }

  lemma {:induction false} WordLengthBefore(w: string, rest: string)
    requires forall i :: 0 <= i < |w| ==> !IsSpace(w[i])
    requires rest == "" || IsSpace(rest[0])
    ensures WordLength(w + rest) == |w|
    decreases |w|
  {
    if w == "" {
      assert w + rest == rest;
    } else {
      WordLengthBefore(w[1..], rest);
      assert (w + rest)[1..] == w[1..] + rest;
    }
  }

  function Spaced(words: seq<string>): string {
    if words == [] then ""
    else if |words| == 1 then words[0]
    else words[0] + [' '] + Spaced(words[1..])
  }

  /** Splitting at white space undoes joining words by single spaces. */
  lemma {:induction false} FieldsOfSpaced(words: seq<string>)
    requires forall i :: 0 <= i < |words| ==> Word(words[i])
    ensures Fields(Spaced(words)) == words
  {
    if |words| == 1 {
      var w := words[0];
      WordLengthBefore(w, "");
      assert w + "" == w && w[..|w|] == w && w[|w|..] == "";
      assert words == [w];
    } else if |words| > 1 {
      var w, rest := words[0], Spaced(words[1..]);
      var s := w + ([' '] + rest);
      assert Spaced(words) == s;
      WordLengthBefore(w, [' '] + rest);
      assert s[..|w|] == w && s[|w|..] == [' '] + rest && s[0] == w[0];
      assert ([' '] + rest)[1..] == rest;
      FieldsOfSpaced(words[1..]);
      assert words == [w] + words[1..];
    }
  }
}
