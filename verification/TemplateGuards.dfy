/**
 * What the guards before template matching let through: letter case of the
 * scheme, dangerous schemes, and white space around the input.
 */
module TemplateGuards {
  import opened Seqs
  import opened Templates

  /** The verdict on a trimmed template and URI. */
  ghost predicate Accepts(t: string, u: string) {
    Admissible(t, u) && Produces(Parts(t), u)
  }

  // ------------------------------------------------------------------
  // Letter case
  // ------------------------------------------------------------------

  /** The same letter in either case, or the same character. */
  predicate SameLetter(c: char, d: char) {
    || c == d
    || ('A' <= c <= 'Z' && d as int == c as int + 32)
    || ('A' <= d <= 'Z' && c as int == d as int + 32)
  }

  predicate SameLettersAt(a: string, b: string, i: nat) {
    i < |a| && i < |b| ==> SameLetter(a[i], b[i])
  }

  /** The same text but for letter case. */
  ghost predicate SameLetters(a: string, b: string) {
    |a| == |b| && forall i :: SameLettersAt(a, b, i)
  }

  /** A letter, then letters, digits, plus, dot or minus. */
  ghost predicate SchemeShaped(a: string) {
    a != "" && IsLetter(a[0]) && forall i :: 0 <= i < |a| ==> IsSchemeChar(a[i])
  }

  lemma {:induction false} RunStopsAt(a: string, rest: string)
    requires (forall i :: 0 <= i < |a| ==> IsSchemeChar(a[i])) && rest != "" && !IsSchemeChar(rest[0])
    ensures SchemeRun(a + rest) == |a|
  {
    if a == "" {
      assert a + rest == rest;
    } else {
      assert (a + rest)[1..] == a[1..] + rest;
      RunStopsAt(a[1..], rest);
    }
  }

  /** The scheme of a text is what comes before its first colon, in lower case. */
  lemma SchemeOf(a: string, rest: string)
    requires SchemeShaped(a)
    ensures UriScheme(a + ":" + rest) == Some(Lower(a))
  {
    var s := a + (":" + rest);
    assert s == a + ":" + rest;
    RunStopsAt(a, ":" + rest);
    assert s[..|a|] == a && s[|a|] == ':' && s[0] == a[0];
  }

  /** A text has a scheme only like this. */
  lemma SchemeFound(s: string) returns (a: string, rest: string)
    requires UriScheme(s).Some?
    ensures SchemeShaped(a) && s == a + ":" + rest
  {
    var n := SchemeRun(s);
    RunIsShaped(s);
    a, rest := s[..n], s[n+1..];
    assert s == s[..n] + [s[n]] + s[n+1..];
  }

  lemma {:induction false} RunIsShaped(s: string)
    ensures forall i :: 0 <= i < SchemeRun(s) ==> IsSchemeChar(s[i])
  {
    if s != "" && IsSchemeChar(s[0]) {
      RunIsShaped(s[1..]);
      forall i | 0 <= i < SchemeRun(s) ensures IsSchemeChar(s[i]) { if i > 0 { assert s[i] == s[1..][i-1]; } }
    }
  }

  lemma LowerIsOne(a: string, b: string)
    requires SameLetters(a, b)
    ensures Lower(a) == Lower(b)
  {
    forall i | 0 <= i < |a| ensures Lower(a)[i] == Lower(b)[i] {
      assert SameLettersAt(a, b, i);
      LowerOfLetter(a[i], b[i]);
    }
  }

  lemma LowerOfLetter(c: char, d: char)
    requires SameLetter(c, d)
    ensures (if 'A' <= c <= 'Z' then c - 'A' + 'a' else c) == (if 'A' <= d <= 'Z' then d - 'A' + 'a' else d)
  {
  }

  lemma SchemeKeepsShape(a: string, b: string)
    requires SchemeShaped(a) && SameLetters(a, b)
    ensures SchemeShaped(b)
  {
    forall i | 0 <= i < |b| ensures IsSchemeChar(b[i]) { assert SameLettersAt(a, b, i); }
    assert SameLettersAt(a, b, 0);
  }

  /** Letters come and go in no guard on single characters. */
  lemma DotsIgnoreCase(a: string, b: string, rest: string)
    requires SameLetters(a, b)
    ensures HasDotDot(a + rest) ==> HasDotDot(b + rest)
    ensures '\0' in a + rest ==> '\0' in b + rest
  {
    var s, s' := a + rest, b + rest;
    forall i: nat | i < |s| ensures (s[i] == '.' || s[i] == '\0') ==> s'[i] == s[i] {
      if i < |a| { assert SameLettersAt(a, b, i); }
    }
    if HasDotDot(s) {
      var i :| 0 <= i < |s| - 1 && s[i] == '.' && s[i+1] == '.';
      assert s'[i] == '.' && s'[i+1] == '.';
    }
    if '\0' in s { assert s'[Index(s, '\0')] == '\0'; }
  }

  lemma LettersBack(a: string, b: string)
    requires SameLetters(a, b)
    ensures SameLetters(b, a)
  {
    forall i: nat ensures SameLettersAt(b, a, i) { assert SameLettersAt(a, b, i); }
  }

  lemma GuardsOneWay(a: string, b: string, c: string, d: string, t: string, u: string)
    requires SchemeShaped(a) && SchemeShaped(c) && SameLetters(a, b) && SameLetters(c, d)
    requires Admissible(a + ":" + t, c + ":" + u)
    ensures Admissible(b + ":" + t, d + ":" + u)
  {
    SchemeKeepsShape(a, b);
    SchemeKeepsShape(c, d);
    SchemeOf(a, t);
    SchemeOf(b, t);
    SchemeOf(c, u);
    SchemeOf(d, u);
    LowerIsOne(a, b);
    LowerIsOne(c, d);
    LettersBack(a, b);
    LettersBack(c, d);
    assert a + ":" + t == a + (":" + t) && b + ":" + t == b + (":" + t);
    assert c + ":" + u == c + (":" + u) && d + ":" + u == d + (":" + u);
    DotsIgnoreCase(b, a, ":" + t);
    DotsIgnoreCase(d, c, ":" + u);
  }

  /** Whatever the letter case of the two schemes, the guards decide alike. */
  lemma GuardsIgnoreCase(a: string, b: string, c: string, d: string, t: string, u: string)
    requires SchemeShaped(a) && SchemeShaped(c) && SameLetters(a, b) && SameLetters(c, d)
    ensures Admissible(a + ":" + t, c + ":" + u) <==> Admissible(b + ":" + t, d + ":" + u)
  {
    SchemeKeepsShape(a, b);
    SchemeKeepsShape(c, d);
    LettersBack(a, b);
    LettersBack(c, d);
    if Admissible(a + ":" + t, c + ":" + u) { GuardsOneWay(a, b, c, d, t, u); }
    if Admissible(b + ":" + t, d + ":" + u) { GuardsOneWay(b, a, d, c, t, u); }
  }

  // ------------------------------------------------------------------
  // Literal prefixes
  // ------------------------------------------------------------------

  lemma OneLiteral(c: char, t: string, u: string)
    requires c != '{'
    ensures Produces(Parts([c] + t), u) <==> u != "" && u[0] == c && Produces(Parts(t), u[1..])
  {
    var s, parts := [c] + t, Parts(t);
    assert s[1..] == t && s[0] == c;
    SplitAtChar(s);
    var longer := [[c] + parts[0]] + parts[1..];
    assert Parts(s) == longer;
    if Produces(longer, u) {
      var vals :| |vals| == |longer| - 1 && (forall v :: v in vals ==> IsValue(v)) && Fill(longer, vals) == u;
      FillPrefixed(c, parts, vals);
      assert u[1..] == Fill(parts, vals);
    }
    if u != "" && u[0] == c && Produces(parts, u[1..]) {
      var vals :| |vals| == |parts| - 1 && (forall v :: v in vals ==> IsValue(v)) && Fill(parts, vals) == u[1..];
      FillPrefixed(c, parts, vals);
      assert u == [c] + u[1..];
    }
  }

  /** A template that begins literally produces exactly the texts that begin the same. */
  lemma {:induction false} LiteralPrefix(a: string, t: string, b: string, u: string)
    requires '{' !in a && |a| == |b|
    ensures Produces(Parts(a + t), b + u) <==> a == b && Produces(Parts(t), u)
  {
    if a == "" {
      assert a + t == t && b + u == u;
    } else {
      assert a + t == [a[0]] + (a[1..] + t) && (b + u)[1..] == b[1..] + u && (b + u)[0] == b[0];
      assert a[0] in a && forall c :: c in a[1..] ==> c in a;
      OneLiteral(a[0], a[1..] + t, b + u);
      LiteralPrefix(a[1..], t, b[1..], u);
      assert a == [a[0]] + a[1..] && b == [b[0]] + b[1..];
    }
  }

  lemma SchemeIsLiteral(a: string)
    requires SchemeShaped(a)
    ensures '{' !in a + ":"
  {
    forall i | 0 <= i < |a + ":"| ensures (a + ":")[i] != '{' {
      if i < |a| { assert IsSchemeChar(a[i]); }
    }
  }

  /**
   * How the schemes are spelled: the guards take any two spellings of one
   * scheme for the same, the match that follows does not. A URI under the
   * template's scheme is accepted exactly if it spells the scheme as the
   * template does, and would be under any other common spelling.
   */
  lemma SchemeSpelling(a: string, b: string, c: string, t: string, u: string)
    requires SchemeShaped(a) && SameLetters(a, b) && SameLetters(a, c)
    ensures Accepts(a + ":" + t, b + ":" + u) <==> a == b && Accepts(c + ":" + t, c + ":" + u)
  {
    SchemeKeepsShape(a, b);
    SchemeKeepsShape(a, c);
    SchemeIsLiteral(a);
    SchemeIsLiteral(c);
    LiteralPrefix(a + ":", t, b + ":", u);
    LiteralPrefix(c + ":", t, c + ":", u);
    assert a + ":" == b + ":" <==> a == b by { assert (a + ":")[..|a|] == a && (b + ":")[..|b|] == b; }
    if a == b { GuardsIgnoreCase(a, c, a, c, t, u); }
  }

  lemma LiteralProducesItself(t: string)
    requires '{' !in t
    ensures Produces(Parts(t), t)
  {
    assert t + "" == t && Parts("") == [""];
    OnePartProduces("", "");
    LiteralPrefix(t, "", t, "");
  }

  lemma PlainIsAdmissible(a: string, x: string)
    requires SchemeShaped(a) && a + ":" + x == "A:x" && Lower(a) == "a"
    ensures Admissible("A:x", "A:x")
  {
    SchemeOf(a, x);
  }

  /** So a URI that differs from an accepted one only in the case of its scheme may be refused. */
  lemma CaseMatters()
    ensures Accepts("A:x", "A:x") && Admissible("A:x", "a:x") && !Accepts("A:x", "a:x")
  {
    var a, b, x := "A", "a", "x";
    assert SameLettersAt(a, b, 0) && SameLetters(a, b) && SameLetters(a, a);
    assert a + ":" + x == "A:x" && b + ":" + x == "a:x";
    PlainIsAdmissible(a, x);
    LiteralProducesItself("A:x");
    GuardsIgnoreCase(a, a, a, b, x, x);
    SchemeSpelling(a, b, a, x, x);
  }

  // ------------------------------------------------------------------
  // Dangerous schemes
  // ------------------------------------------------------------------

  lemma LowerCaseIsFixed(name: string)
    requires forall i :: 0 <= i < |name| ==> 'a' <= name[i] <= 'z'
    ensures Lower(name) == name
  {
  }

  /** Nothing under a dangerous scheme passes, in no spelling and under no template. */
  lemma DangerousSchemesAreRefused(name: string, spelled: string, rest: string, t: string)
    requires name == "javascript" || name == "vbscript" || name == "data" || name == "file" || name == "blob"
    requires SameLetters(name, spelled)
    ensures !Admissible(t, spelled + ":" + rest)
  {
    SchemeKeepsShape(name, spelled);
    SchemeOf(spelled, rest);
    LowerIsOne(name, spelled);
    LowerCaseIsFixed(name);
  }

  // ------------------------------------------------------------------
  // Trimming
  // ------------------------------------------------------------------

  /** Trimming cuts white space off both ends, all of it and nothing else. */
  lemma TrimSpec(s: string) returns (i: nat, j: nat)
    ensures i <= j <= |s| && Trim(s) == s[i..j]
    ensures (forall k :: 0 <= k < i ==> IsSpace(s[k])) && (forall k :: j <= k < |s| ==> IsSpace(s[k]))
    ensures i < j ==> !IsSpace(s[i]) && !IsSpace(s[j-1])
  {
    i := StartSpec(s);
    var rest := TrimStart(s);
    var n := EndSpec(rest);
    j := i + n;
    assert rest[..n] == s[i..j];
    forall k | j <= k < |s| ensures IsSpace(s[k]) { assert s[k] == rest[k - i]; }
    if i < j { assert s[i] == rest[0] && s[j-1] == rest[n-1]; }
  }

  lemma {:induction false} StartSpec(s: string) returns (i: nat)
    ensures i <= |s| && TrimStart(s) == s[i..] && forall k :: 0 <= k < i ==> IsSpace(s[k])
    ensures i < |s| ==> !IsSpace(s[i])
  {
    if s != "" && IsSpace(s[0]) {
      var n := StartSpec(s[1..]);
      i := n + 1;
      assert s[1..][n..] == s[i..];
      forall k | 0 <= k < i ensures IsSpace(s[k]) { if k > 0 { assert s[k] == s[1..][k-1]; } }
    } else {
      i := 0;
    }
  }

  lemma {:induction false} EndSpec(s: string) returns (j: nat)
    ensures j <= |s| && TrimEnd(s) == s[..j] && forall k :: j <= k < |s| ==> IsSpace(s[k])
    ensures j > 0 ==> !IsSpace(s[j-1])
  {
    if s != "" && IsSpace(s[|s|-1]) {
      j := EndSpec(s[..|s|-1]);
    } else {
      j := |s|;
    }
  }
}
