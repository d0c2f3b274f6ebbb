/**
 * Resource URI templates: a template is turned into the source of a regular
 * expression, and the URI is tested against it. The part of the ECMAScript
 * pattern grammar that the builder emits is read back here, so what is proved
 * covers the escaping as well as the matching.
 */
module Templates {
  import opened Seqs

  // ------------------------------------------------------------------
  // Placeholders
  // ------------------------------------------------------------------

  predicate IsNameStart(c: char) {
    'A' <= c <= 'Z' || 'a' <= c <= 'z' || '0' <= c <= '9' || c == '_'
  }

  predicate IsNameChar(c: char) {
    IsNameStart(c) || c == '.' || c == '-'
  }

  /** The length of the longest prefix of name characters. */
  function NameRun(s: string): (n: nat)
    ensures n <= |s| && forall i :: 0 <= i < n ==> IsNameChar(s[i])
    ensures n < |s| ==> !IsNameChar(s[n])
  {
    if s == "" || !IsNameChar(s[0]) then 0 else 1 + NameRun(s[1..])
  }

  /** The length of the placeholder `s` begins with, or 0. */
  function PlaceholderLength(s: string): (n: nat)
    ensures n <= |s|
    ensures n > 0 ==> '/' !in s[..n]
  {
    if |s| < 2 || s[0] != '{' || !IsNameStart(s[1]) then 0
    else
      var run := NameRun(s[1..]);
      assert forall i :: 1 <= i <= run ==> s[i] == s[1..][i-1];
      if 1 + run < |s| && s[1 + run] == '}' then run + 2 else 0
  }

  /** The literal stretches around the placeholders (split on the pattern). */
  function Parts(t: string): (parts: seq<string>)
    ensures |parts| > 0
    decreases |t|
  {
    if t == "" then [""]
    else
      var n := PlaceholderLength(t);
      if n > 0 then [""] + Parts(t[n..])
      else
        var rest := Parts(t[1..]);
        [[t[0]] + rest[0]] + rest[1..]
  }

  /** The placeholders themselves (all matches of the pattern). */
  function Params(t: string): (params: seq<string>)
    ensures |params| == |Parts(t)| - 1
    decreases |t|
  {
    if t == "" then []
    else
      var n := PlaceholderLength(t);
      if n > 0 then [t[..n]] + Params(t[n..]) else Params(t[1..])
  }

  /** The parts with values in between. */
  function Fill(parts: seq<string>, vals: seq<string>): string
    requires |parts| == |vals| + 1
    decreases |vals|
  {
    if vals == [] then parts[0] else parts[0] + vals[0] + Fill(parts[1..], vals[1..])
  }

  lemma {:induction false} FillPrefixed(c: char, parts: seq<string>, vals: seq<string>)
    requires |parts| == |vals| + 1
    ensures Fill([[c] + parts[0]] + parts[1..], vals) == [c] + Fill(parts, vals)
  {
    var longer := [[c] + parts[0]] + parts[1..];
    if vals != [] {
      assert longer[1..] == parts[1..];
      assert [c] + parts[0] + vals[0] + Fill(parts[1..], vals[1..])
             == [c] + (parts[0] + vals[0] + Fill(parts[1..], vals[1..]));
    }
  }

  lemma SplitAtChar(t: string)
    requires t != "" && PlaceholderLength(t) == 0
    ensures var rest := Parts(t[1..]);
            Parts(t) == [[t[0]] + rest[0]] + rest[1..] && Params(t) == Params(t[1..])
  {
  }

  lemma FillCons(p: string, parts: seq<string>, v: string, vals: seq<string>)
    requires |parts| == |vals| + 1
    ensures Fill([p] + parts, [v] + vals) == p + v + Fill(parts, vals)
  {
    assert ([p] + parts)[1..] == parts;
    assert ([v] + vals)[1..] == vals;
  }

  lemma Regroup<T>(a: seq<T>, b: seq<T>, c: seq<T>)
    ensures (a + b) + c == a + (b + c)
  {
  }

  /** Splitting loses nothing: the placeholders put back give the template. */
  lemma {:induction false} SplitIsLossless(t: string)
    ensures Fill(Parts(t), Params(t)) == t
    ensures forall p :: p in Params(t) ==> '/' !in p
    decreases |t|
  {
    if t != "" {
      var n := PlaceholderLength(t);
      if n > 0 {
        SplitIsLossless(t[n..]);
        FillCons("", Parts(t[n..]), t[..n], Params(t[n..]));
        assert "" + t[..n] == t[..n];
        assert t == t[..n] + t[n..];
      } else {
        SplitIsLossless(t[1..]);
        SplitAtChar(t);
        FillPrefixed(t[0], Parts(t[1..]), Params(t[1..]));
        assert t == [t[0]] + t[1..];
      }
    }
  }

  // ------------------------------------------------------------------
  // The pattern source
  // ------------------------------------------------------------------

  /** The characters the builder escapes. */
  predicate IsSyntax(c: char) {
    || c == '.' || c == '*' || c == '+' || c == '?' || c == '^' || c == '$' || c == '{' || c == '}'
    || c == '(' || c == ')' || c == '|' || c == '[' || c == ']' || c == '\\'
  }

  const ONE_SEGMENT: string := "[^/]+"

  function EscapedChar(c: char): string {
    if IsSyntax(c) then ['\\', c] else [c]
  }

  function Escaped(s: string): string {
    if s == "" then "" else EscapedChar(s[0]) + Escaped(s[1..])
  }

  function SourceOf(parts: seq<string>): string
    requires |parts| > 0
    decreases |parts|
  {
    if |parts| == 1 then Escaped(parts[0])
    else Escaped(parts[0]) + ONE_SEGMENT + SourceOf(parts[1..])
  }

  lemma {:induction false} SourceSnoc(parts: seq<string>, last: string)
    requires |parts| > 0
    ensures SourceOf(parts + [last]) == SourceOf(parts) + ONE_SEGMENT + Escaped(last)
    decreases |parts|
  {
    var more := parts + [last];
    if |parts| == 1 {
      assert more[1..] == [last];
    } else {
      assert more[1..] == parts[1..] + [last];
      SourceSnoc(parts[1..], last);
      assert SourceOf(parts) == Escaped(parts[0]) + ONE_SEGMENT + SourceOf(parts[1..]);
      assert SourceOf(more) == Escaped(parts[0]) + ONE_SEGMENT + (SourceOf(parts[1..]) + ONE_SEGMENT + Escaped(last));
    }
  }

  method EscapeText(s: string) returns (r: string)
    ensures r == Escaped(s)
  {
    r := "";
    for i := 0 to |s|
      invariant Escaped(s) == r + Escaped(s[i..])
    {
      assert s[i..][0] == s[i] && s[i..][1..] == s[i+1..];
      assert Escaped(s[i..]) == EscapedChar(s[i]) + Escaped(s[i+1..]);
      assert r + (EscapedChar(s[i]) + Escaped(s[i+1..])) == r + EscapedChar(s[i]) + Escaped(s[i+1..]);
      r := r + EscapedChar(s[i]);
    }
    assert s[|s|..] == "";
  }

  method TemplateToRegExpSource(template: string) returns (r: string)
    ensures r == "^" + SourceOf(Parts(template)) + "$"
  {
    var parts := Parts(template);
    var params := Params(template);
    var source := "";
    for i := 0 to |parts|
      invariant i == 0 ==> source == ""
      invariant 0 < i < |parts| ==> source == SourceOf(parts[..i]) + ONE_SEGMENT
      invariant i == |parts| ==> source == SourceOf(parts)
    {
      var literal := EscapeText(parts[i]);
      assert parts[..i+1] == parts[..i] + [parts[i]];
      if i > 0 {
        SourceSnoc(parts[..i], parts[i]);
        assert source + literal == SourceOf(parts[..i]) + ONE_SEGMENT + Escaped(parts[i]);
      }
      assert parts[..|parts|] == parts;
      source := source + literal;
      if i < |params| {
        source := source + ONE_SEGMENT;
      }
    }
    return "^" + source + "$";
  }

  // ------------------------------------------------------------------
  // Reading the source back
  // ------------------------------------------------------------------

  datatype Atom = Literal(c: char) | Segment

  /** The pattern between the anchors, in the fragment that the builder emits. */
  function ParseBody(source: string): Option<seq<Atom>>
    decreases |source|
  {
    if source == "" then Some([])
    else if |source| >= 5 && source[..5] == ONE_SEGMENT then
      var rest := ParseBody(source[5..]);
      if rest.Some? then Some([Segment] + rest.value) else None
    else if source[0] == '\\' then
      if |source| >= 2 && IsSyntax(source[1]) then
        var rest := ParseBody(source[2..]);
        if rest.Some? then Some([Literal(source[1])] + rest.value) else None
      else None
    else if IsSyntax(source[0]) then None
    else
      var rest := ParseBody(source[1..]);
      if rest.Some? then Some([Literal(source[0])] + rest.value) else None
  }

  /** An anchored pattern; None is one the constructor would reject or read otherwise. */
  function ParsePattern(source: string): Option<seq<Atom>> {
    var n := |source|;
    if n >= 2 && source[0] == '^' && source[n-1] == '$' then ParseBody(source[1..n-1]) else None
  }

  function Literals(s: string): seq<Atom> {
    if s == "" then [] else [Literal(s[0])] + Literals(s[1..])
  }

  function AtomsOf(parts: seq<string>): seq<Atom>
    requires |parts| > 0
    decreases |parts|
  {
    if |parts| == 1 then Literals(parts[0]) else Literals(parts[0]) + [Segment] + AtomsOf(parts[1..])
  }

  lemma EscapedCharReadsBack(c: char, rest: string)
    requires ParseBody(rest).Some?
    ensures ParseBody(EscapedChar(c) + rest) == Some([Literal(c)] + ParseBody(rest).value)
  {
    var source := EscapedChar(c) + rest;
    assert ONE_SEGMENT[0] == '[';
    if |source| >= 5 { assert source[..5][0] == source[0] != '['; }
    if IsSyntax(c) {
      assert source[2..] == rest;
    } else {
      assert source[1..] == rest;
    }
  }

  /** Escaped text reads as itself, whatever follows it. */
  lemma {:induction false} EscapedReadsBack(s: string, tail: string)
    requires ParseBody(tail).Some?
    ensures ParseBody(Escaped(s) + tail) == Some(Literals(s) + ParseBody(tail).value)
    decreases |s|
  {
    if s == "" {
      assert Escaped(s) + tail == tail;
      assert Literals(s) + ParseBody(tail).value == ParseBody(tail).value;
    } else {
      var rest := Escaped(s[1..]) + tail;
      EscapedReadsBack(s[1..], tail);
      EscapedCharReadsBack(s[0], rest);
      Regroup(EscapedChar(s[0]), Escaped(s[1..]), tail);
      Regroup([Literal(s[0])], Literals(s[1..]), ParseBody(tail).value);
    }
  }

  lemma {:induction false} SourceReadsBack(parts: seq<string>)
    requires |parts| > 0
    ensures ParseBody(SourceOf(parts)) == Some(AtomsOf(parts))
    decreases |parts|
  {
    if |parts| == 1 {
      EscapedReadsBack(parts[0], "");
      assert Escaped(parts[0]) + "" == Escaped(parts[0]);
      assert Literals(parts[0]) + [] == Literals(parts[0]);
    } else {
      var tail := SourceOf(parts[1..]);
      SourceReadsBack(parts[1..]);
      EscapedReadsBack(parts[0], ONE_SEGMENT + tail);
      assert Escaped(parts[0]) + (ONE_SEGMENT + tail) == SourceOf(parts);
      assert Literals(parts[0]) + ([Segment] + AtomsOf(parts[1..])) == AtomsOf(parts);
    }
  }

  /** The pattern built from a template is always well formed and means its parts. */
  lemma PatternReadsBack(t: string)
    ensures ParsePattern("^" + SourceOf(Parts(t)) + "$") == Some(AtomsOf(Parts(t)))
  {
    var body := SourceOf(Parts(t));
    var source := "^" + body + "$";
    assert source[1..|source|-1] == body;
    SourceReadsBack(Parts(t));
  }

  // ------------------------------------------------------------------
  // Matching
  // ------------------------------------------------------------------

  /** The longest slash-free prefix. */
  function SegmentRun(s: string): (n: nat)
    ensures n <= |s| && '/' !in s[..n] && (n < |s| ==> s[n] == '/')
  {
    if s == "" || s[0] == '/' then 0
    else
      var n := SegmentRun(s[1..]);
      assert s[..n+1] == [s[0]] + s[1..][..n];
      n + 1
  }

  /** The backtracking matcher: a segment takes as much as it can, then gives back. */
  predicate Match(atoms: seq<Atom>, s: string)
    decreases |atoms|, 0
  {
    if atoms == [] then s == ""
    else if atoms[0].Literal? then s != "" && s[0] == atoms[0].c && Match(atoms[1..], s[1..])
    else GiveBack(atoms[1..], s, SegmentRun(s))
  }

  predicate GiveBack(rest: seq<Atom>, s: string, taken: nat)
    requires taken <= |s|
    decreases |rest|, taken + 1
  {
    taken > 0 && (Match(rest, s[taken..]) || GiveBack(rest, s, taken - 1))
  }

  lemma {:induction false} GiveBackTriesAll(rest: seq<Atom>, s: string, taken: nat)
    requires taken <= |s|
    ensures GiveBack(rest, s, taken) <==> exists k :: 1 <= k <= taken && Match(rest, s[k..])
  {
    if taken > 0 { GiveBackTriesAll(rest, s, taken - 1); }
  }

  predicate IsValue(v: string) {
    v != "" && '/' !in v
  }

  /** The URI is the template with some value for each placeholder. */
  ghost predicate Produces(parts: seq<string>, u: string)
    requires |parts| > 0
  {
    exists vals: seq<string> ::
      |vals| == |parts| - 1 && (forall v :: v in vals ==> IsValue(v)) && Fill(parts, vals) == u
  }

  lemma {:induction false} LiteralsMatch(s: string, rest: seq<Atom>, u: string)
    ensures Match(Literals(s) + rest, u) <==> s <= u && Match(rest, u[|s|..])
    decreases |s|
  {
    if s == "" {
      assert Literals(s) + rest == rest && u[0..] == u;
    } else {
      var atoms := Literals(s) + rest;
      assert atoms[1..] == Literals(s[1..]) + rest;
      if u != "" && u[0] == s[0] {
        LiteralsMatch(s[1..], rest, u[1..]);
        assert s == [s[0]] + s[1..] && u == [u[0]] + u[1..];
        assert s <= u <==> s[1..] <= u[1..];
        if s <= u { assert u[|s|..] == u[1..][|s|-1..]; }
      }
    }
  }

  lemma {:induction false} ValueFitsRun(s: string, k: nat)
    requires k <= |s| && '/' !in s[..k]
    ensures k <= SegmentRun(s)
  {
    if k > 0 {
      assert s[0] in s[..k];
      assert forall c :: c in s[1..][..k-1] ==> c in s[..k];
      ValueFitsRun(s[1..], k - 1);
    }
  }

  lemma OnePartProduces(part: string, u: string)
    ensures Produces([part], u) <==> u == part
  {
    if u == part {
      var none: seq<string> := [];
      assert Fill([part], none) == u;
    }
  }

  lemma ProducesMore(parts: seq<string>, u: string, k: nat)
    requires |parts| > 1 && parts[0] <= u && 1 <= k <= |u| - |parts[0]|
    requires var rest := u[|parts[0]|..]; IsValue(rest[..k]) && Produces(parts[1..], rest[k..])
    ensures Produces(parts, u)
  {
    var rest := u[|parts[0]|..];
    var vals :| |vals| == |parts| - 2 && (forall v :: v in vals ==> IsValue(v)) && Fill(parts[1..], vals) == rest[k..];
    var more := [rest[..k]] + vals;
    FillCons(parts[0], parts[1..], rest[..k], vals);
    assert parts == [parts[0]] + parts[1..];
    assert rest == rest[..k] + rest[k..];
    Regroup(parts[0], rest[..k], rest[k..]);
    assert u == parts[0] + rest;
    assert Fill(parts, more) == u;
  }

  lemma ProducesLess(parts: seq<string>, u: string) returns (k: nat)
    requires |parts| > 1 && Produces(parts, u)
    ensures parts[0] <= u && 1 <= k <= |u| - |parts[0]|
    ensures var rest := u[|parts[0]|..]; IsValue(rest[..k]) && Produces(parts[1..], rest[k..])
  {
    var vals :| |vals| == |parts| - 1 && (forall v :: v in vals ==> IsValue(v)) && Fill(parts, vals) == u;
    k := |vals[0]|;
    var rest := u[|parts[0]|..];
    assert u == parts[0] + (vals[0] + Fill(parts[1..], vals[1..]));
    assert rest == vals[0] + Fill(parts[1..], vals[1..]);
    assert rest[..k] == vals[0] && rest[k..] == Fill(parts[1..], vals[1..]);
    assert vals[0] in vals;
  }

  /** The matcher accepts exactly what the template can produce. */
  lemma {:induction false} MatchIsProduction(parts: seq<string>, u: string)
    requires |parts| > 0
    ensures Match(AtomsOf(parts), u) <==> Produces(parts, u)
    decreases |parts|
  {
    if |parts| == 1 {
      OnePartProduces(parts[0], u);
      assert Literals(parts[0]) + [] == Literals(parts[0]);
      LiteralsMatch(parts[0], [], u);
      assert parts == [parts[0]];
      if parts[0] <= u && u[|parts[0]|..] == "" { assert u == parts[0] + u[|parts[0]|..]; }
    } else {
      var tail := [Segment] + AtomsOf(parts[1..]);
      assert AtomsOf(parts) == Literals(parts[0]) + tail;
      LiteralsMatch(parts[0], tail, u);
      if parts[0] <= u { SegmentIsProduction(parts, u, tail); }
      if Produces(parts, u) { var k := ProducesLess(parts, u); }
    }
  }

  lemma SegmentIsProduction(parts: seq<string>, u: string, tail: seq<Atom>)
    requires |parts| > 1 && parts[0] <= u && tail == [Segment] + AtomsOf(parts[1..])
    ensures Match(tail, u[|parts[0]|..]) <==> Produces(parts, u)
    decreases |parts|, 0
  {
    var rest := u[|parts[0]|..];
    assert tail[1..] == AtomsOf(parts[1..]);
    GiveBackTriesAll(AtomsOf(parts[1..]), rest, SegmentRun(rest));
    if Match(tail, rest) {
      var k :| 1 <= k <= SegmentRun(rest) && Match(AtomsOf(parts[1..]), rest[k..]);
      assert forall c :: c in rest[..k] ==> c in rest[..SegmentRun(rest)];
      MatchIsProduction(parts[1..], rest[k..]);
      ProducesMore(parts, u, k);
    }
    if Produces(parts, u) {
      var k := ProducesLess(parts, u);
      MatchIsProduction(parts[1..], rest[k..]);
      ValueFitsRun(rest, k);
    }
  }

  // ------------------------------------------------------------------
  // Segment counts
  // ------------------------------------------------------------------

  /** The number of pieces between slashes. */
  function SegmentCount(s: string): (n: nat)
    ensures n >= 1
  {
    if s == "" then 1 else SegmentCount(s[1..]) + if s[0] == '/' then 1 else 0
  }

  lemma {:induction false} SegmentsAddUp(a: string, b: string)
    ensures SegmentCount(a + b) == SegmentCount(a) + SegmentCount(b) - 1
  {
    if a == "" {
      assert a + b == b;
    } else {
      assert (a + b)[1..] == a[1..] + b;
      SegmentsAddUp(a[1..], b);
    }
  }

  lemma {:induction false} SlashFreeIsOneSegment(s: string)
    requires '/' !in s
    ensures SegmentCount(s) == 1
  {
    if s != "" {
      assert s[0] in s && forall c :: c in s[1..] ==> c in s;
      SlashFreeIsOneSegment(s[1..]);
    }
  }

  /** Slash-free values leave the number of segments alone. */
  lemma {:induction false} FillKeepsSegments(parts: seq<string>, a: seq<string>, b: seq<string>)
    requires |parts| == |a| + 1 == |b| + 1
    requires (forall v :: v in a ==> '/' !in v) && (forall v :: v in b ==> '/' !in v)
    ensures SegmentCount(Fill(parts, a)) == SegmentCount(Fill(parts, b))
    decreases |a|
  {
    if a != [] {
      FillKeepsSegments(parts[1..], a[1..], b[1..]);
      assert a[0] in a && b[0] in b;
      SlashFreeIsOneSegment(a[0]);
      SlashFreeIsOneSegment(b[0]);
      SegmentsAddUp(parts[0], a[0]);
      SegmentsAddUp(parts[0], b[0]);
      SegmentsAddUp(parts[0] + a[0], Fill(parts[1..], a[1..]));
      SegmentsAddUp(parts[0] + b[0], Fill(parts[1..], b[1..]));
    }
  }

  /** The separate segment count never rejects what the matcher would accept. */
  lemma CountIsRedundant(t: string, u: string)
    requires Produces(Parts(t), u)
    ensures SegmentCount(t) == SegmentCount(u)
  {
    var parts := Parts(t);
    var vals :| |vals| == |parts| - 1 && (forall v :: v in vals ==> IsValue(v)) && Fill(parts, vals) == u;
    SplitIsLossless(t);
    FillKeepsSegments(parts, Params(t), vals);
  }

  // ------------------------------------------------------------------
  // Guards
  // ------------------------------------------------------------------

  predicate IsSpace(c: char) {
    || '\t' <= c <= '\r' || c == ' ' || c == '\U{00A0}' || c == '\U{1680}' || '\U{2000}' <= c <= '\U{200A}'
    || c == '\U{2028}' || c == '\U{2029}' || c == '\U{202F}' || c == '\U{205F}' || c == '\U{3000}' || c == '\U{FEFF}'
  }

  function TrimStart(s: string): string {
    if s != "" && IsSpace(s[0]) then TrimStart(s[1..]) else s
  }

  function TrimEnd(s: string): string {
    if s != "" && IsSpace(s[|s|-1]) then TrimEnd(s[..|s|-1]) else s
  }

  function Trim(s: string): string {
    TrimEnd(TrimStart(s))
  }

  predicate HasDotDot(s: string) {
    exists i :: 0 <= i < |s| - 1 && s[i] == '.' && s[i+1] == '.'
  }

  predicate IsLetter(c: char) {
    'A' <= c <= 'Z' || 'a' <= c <= 'z'
  }

  predicate IsSchemeChar(c: char) {
    IsLetter(c) || '0' <= c <= '9' || c == '+' || c == '.' || c == '-'
  }

  function SchemeRun(s: string): (n: nat)
    ensures n <= |s|
  {
    if s == "" || !IsSchemeChar(s[0]) then 0 else 1 + SchemeRun(s[1..])
  }

  function Lower(s: string): string {
    seq(|s|, i requires 0 <= i < |s| => if 'A' <= s[i] <= 'Z' then s[i] - 'A' + 'a' else s[i])
  }

  function UriScheme(s: string): Option<string> {
    var n := SchemeRun(s);
    if s != "" && IsLetter(s[0]) && n < |s| && s[n] == ':' then Some(Lower(s[..n])) else None
  }

  const DANGEROUS_SCHEMES: set<string> := {"javascript", "vbscript", "data", "file", "blob"}

  datatype JsValue = StringValue(text: string) | OtherValue

  /** Everything that is checked before counting segments and matching. */
  predicate Admissible(t: string, u: string) {
    && 1 <= |t| <= 2000 && 1 <= |u| <= 2000
    && !HasDotDot(t) && !HasDotDot(u)
    && '\0' !in t && '\0' !in u
    && UriScheme(t) == UriScheme(u)
    && !(UriScheme(t).Some? && UriScheme(t).value in DANGEROUS_SCHEMES)
  }

  /**
   * Accepts a URI exactly when it is admissible and some non-empty, slash-free
   * value for each placeholder turns the template into it.
   */
  method ValidateResourceTemplateUri(template: JsValue, uri: JsValue) returns (ok: bool)
    ensures ok <==>
              && template.StringValue? && uri.StringValue?
              && var t, u := Trim(template.text), Trim(uri.text);
                 Admissible(t, u) && Produces(Parts(t), u)
  {
    if !template.StringValue? || !uri.StringValue? {
      return false;
    }
    var t, u := Trim(template.text), Trim(uri.text);
    if |t| < 1 || |t| > 2000 || |u| < 1 || |u| > 2000 {
      return false;
    }
    if HasDotDot(t) || HasDotDot(u) {
      return false;
    }
    if '\0' in t || '\0' in u {
      return false;
    }
    var tScheme, uScheme := UriScheme(t), UriScheme(u);
    if tScheme != uScheme {
      return false;
    }
    if tScheme.Some? && tScheme.value in DANGEROUS_SCHEMES {
      return false;
    }
    if SegmentCount(t) != SegmentCount(u) {
      if Produces(Parts(t), u) { CountIsRedundant(t, u); }
      return false;
    }
    var source := TemplateToRegExpSource(t);
    PatternReadsBack(t);
    MatchIsProduction(Parts(t), u);
    var pattern := ParsePattern(source);
    return pattern.Some? && Match(pattern.value, u);
  }

  /** Two occurrences of one placeholder are independent: they may take different values. */
  lemma RepeatedPlaceholdersAreIndependent(p: string)
    requires |p| == 3 && p[0] == '{' && IsNameStart(p[1]) && p[2] == '}'
    ensures Params(p + p) == [p, p] && Produces(Parts(p + p), "xy")
  {
    OnePlaceholder(p, p);
    OnePlaceholder(p, "");
    assert p + "" == p && Parts("") == [""] && Params("") == [];
    assert (p + p)[3..] == p && p[3..] == "" && p[..3] == p;
    assert [""] + [""] == ["", ""] && [""] + ["", ""] == ["", "", ""];
    var none: seq<string> := [];
    FillCons("", [""], "y", none);
    FillCons("", ["", ""], "x", ["y"]);
    assert ["x"] + ["y"] == ["x", "y"] && ["y"] + none == ["y"];
    assert Fill(["", "", ""], ["x", "y"]) == "xy";
  }

  lemma OnePlaceholder(p: string, tail: string)
    requires |p| == 3 && p[0] == '{' && IsNameStart(p[1]) && p[2] == '}'
    ensures PlaceholderLength(p + tail) == 3 && (p + tail)[..3] == p
  {
    var t := p + tail;
    assert t[1..][0] == t[1] && t[1..][1] == '}';
    assert NameRun(t[1..][1..]) == 0;
  }
}
