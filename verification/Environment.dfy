/** internal/config/load.go: substituting ${NAME} in the string values of a configuration. */
module Environment {
  import opened Basics

  // ----- the pattern ${NAME}

  predicate NameStart(c: char) { 'A' <= c <= 'Z' || 'a' <= c <= 'z' || c == '_' }

  predicate NameChar(c: char) { NameStart(c) || '0' <= c <= '9' }

  predicate IsName(s: string) {
    && s != "" && !('0' <= s[0] <= '9')
    && forall i :: 0 <= i < |s| ==> 'A' <= s[i] <= 'Z' || 'a' <= s[i] <= 'z' || '0' <= s[i] <= '9' || s[i] == '_'
  }

  function ReferenceTo(name: string): string { "${" + name + "}" }

  /** How many leading characters are name characters. */
  function Span(s: string): (k: nat)
    ensures k <= |s| && (forall i :: 0 <= i < k ==> NameChar(s[i])) && (k < |s| ==> !NameChar(s[k]))
  {
    if s == "" || !NameChar(s[0]) then 0 else 1 + Span(s[1..])
  }

  /** The name, if s starts with a reference. */
  function MatchStart(s: string): Option<string> {
    if |s| < 2 || s[0] != '$' || s[1] != '{' then None
    else
      var k := Span(s[2..]);
      if k > 0 && NameStart(s[2]) && k + 2 < |s| && s[k + 2] == '}' then Some(s[2..k + 2]) else None
  }

  lemma {:induction false} SpanOf(name: string, rest: string)
    requires (forall i :: 0 <= i < |name| ==> NameChar(name[i])) && (rest == "" || !NameChar(rest[0]))
    ensures Span(name + rest) == |name|
  {
    if name == "" {
      assert name + rest == rest;
    } else {
      assert (name + rest)[1..] == name[1..] + rest;
      SpanOf(name[1..], rest);
    }
  }

  lemma MatchesReference(name: string, rest: string)
    requires IsName(name)
    ensures MatchStart(ReferenceTo(name) + rest) == Some(name)
  {
    var s := ReferenceTo(name) + rest;
    assert s[2..] == name + ("}" + rest);
    SpanOf(name, "}" + rest);
    assert s[2..][..|name|] == name && s[2..][|name|] == '}';
    assert s[2..|name| + 2] == name;
  }

  /** A match is a reference in front of the rest. */
  lemma MatchedReference(s: string)
    requires MatchStart(s).Some?
    ensures var name := MatchStart(s).value;
            IsName(name) && |name| + 3 <= |s| && s == ReferenceTo(name) + s[|name| + 3..]
  {
    var k := Span(s[2..]);
    assert s == s[..2] + s[2..k + 2] + s[k + 2..k + 3] + s[k + 3..];
    assert s[..2] == "${" && s[k + 2..k + 3] == "}";
    assert forall i :: 0 <= i < k ==> s[2..][i] == s[2 + i];
  }

  // ----- one scan from left to right

  datatype Piece = Letter(c: char) | Reference(name: string)

  /** The first piece of a text, and what follows it. */
  function First(s: string): (Piece, string)
    requires s != ""
    ensures |First(s).1| < |s|
  {
    match MatchStart(s)
    case Some(name) => MatchedReference(s); (Reference(name), s[|name| + 3..])
    case None => (Letter(s[0]), s[1..])
  }

  /** What the regular expression's successive leftmost matches make of a text. */
  function Pieces(s: string): seq<Piece>
    decreases |s|
  {
    if s == "" then [] else [First(s).0] + Pieces(First(s).1)
  }

  function References(pieces: seq<Piece>): seq<string> {
    if pieces == [] then []
    else (if pieces[0].Reference? then [pieces[0].name] else []) + References(pieces[1..])
  }

  function Substituted(pieces: seq<Piece>, env: map<string, string>): string {
    if pieces == [] then ""
    else
      var first := match pieces[0]
        case Letter(c) => [c]
        case Reference(name) => if name in env then env[name] else "";
      first + Substituted(pieces[1..], env)
  }

  /** A character that can stand in a reference only at its start, or not at all. */
  predicate Breaks(c: char) { !NameChar(c) && c != '{' && c != '}' }

  lemma {:induction false} SpanStops(a: string, b: string)
    requires b == "" || !NameChar(b[0])
    ensures Span(a + b) == Span(a)
  {
    SpanOf(a[..Span(a)], a[Span(a)..] + b);
    assert a + b == a[..Span(a)] + (a[Span(a)..] + b);
  }

  lemma OpensLonger(a: string, b: string)
    requires |a| >= 2
    ensures (a + b)[0] == a[0] && (a + b)[1] == a[1] && (a + b)[2..] == a[2..] + b
  {
  }

  lemma NameLonger(a: string, b: string, k: nat)
    requires |a| >= 2 && k + 2 <= |a|
    ensures (a + b)[2..k + 2] == a[2..k + 2]
  {
  }

  /** What follows a breaking character does not decide whether a text before it matches. */
  lemma MatchStops(a: string, b: string)
    requires a != "" && (b == "" || Breaks(b[0]))
    ensures MatchStart(a + b) == MatchStart(a)
  {
    if |a| >= 2 && a[0] == '$' && a[1] == '{' {
      OpensLonger(a, b);
      SpanStops(a[2..], b);
      NameLonger(a, b, Span(a[2..]));
    } else if |a| >= 2 {
      OpensLonger(a, b);
    }
  }

  lemma FirstJoin(a: string, b: string)
    requires a != "" && (b == "" || Breaks(b[0]))
    ensures First(a + b) == (First(a).0, First(a).1 + b)
  {
    MatchStops(a, b);
    match MatchStart(a)
    case Some(name) =>
      MatchedReference(a);
      assert (a + b)[|name| + 3..] == a[|name| + 3..] + b;
    case None =>
      assert (a + b)[1..] == a[1..] + b;
  }

  /** The scan of a text is the scan of its parts, when the second starts with a breaking character. */
  lemma {:induction false} PiecesJoin(a: string, b: string)
    requires b == "" || Breaks(b[0])
    ensures Pieces(a + b) == Pieces(a) + Pieces(b)
    decreases |a|
  {
    if a == "" {
      assert a + b == b;
    } else {
      FirstJoin(a, b);
      PiecesJoin(First(a).1, b);
    }
  }

  lemma {:induction false} ReferencesJoin(p: seq<Piece>, q: seq<Piece>)
    ensures References(p + q) == References(p) + References(q)
  {
    if p == [] {
      assert p + q == q;
    } else {
      assert (p + q)[1..] == p[1..] + q;
      ReferencesJoin(p[1..], q);
    }
  }

  lemma {:induction false} SubstitutedJoin(p: seq<Piece>, q: seq<Piece>, env: map<string, string>)
    ensures Substituted(p + q, env) == Substituted(p, env) + Substituted(q, env)
  {
    if p == [] {
      assert p + q == q;
    } else {
      assert (p + q)[1..] == p[1..] + q;
      SubstitutedJoin(p[1..], q, env);
    }
  }

  /** A reference to the name, between two texts. */
  function Around(a: string, name: string, b: string): string { a + (ReferenceTo(name) + b) }

  lemma PiecesAround(a: string, name: string, b: string)
    requires IsName(name)
    ensures Pieces(Around(a, name, b)) == Pieces(a) + ([Reference(name)] + Pieces(b))
  {
    var s := ReferenceTo(name) + b;
    PiecesJoin(a, s);
    MatchesReference(name, b);
    assert s[|name| + 3..] == b;
  }

  function Replaced(s: string, env: map<string, string>): string { Substituted(Pieces(s), env) }

  /** A reference anywhere in a text becomes its value; the value itself is never scanned. */
  lemma ReplacesReference(a: string, name: string, b: string, env: map<string, string>)
    requires IsName(name) && name in env
    ensures Replaced(Around(a, name, b), env) == Replaced(a, env) + (env[name] + Replaced(b, env))
  {
    PiecesAround(a, name, b);
    SubstitutedJoin(Pieces(a), [Reference(name)] + Pieces(b), env);
  }

  ghost predicate RefersTo(s: string, name: string) {
    IsName(name) && exists a, b :: s == Around(a, name, b)
  }

  /** The names found are exactly those the text refers to, wherever the references stand. */
  lemma {:induction false} FindsExactly(s: string, name: string)
    ensures name in References(Pieces(s)) <==> RefersTo(s, name)
  {
    if name in References(Pieces(s)) { FoundIsReferred(s, name); }
    if RefersTo(s, name) {
      var a, b :| s == Around(a, name, b);
      PiecesAround(a, name, b);
      ReferencesJoin(Pieces(a), [Reference(name)] + Pieces(b));
      assert References([Reference(name)] + Pieces(b))[0] == name;
    }
  }

  lemma {:induction false} FoundIsReferred(s: string, name: string)
    requires name in References(Pieces(s))
    ensures RefersTo(s, name)
    decreases |s|
  {
    var rest := First(s).1;
    if First(s).0 == Reference(name) {
      MatchedReference(s);
      assert s == Around("", name, rest);
    } else {
      FoundIsReferred(rest, name);
      assert s == s[..|s| - |rest|] + rest;
      Prefixed(s[..|s| - |rest|], rest, name);
    }
  }

  lemma Prefixed(front: string, s: string, name: string)
    requires RefersTo(s, name)
    ensures RefersTo(front + s, name)
  {
    var a, b :| s == Around(a, name, b);
    assert front + s == Around(front + a, name, b);
  }

  /** A text that refers to nothing stays as it is. */
  lemma {:induction false} ReplacesNothing(s: string, env: map<string, string>)
    requires forall name :: !RefersTo(s, name)
    ensures Replaced(s, env) == s
    decreases |s|
  {
    if s != "" {
      FirstIsLetter(s);
      forall name | RefersTo(s[1..], name)
        ensures false
      {
        assert s == [s[0]] + s[1..];
        Prefixed([s[0]], s[1..], name);
      }
      ReplacesNothing(s[1..], env);
    }
  }

  lemma FirstIsLetter(s: string)
    requires s != "" && forall name :: !RefersTo(s, name)
    ensures First(s) == (Letter(s[0]), s[1..])
  {
    if MatchStart(s).Some? {
      MatchedReference(s);
      var name := MatchStart(s).value;
      assert s == Around("", name, s[|name| + 3..]);
      assert RefersTo(s, name);
    }
  }

  // ----- sorting

  /** The order of Go's strings, on names. */
  predicate Before(a: string, b: string) {
    b != "" && (a == "" || a[0] < b[0] || (a[0] == b[0] && Before(a[1..], b[1..])))
  }

  /** A name comes before the longer ones it begins, and otherwise the first difference decides. */
  ghost predicate Precedes(a: string, b: string) {
    || (|a| < |b| && a == b[..|a|])
    || exists i :: 0 <= i < |a| && i < |b| && a[..i] == b[..i] && a[i] < b[i]
  }

  lemma {:induction false} BeforeExactly(a: string, b: string)
    ensures Before(a, b) <==> Precedes(a, b)
  {
    if a != "" && b != "" && a[0] == b[0] {
      BeforeExactly(a[1..], b[1..]);
      if Precedes(a[1..], b[1..]) {
        LongerPrecedes(a[0], a[1..], b[1..]);
        assert a == [a[0]] + a[1..] && b == [b[0]] + b[1..];
      }
      if Precedes(a, b) { ShorterPrecedes(a, b); }
    } else if a != "" && b != "" && a[0] < b[0] {
      assert a[..0] == b[..0];
    }
  }

  lemma LongerPrecedes(c: char, a: string, b: string)
    requires Precedes(a, b)
    ensures Precedes([c] + a, [c] + b)
  {
    if i :| 0 <= i < |a| && i < |b| && a[..i] == b[..i] && a[i] < b[i] {
      assert ([c] + a)[..i + 1] == [c] + a[..i] && ([c] + b)[..i + 1] == [c] + b[..i];
      assert ([c] + a)[i + 1] == a[i] && ([c] + b)[i + 1] == b[i];
    } else {
      assert ([c] + b)[..|a| + 1] == [c] + b[..|a|];
    }
  }

  lemma ShorterPrecedes(a: string, b: string)
    requires a != "" && b != "" && a[0] == b[0] && Precedes(a, b)
    ensures Precedes(a[1..], b[1..])
  {
    if i :| 0 <= i < |a| && i < |b| && a[..i] == b[..i] && a[i] < b[i] {
      assert a[1..][..i - 1] == a[..i][1..] && b[1..][..i - 1] == b[..i][1..];
      assert a[1..][i - 1] == a[i] && b[1..][i - 1] == b[i];
    } else {
      assert b[1..][..|a| - 1] == b[..|a|][1..];
    }
  }

  lemma {:induction false} BeforeTotal(a: string, b: string)
    ensures Before(a, b) || a == b || Before(b, a)
    ensures !(Before(a, b) && Before(b, a)) && !Before(a, a)
  {
    if a != "" && b != "" {
      BeforeTotal(a[1..], b[1..]);
      assert a == [a[0]] + a[1..] && b == [b[0]] + b[1..];
    }
    if a != "" { BeforeTotal(a[1..], a[1..]); }
  }

  lemma {:induction false} BeforeTransitive(a: string, b: string, c: string)
    requires Before(a, b) && Before(b, c)
    ensures Before(a, c)
  {
    if a != "" && a[0] == b[0] == c[0] { BeforeTransitive(a[1..], b[1..], c[1..]); }
  }

  predicate Ascending(s: seq<string>) {
    forall i, j :: 0 <= i < j < |s| ==> Before(s[i], s[j]) || s[i] == s[j]
  }

  predicate StrictlyAscending(s: seq<string>) {
    forall i, j :: 0 <= i < j < |s| ==> Before(s[i], s[j])
  }

  function Insert(name: string, s: seq<string>): (r: seq<string>)
    ensures multiset(r) == multiset(s) + multiset{name}
  {
    if s == [] then [name]
    else if Before(s[0], name) then
      assert s == [s[0]] + s[1..];
      [s[0]] + Insert(name, s[1..])
    else [name] + s
  }

  function Sort(s: seq<string>): (r: seq<string>)
    ensures multiset(r) == multiset(s)
  {
    if s == [] then []
    else
      assert s == [s[0]] + s[1..];
      Insert(s[0], Sort(s[1..]))
  }

  /** Drops every element equal to the one after it. */
  function Compact(s: seq<string>): seq<string> {
    if |s| <= 1 then s else if s[0] == s[1] then Compact(s[1..]) else [s[0]] + Compact(s[1..])
  }

  lemma {:induction false} InsertSorts(name: string, s: seq<string>)
    requires Ascending(s)
    ensures Ascending(Insert(name, s))
  {
    if s != [] && Before(s[0], name) {
      InsertSorts(name, s[1..]);
      var rest := Insert(name, s[1..]);
      forall x | x in rest
        ensures Before(s[0], x) || s[0] == x
      {
        assert x in multiset(rest);
        assert x == name || x in s[1..];
      }
    } else if s != [] {
      forall x | x in s
        ensures Before(name, x) || name == x
      {
        BeforeTotal(name, s[0]);
        if Before(name, s[0]) && Before(s[0], x) { BeforeTransitive(name, s[0], x); }
      }
    }
  }

  lemma {:induction false} SortSorts(s: seq<string>)
    ensures Ascending(Sort(s))
  {
    if s != [] {
      SortSorts(s[1..]);
      InsertSorts(s[0], Sort(s[1..]));
    }
  }

  /** Compacting a sorted list leaves each of its elements once, in order. */
  lemma {:induction false} CompactSorted(s: seq<string>)
    requires Ascending(s)
    ensures StrictlyAscending(Compact(s))
    ensures forall x :: x in Compact(s) <==> x in s
  {
    if |s| > 1 {
      CompactSorted(s[1..]);
      assert s == [s[0]] + s[1..];
      if s[0] != s[1] {
        forall x | x in s[1..]
          ensures Before(s[0], x)
        {
          if x != s[1] && Before(s[1], x) { BeforeTransitive(s[0], s[1], x); }
        }
      }
    }
  }

  // ----- what is missing

  function Unknown(names: seq<string>, env: map<string, string>): (r: seq<string>)
    ensures forall x :: x in r <==> x in names && x !in env
  {
    if names == [] then []
    else
      var last := names[|names| - 1];
      assert names == names[..|names| - 1] + [last];
      Unknown(names[..|names| - 1], env) + if last in env then [] else [last]
  }

  lemma UnknownNext(names: seq<string>, env: map<string, string>, i: nat)
    requires i < |names|
    ensures Unknown(names[..i + 1], env) == Unknown(names[..i], env) + if names[i] in env then [] else [names[i]]
  {
    assert names[..i + 1][..i] == names[..i];
  }

  function Missing(s: string, env: map<string, string>): seq<string> {
    Compact(Sort(Unknown(References(Pieces(s)), env)))
  }

  method MissingVariables(s: string, env: map<string, string>) returns (missing: seq<string>)
    ensures missing == Missing(s, env)
    ensures StrictlyAscending(missing)
    ensures forall name :: name in missing <==> RefersTo(s, name) && name !in env
  {
    var names := References(Pieces(s));
    missing := [];
    for i := 0 to |names|
      invariant missing == Unknown(names[..i], env)
    {
      UnknownNext(names, env, i);
      if names[i] !in env { missing := missing + [names[i]]; }
    }
    assert names[..|names|] == names;
    missing := Compact(Sort(missing));
    MissingExactly(s, env);
  }

  /** The missing names are sorted, distinct and complete. */
  lemma MissingExactly(s: string, env: map<string, string>)
    ensures StrictlyAscending(Missing(s, env))
    ensures forall name :: name in Missing(s, env) <==> RefersTo(s, name) && name !in env
  {
    var unknown := Unknown(References(Pieces(s)), env);
    SortSorts(unknown);
    CompactSorted(Sort(unknown));
    forall name
      ensures name in Missing(s, env) <==> RefersTo(s, name) && name !in env
    {
      FindsExactly(s, name);
      assert name in Sort(unknown) <==> name in multiset(Sort(unknown));
    }
  }

  /** The text with every reference replaced, or the names that are not set. */
  function ExpandEnvironment(s: string, env: map<string, string>): Result<string, seq<string>> {
    if Missing(s, env) != [] then Err(Missing(s, env)) else Ok(Replaced(s, env))
  }

  // ----- all scalars at once

  function JoinLines(values: seq<string>): string {
    if values == [] then "" else if |values| == 1 then values[0] else values[0] + ("\n" + JoinLines(values[1..]))
  }

  /** Nothing refers across the newline between two texts. */
  lemma ReferencesAcross(a: string, b: string)
    ensures References(Pieces(a + ("\n" + b))) == References(Pieces(a)) + References(Pieces(b))
  {
    var s := "\n" + b;
    PiecesJoin(a, s);
    assert First(s) == (Letter('\n'), s[1..]) && s[1..] == b;
    ReferencesJoin(Pieces(a), Pieces(s));
  }

  /** The joined text refers to a name exactly when some text alone does. */
  lemma {:induction false} JoinedReferences(values: seq<string>, name: string)
    ensures name in References(Pieces(JoinLines(values))) <==>
            exists i :: 0 <= i < |values| && name in References(Pieces(values[i]))
  {
    if |values| > 1 {
      JoinedReferences(values[1..], name);
      ReferencesAcross(values[0], JoinLines(values[1..]));
      assert forall i :: 0 <= i < |values| - 1 ==> values[1..][i] == values[i + 1];
      assert forall i :: 0 < i < |values| ==> values[i] == values[1..][i - 1];
    }
  }

  lemma JoinedMissing(values: seq<string>, env: map<string, string>, name: string)
    ensures name in Missing(JoinLines(values), env) <==>
              exists i :: 0 <= i < |values| && name in Missing(values[i], env)
  {
    MissingExactly(JoinLines(values), env);
    JoinedReferences(values, name);
    FindsExactly(JoinLines(values), name);
    forall i | 0 <= i < |values|
      ensures name in Missing(values[i], env) <==> name in References(Pieces(values[i])) && name !in env
    {
      MissingExactly(values[i], env);
      FindsExactly(values[i], name);
    }
  }

  /** The names some text refers to and the environment lacks: in order, each once. */
  ghost predicate AreMissing(missing: seq<string>, values: seq<string>, env: map<string, string>) {
    && StrictlyAscending(missing)
    && forall name :: name in missing <==> exists i :: 0 <= i < |values| && RefersTo(values[i], name) && name !in env
  }

  lemma JoinedNames(values: seq<string>, env: map<string, string>)
    ensures AreMissing(Missing(JoinLines(values), env), values, env)
  {
    var missing := Missing(JoinLines(values), env);
    MissingExactly(JoinLines(values), env);
    forall name
      ensures name in missing <==> exists i :: 0 <= i < |values| && RefersTo(values[i], name) && name !in env
    {
      JoinedMissing(values, env, name);
      forall i | 0 <= i < |values|
        ensures name in Missing(values[i], env) <==> RefersTo(values[i], name) && name !in env
      {
        MissingExactly(values[i], env);
      }
    }
  }

  predicate AllExpand(values: seq<string>, env: map<string, string>) {
    forall i :: 0 <= i < |values| ==> ExpandEnvironment(values[i], env).Ok?
  }

  /** Checking the scalars together fails exactly when some scalar alone would. */
  lemma JoinedFails(values: seq<string>, env: map<string, string>)
    ensures ExpandEnvironment(JoinLines(values), env).Ok? <==>
            AllExpand(values, env)
  {
    var joined := Missing(JoinLines(values), env);
    if joined != [] {
      JoinedMissing(values, env, joined[0]);
    }
    forall i | 0 <= i < |values| && Missing(values[i], env) != []
      ensures joined != []
    {
      JoinedMissing(values, env, Missing(values[i], env)[0]);
    }
  }

  /** A scalar of the document tree. */
  class Node {
    var value: string

    constructor (value: string)
      ensures this.value == value
    {
      this.value := value;
    }
  }

  function Values(scalars: seq<Node>): (values: seq<string>)
    reads scalars
    ensures |values| == |scalars| && forall i :: 0 <= i < |scalars| ==> values[i] == scalars[i].value
  {
    seq(|scalars|, i requires 0 <= i < |scalars| reads scalars => scalars[i].value)
  }

  function AllReplaced(values: seq<string>, env: map<string, string>): seq<string> {
    seq(|values|, i requires 0 <= i < |values| => Replaced(values[i], env))
  }

  method ReadValues(scalars: seq<Node>) returns (values: seq<string>)
    ensures values == Values(scalars)
  {
    values := [];
    for i := 0 to |scalars|
      invariant values == Values(scalars)[..i]
    {
      values := values + [scalars[i].value];
    }
  }

  method ReplaceOne(scalar: Node, env: map<string, string>, ghost target: string)
    requires ExpandEnvironment(scalar.value, env) == Ok(target)
    modifies scalar
    ensures scalar.value == target
  {
    match ExpandEnvironment(scalar.value, env)
    case Ok(expanded) => scalar.value := expanded;
    case Err(_) => assert false;
  }

  /** Replaces texts that are all known to expand, one after the other. */
  method ReplaceEach(scalars: seq<Node>, env: map<string, string>, ghost targets: seq<string>)
    requires forall i, j :: 0 <= i < j < |scalars| ==> scalars[i] != scalars[j]
    requires |targets| == |scalars|
    requires forall i :: 0 <= i < |scalars| ==> ExpandEnvironment(scalars[i].value, env) == Ok(targets[i])
    modifies scalars
    ensures forall i :: 0 <= i < |scalars| ==> scalars[i].value == targets[i]
  {
    for i := 0 to |scalars|
      invariant forall j :: 0 <= j < i ==> scalars[j].value == targets[j]
      invariant forall j :: i <= j < |scalars| ==> scalars[j].value == old(scalars[j].value)
    {
      assert scalars[i].value == old(scalars[i].value);
      ReplaceOne(scalars[i], env, targets[i]);
    }
  }

  /** Expands every scalar in place, or none: on an error nothing has changed and every missing name is given. */
  method ExpandScalars(scalars: seq<Node>, env: map<string, string>) returns (r: Result<(), seq<string>>)
    requires forall i, j :: 0 <= i < j < |scalars| ==> scalars[i] != scalars[j]
    modifies scalars
    ensures r.Ok? <==> AllExpand(old(Values(scalars)), env)
    ensures Values(scalars) == if r.Ok? then AllReplaced(old(Values(scalars)), env) else old(Values(scalars))
    ensures r.Err? ==> AreMissing(r.error, old(Values(scalars)), env)
  {
    var values := ReadValues(scalars);
    JoinedFails(values, env);
    match ExpandEnvironment(JoinLines(values), env) {
      case Err(missing) =>
        JoinedNames(values, env);
        return Err(missing);
      case Ok(_) =>
    }
    ReplaceEach(scalars, env, AllReplaced(values, env));
    assert Values(scalars) == AllReplaced(values, env);
    return Ok(());
  }
}
