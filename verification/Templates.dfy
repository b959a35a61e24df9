/**
 Command templates: finding `{name}` placeholders, and substituting them by repeated
 whole-string replacement, compared with substituting them all at once.
 */
module Templates {
  import opened Basics

  /** A template split at its placeholders. */
  datatype Template = End(text: string) | Hole(text: string, name: string, rest: Template)

  function Placeholder(name: string): string {
    "{" + name + "}"
  }

  function Text(t: Template): string {
    match t
    case End(x) => x
    case Hole(x, n, r) => x + Placeholder(n) + Text(r)
  }

  function Names(t: Template): seq<string> {
    match t
    case End(_) => []
    case Hole(_, n, r) => [n] + Names(r)
  }

  predicate NoBrace(s: string) {
    '{' !in s && '}' !in s
  }

  /** No placeholder name contains a brace. */
  predicate PlainNames(t: Template) {
    t.Hole? ==> NoBrace(t.name) && PlainNames(t.rest)
  }

  // ---------------------------------------------------------------------------
  // Finding placeholders: captures_iter of \{([class]+)\}
  // ---------------------------------------------------------------------------

  /** How many leading characters of s are in the class. */
  function Run(s: string, inClass: char -> bool): (n: nat)
    ensures n <= |s|
    ensures forall i :: 0 <= i < n ==> inClass(s[i])
    ensures n < |s| ==> !inClass(s[n])
  {
    if s == "" || !inClass(s[0]) then 0 else 1 + Run(s[1..], inClass)
  }

  /** The name of the placeholder at the start of s, if there is one. */
  function MatchAtStart(s: string, inClass: char -> bool): Option<string> {
    if s == "" || s[0] != '{' then None
    else
      var n := Run(s[1..], inClass);
      if n > 0 && n + 1 < |s| && s[n + 1] == '}' then Some(s[1..n + 1]) else None
  }

  /** Leftmost, non-overlapping matches; `before` is the text since the last one. */
  function ScanFrom(before: string, s: string, inClass: char -> bool): Template
    decreases |s|
  {
    if s == "" then End(before)
    else
      match MatchAtStart(s, inClass)
      case Some(n) => Hole(before, n, ScanFrom("", s[|n| + 2..], inClass))
      case None => ScanFrom(before + [s[0]], s[1..], inClass)
  }

  function Scan(s: string, inClass: char -> bool): Template {
    ScanFrom("", s, inClass)
  }

  lemma {:induction false} RunIs(s: string, inClass: char -> bool, k: nat)
    requires k <= |s| && (forall i :: 0 <= i < k ==> inClass(s[i])) && (k < |s| ==> !inClass(s[k]))
    ensures Run(s, inClass) == k
  {
    if k > 0 {
      RunIs(s[1..], inClass, k - 1);
    }
  }

  lemma MatchSplits(s: string, inClass: char -> bool)
    requires !inClass('{') && !inClass('}') && MatchAtStart(s, inClass).Some?
    ensures var n := MatchAtStart(s, inClass).value;
            && n != "" && NoBrace(n) && (forall c :: c in n ==> inClass(c))
            && |n| + 2 <= |s| && s == Placeholder(n) + s[|n| + 2..]
  {
    var n := Run(s[1..], inClass);
    assert s[1..n + 1] == s[1..][..n];
    assert forall c :: c in s[1..][..n] ==> inClass(c);
    assert s == [s[0]] + s[1..n + 1] + [s[n + 1]] + s[n + 2..];
  }

  lemma HoleIsExact(before: string, n: string, r: Template, s: string, inClass: char -> bool)
    requires s == Placeholder(n) + Text(r) && PlainNames(r) && NoBrace(n)
    requires n != "" && (forall c :: c in n ==> inClass(c))
    requires forall m :: m in Names(r) ==> m != "" && forall c :: c in m ==> inClass(c)
    ensures Text(Hole(before, n, r)) == before + s && PlainNames(Hole(before, n, r))
    ensures forall m :: m in Names(Hole(before, n, r)) ==> m != "" && forall c :: c in m ==> inClass(c)
  {
    assert before + Placeholder(n) + Text(r) == before + s;
  }

  /** Splitting loses nothing, and finds only names made of class characters. */
  lemma {:induction false} ScanFromIsExact(before: string, s: string, inClass: char -> bool)
    requires !inClass('{') && !inClass('}')
    ensures Text(ScanFrom(before, s, inClass)) == before + s
    ensures PlainNames(ScanFrom(before, s, inClass))
    ensures forall n :: n in Names(ScanFrom(before, s, inClass)) ==> n != "" && forall c :: c in n ==> inClass(c)
    decreases |s|
  {
    if s != "" {
      match MatchAtStart(s, inClass)
      case Some(n) =>
        MatchSplits(s, inClass);
        ScanFromIsExact("", s[|n| + 2..], inClass);
        HoleIsExact(before, n, ScanFrom("", s[|n| + 2..], inClass), s, inClass);
      case None =>
        ScanFromIsExact(before + [s[0]], s[1..], inClass);
        assert before + [s[0]] + s[1..] == before + s;
    }
  }

  /** Without an opening brace there is nothing to find. */
  lemma {:induction false} ScanFindsNone(before: string, s: string, inClass: char -> bool)
    requires '{' !in s
    ensures ScanFrom(before, s, inClass) == End(before + s)
    decreases |s|
  {
    if s != "" {
      assert s[0] in s;
      ScanFindsNone(before + [s[0]], s[1..], inClass);
      assert before + [s[0]] + s[1..] == before + s;
    }
  }

  lemma ScanIsExact(s: string, inClass: char -> bool)
    requires !inClass('{') && !inClass('}')
    ensures Text(Scan(s, inClass)) == s && PlainNames(Scan(s, inClass))
    ensures forall n :: n in Names(Scan(s, inClass)) ==> n != "" && forall c :: c in n ==> inClass(c)
  {
    ScanFromIsExact("", s, inClass);
  }

  /** The scan finds a name exactly when its placeholder occurs in the string. */
  lemma ScanFindsIff(s: string, inClass: char -> bool, n: string)
    requires !inClass('{') && !inClass('}') && n != "" && forall c :: c in n ==> inClass(c)
    ensures n in Names(Scan(s, inClass)) <==> Occurs(s, Placeholder(n))
  {
    ScanIsExact(s, inClass);
    if Occurs(s, Placeholder(n)) {
      var i: nat :| OccursAt(s, Placeholder(n), i);
      ScanFinds("", s, inClass, n, i);
    } else if n in Names(Scan(s, inClass)) {
      NameOccurs(Scan(s, inClass), n);
    }
  }

  lemma {:induction false} NameOccurs(t: Template, n: string)
    requires n in Names(t)
    ensures Occurs(Text(t), Placeholder(n))
  {
    if n == t.name {
      var i := |t.text|;
      assert Text(t)[i..i + |Placeholder(n)|] == Placeholder(n);
      assert OccursAt(Text(t), Placeholder(n), i);
    } else {
      NameOccurs(t.rest, n);
      var j: nat :| OccursAt(Text(t.rest), Placeholder(n), j);
      var k := |t.text + Placeholder(t.name)|;
      assert Text(t)[k + j..k + j + |Placeholder(n)|] == Text(t.rest)[j..j + |Placeholder(n)|];
      assert OccursAt(Text(t), Placeholder(n), k + j);
    }
  }

  lemma MatchIsUnique(s: string, inClass: char -> bool, n: string)
    requires !inClass('}') && n != "" && (forall c :: c in n ==> inClass(c)) && OccursAt(s, Placeholder(n), 0)
    ensures MatchAtStart(s, inClass) == Some(n)
  {
    var p := Placeholder(n);
    assert forall i :: 0 <= i < |p| ==> s[i] == s[0..|p|][i] == p[i];
    assert s[1..][|n|] == '}';
    assert forall i :: 0 <= i < |n| ==> s[1..][i] == n[i] && n[i] in n;
    RunIs(s[1..], inClass, |n|);
    assert s[1..|n| + 1] == n;
  }

  /** An occurrence behind the first match lies wholly after it. */
  lemma LaterMatch(s: string, inClass: char -> bool, n: string, i: nat)
    requires !inClass('{') && !inClass('}') && i > 0 && OccursAt(s, Placeholder(n), i) && MatchAtStart(s, inClass).Some?
    ensures var m := MatchAtStart(s, inClass).value;
            |m| + 2 <= i && |m| + 2 <= |s| && OccursAt(s[|m| + 2..], Placeholder(n), i - |m| - 2)
  {
    var m, p := MatchAtStart(s, inClass).value, Placeholder(n);
    MatchSplits(s, inClass);
    assert s[i] == s[i..i + |p|][0] == '{';
    assert forall j :: 1 <= j < |m| + 2 ==> s[j] == Placeholder(m)[j] != '{';
    assert i >= |m| + 2;
    assert s[|m| + 2..][i - |m| - 2..i - |m| - 2 + |p|] == s[i..i + |p|];
  }

  lemma {:induction false} ScanFinds(before: string, s: string, inClass: char -> bool, n: string, i: nat)
    requires !inClass('{') && !inClass('}') && n != "" && forall c :: c in n ==> inClass(c)
    requires OccursAt(s, Placeholder(n), i)
    ensures n in Names(ScanFrom(before, s, inClass))
    decreases |s|
  {
    var p := Placeholder(n);
    assert s[i..i + |p|][0] == '{' == s[i];
    if i == 0 {
      MatchIsUnique(s, inClass, n);
    } else {
      match MatchAtStart(s, inClass)
      case Some(m) =>
        LaterMatch(s, inClass, n, i);
        ScanFinds("", s[|m| + 2..], inClass, n, i - |m| - 2);
      case None =>
        assert s[1..][i - 1..i - 1 + |p|] == s[i..i + |p|];
        ScanFinds(before + [s[0]], s[1..], inClass, n, i - 1);
    }
  }

  ghost predicate Occurs(s: string, p: string) {
    exists i: nat :: OccursAt(s, p, i)
  }

  predicate OccursAt(s: string, p: string, i: nat) {
    i + |p| <= |s| && s[i..i + |p|] == p
  }

  // ---------------------------------------------------------------------------
  // Replacing
  // ---------------------------------------------------------------------------

  /** str::replace: leftmost, non-overlapping occurrences, left to right. */
  function Replace(s: string, p: string, v: string): string
    requires p != ""
    decreases |s|
  {
    if |s| < |p| then s
    else if s[..|p|] == p then v + Replace(s[|p|..], p, v)
    else [s[0]] + Replace(s[1..], p, v)
  }

  lemma {:induction false} ReplaceNothing(s: string, p: string, v: string)
    requires p != "" && !Occurs(s, p)
    ensures Replace(s, p, v) == s
    decreases |s|
  {
    if |s| >= |p| {
      assert !OccursAt(s, p, 0);
      forall i: nat ensures !OccursAt(s[1..], p, i) {
        if OccursAt(s[1..], p, i) {
          assert s[1..][i..i + |p|] == s[i + 1..i + 1 + |p|];
          assert OccursAt(s, p, i + 1);
        }
      }
      ReplaceNothing(s[1..], p, v);
    }
  }

  /** A placeholder never straddles an opening brace. */
  lemma NoStraddle(x: string, w: string, n: string)
    requires NoBrace(n) && x != "" && w != "" && w[0] == '{'
    requires |x + w| >= |Placeholder(n)| && (x + w)[..|Placeholder(n)|] == Placeholder(n)
    ensures |x| >= |Placeholder(n)| && x[..|Placeholder(n)|] == Placeholder(n)
  {
    var p := Placeholder(n);
    assert forall j :: 0 <= j < |p| ==> (x + w)[j] == (x + w)[..|p|][j] == p[j];
    assert forall j :: 1 <= j < |p| ==> p[j] != '{';
    assert (x + w)[|x|] == '{';
    assert |x| >= |p|;
    assert x[..|p|] == (x + w)[..|p|];
  }

  lemma SplitAtMatch(x: string, w: string, n: string, v: string)
    requires NoBrace(n) && x != "" && w != "" && w[0] == '{'
    requires |x + w| >= |Placeholder(n)| && (x + w)[..|Placeholder(n)|] == Placeholder(n)
    ensures |x| >= |Placeholder(n)| && (x + w)[|Placeholder(n)|..] == x[|Placeholder(n)|..] + w
    ensures Replace(x, Placeholder(n), v) == v + Replace(x[|Placeholder(n)|..], Placeholder(n), v)
    ensures Replace(x + w, Placeholder(n), v) == v + Replace(x[|Placeholder(n)|..] + w, Placeholder(n), v)
  {
    NoStraddle(x, w, n);
    assert (x + w)[|Placeholder(n)|..] == x[|Placeholder(n)|..] + w;
  }

  lemma SplitAtSkip(x: string, w: string, n: string, v: string)
    requires x != "" && |x + w| >= |Placeholder(n)| && (x + w)[..|Placeholder(n)|] != Placeholder(n)
    ensures Replace(x + w, Placeholder(n), v) == [x[0]] + Replace(x[1..] + w, Placeholder(n), v)
    ensures Replace(x, Placeholder(n), v) == [x[0]] + Replace(x[1..], Placeholder(n), v)
  {
    var p := Placeholder(n);
    assert (x + w)[1..] == x[1..] + w && x == [x[0]] + x[1..];
    if |x| >= |p| {
      assert x[..|p|] == (x + w)[..|p|];
    }
  }

  lemma {:induction false} ReplaceSplits(x: string, w: string, n: string, v: string)
    requires NoBrace(n) && w != "" && w[0] == '{'
    ensures Replace(x + w, Placeholder(n), v) == Replace(x, Placeholder(n), v) + Replace(w, Placeholder(n), v)
    decreases |x|
  {
    var p := Placeholder(n);
    if x == "" {
      assert x + w == w;
    } else if |x + w| >= |p| && (x + w)[..|p|] == p {
      SplitAtMatch(x, w, n, v);
      ReplaceSplits(x[|p|..], w, n, v);
      assert v + (Replace(x[|p|..], p, v) + Replace(w, p, v)) == (v + Replace(x[|p|..], p, v)) + Replace(w, p, v);
    } else if |x + w| >= |p| {
      SplitAtSkip(x, w, n, v);
      ReplaceSplits(x[1..], w, n, v);
      AppendAfterFirst(x[0], Replace(x[1..], p, v), Replace(w, p, v));
    } else {
      assert Replace(x + w, p, v) == x + w && Replace(x, p, v) == x && Replace(w, p, v) == w;
    }
  }

  lemma AppendAfterFirst(c: char, a: string, b: string)
    ensures [c] + (a + b) == ([c] + a) + b
  {
  }

  lemma ReplaceSkipsOne(c: char, z: string, n: string, v: string)
    requires c != '{'
    ensures Replace([c] + z, Placeholder(n), v) == [c] + Replace(z, Placeholder(n), v)
  {
    var s, p := [c] + z, Placeholder(n);
    assert s[1..] == z;
    if |s| >= |p| {
      assert s[..|p|][0] == c;
    } else {
      assert Replace(z, p, v) == z;
    }
  }

  lemma FirstAndRest(q: string, y: string)
    requires q != ""
    ensures [q[0]] + (q[1..] + y) == q + y
  {
  }

  /** Text without an opening brace is left alone. */
  lemma {:induction false} ReplaceSkips(q: string, y: string, n: string, v: string)
    requires '{' !in q
    ensures Replace(q + y, Placeholder(n), v) == q + Replace(y, Placeholder(n), v)
    decreases |q|
  {
    if q == "" {
      assert q + y == y;
    } else {
      ReplaceSkips(q[1..], y, n, v);
      ReplaceSkipsOne(q[0], q[1..] + y, n, v);
      FirstAndRest(q, y);
      FirstAndRest(q, Replace(y, Placeholder(n), v));
    }
  }

  /** Two placeholders that start at the same brace are the same. */
  lemma SamePlaceholder(m: string, y: string, n: string)
    requires NoBrace(m) && NoBrace(n)
    requires |Placeholder(m) + y| >= |Placeholder(n)| && (Placeholder(m) + y)[..|Placeholder(n)|] == Placeholder(n)
    ensures m == n
  {
    var s, p := Placeholder(m) + y, Placeholder(n);
    assert forall i :: 0 <= i < |p| ==> s[i] == p[i];
    assert s[|m| + 1] == '}' && p[|n| + 1] == '}';
    assert forall i :: 1 <= i <= |m| ==> s[i] == m[i - 1] != '}';
    assert forall i :: 1 <= i <= |n| ==> p[i] == n[i - 1] != '}';
    assert |m| == |n|;
    assert forall i :: 0 <= i < |n| ==> m[i] == s[i + 1] == p[i + 1] == n[i];
  }

  lemma ReplaceSameHole(y: string, n: string, v: string)
    ensures Replace(Placeholder(n) + y, Placeholder(n), v) == v + Replace(y, Placeholder(n), v)
  {
    var s, p := Placeholder(n) + y, Placeholder(n);
    assert s[..|p|] == p && s[|p|..] == y;
  }

  lemma ReplaceOtherHole(m: string, y: string, n: string, v: string)
    requires NoBrace(m) && NoBrace(n) && m != n
    ensures Replace(Placeholder(m) + y, Placeholder(n), v) == Placeholder(m) + Replace(y, Placeholder(n), v)
  {
    var s, p := Placeholder(m) + y, Placeholder(n);
    NotThisHole(m, y, n);
    assert s == "{" + ((m + "}") + y) && s[1..] == (m + "}") + y;
    ReplaceSkips(m + "}", y, n, v);
    if |s| < |p| {
      assert Replace(y, p, v) == y;
    } else {
      assert Replace(s, p, v) == ["{"[0]] + Replace(s[1..], p, v);
    }
    assert Placeholder(m) == "{" + (m + "}");
  }

  lemma NotThisHole(m: string, y: string, n: string)
    requires NoBrace(m) && NoBrace(n) && m != n
    ensures |Placeholder(m) + y| >= |Placeholder(n)| ==> (Placeholder(m) + y)[..|Placeholder(n)|] != Placeholder(n)
  {
    var s, p := Placeholder(m) + y, Placeholder(n);
    if |s| >= |p| && s[..|p|] == p {
      SamePlaceholder(m, y, n);
    }
  }

  lemma ReplaceAtHole(m: string, y: string, n: string, v: string)
    requires NoBrace(m) && NoBrace(n)
    ensures Replace(Placeholder(m) + y, Placeholder(n), v)
            == (if m == n then v else Placeholder(m)) + Replace(y, Placeholder(n), v)
  {
    if m == n {
      ReplaceSameHole(y, n, v);
    } else {
      ReplaceOtherHole(m, y, n, v);
    }
  }

  // ---------------------------------------------------------------------------
  // Replacing on split templates
  // ---------------------------------------------------------------------------

  function Prepend(x: string, t: Template): Template {
    match t
    case End(y) => End(x + y)
    case Hole(y, n, r) => Hole(x + y, n, r)
  }

  /** What Replace does to a template: it fills the holes of that name, and rewrites the text between holes. */
  function Rewrite(t: Template, n: string, v: string): Template {
    match t
    case End(x) => End(Replace(x, Placeholder(n), v))
    case Hole(x, m, r) =>
      var x' := Replace(x, Placeholder(n), v);
      if m == n then Prepend(x' + v, Rewrite(r, n, v)) else Hole(x', m, Rewrite(r, n, v))
  }

  /** What it is meant to do: fill the holes of that name. */
  function Fill(t: Template, n: string, v: string): Template {
    match t
    case End(x) => t
    case Hole(x, m, r) => if m == n then Prepend(x + v, Fill(r, n, v)) else Hole(x, m, Fill(r, n, v))
  }

  lemma PrependText(x: string, t: Template)
    ensures Text(Prepend(x, t)) == x + Text(t)
  {
    if t.Hole? {
      assert x + t.text + Placeholder(t.name) + Text(t.rest) == x + (t.text + Placeholder(t.name) + Text(t.rest));
    }
  }

  lemma ReplaceAroundHole(x: string, m: string, y: string, n: string, v: string)
    requires NoBrace(m) && NoBrace(n)
    ensures var p := Placeholder(n);
            Replace(x + Placeholder(m) + y, p, v)
            == Replace(x, p, v) + (if m == n then v else Placeholder(m)) + Replace(y, p, v)
  {
    var p, h := Placeholder(n), if m == n then v else Placeholder(m);
    assert x + Placeholder(m) + y == x + (Placeholder(m) + y);
    ReplaceSplits(x, Placeholder(m) + y, n, v);
    ReplaceAtHole(m, y, n, v);
    assert Replace(x, p, v) + (h + Replace(y, p, v)) == Replace(x, p, v) + h + Replace(y, p, v);
  }

  lemma {:induction false} RewritePlain(t: Template, n: string, v: string)
    requires PlainNames(t)
    ensures PlainNames(Rewrite(t, n, v))
  {
    if t.Hole? {
      RewritePlain(t.rest, n, v);
    }
  }

  lemma {:induction false} ReplaceIsRewrite(t: Template, n: string, v: string)
    requires PlainNames(t) && NoBrace(n)
    ensures Replace(Text(t), Placeholder(n), v) == Text(Rewrite(t, n, v))
  {
    match t
    case End(x) =>
    case Hole(x, m, r) =>
      ReplaceAroundHole(x, m, Text(r), n, v);
      ReplaceIsRewrite(r, n, v);
      if m == n {
        PrependText(Replace(x, Placeholder(n), v) + v, Rewrite(r, n, v));
      }
  }

  // ---------------------------------------------------------------------------
  // Iterated replacement and one-pass substitution
  // ---------------------------------------------------------------------------

  type Values = map<string, string>

  /** The loop of substitute_parameters: one whole-string replacement per match, in order. */
  function Iterate(s: string, names: seq<string>, values: Values): string
    requires forall n :: n in names ==> n in values
    decreases |names|
  {
    if names == [] then s
    else Iterate(Replace(s, Placeholder(names[0]), values[names[0]]), names[1..], values)
  }

  /** All placeholders replaced at once. */
  function OnePass(t: Template, values: Values): string
    requires forall n :: n in Names(t) ==> n in values
  {
    match t
    case End(x) => x
    case Hole(x, n, r) =>
      assert forall m :: m in Names(r) ==> m in Names(t);
      x + values[n] + OnePass(r, values)
  }

  /** The text between holes does not contain the placeholder p by accident. */
  ghost predicate TextFree(t: Template, p: string) {
    !Occurs(t.text, p) && (t.Hole? ==> TextFree(t.rest, p))
  }

  /**
   No replacement captures text that is not one of the template's own holes: when the turn of
   a name comes, the text made so far, of template and earlier values, does not contain its
   placeholder.
   */
  ghost predicate NoCapture(t: Template, names: seq<string>, values: Values)
    requires forall n :: n in names ==> n in values
    decreases |names|
  {
    names == [] ||
    (TextFree(t, Placeholder(names[0])) && NoCapture(Fill(t, names[0], values[names[0]]), names[1..], values))
  }

  function RewriteAll(t: Template, names: seq<string>, values: Values): Template
    requires forall n :: n in names ==> n in values
    decreases |names|
  {
    if names == [] then t else RewriteAll(Rewrite(t, names[0], values[names[0]]), names[1..], values)
  }

  function FillAll(t: Template, names: seq<string>, values: Values): Template
    requires forall n :: n in names ==> n in values
    decreases |names|
  {
    if names == [] then t else FillAll(Fill(t, names[0], values[names[0]]), names[1..], values)
  }

  lemma {:induction false} IterateIsRewriteAll(t: Template, names: seq<string>, values: Values)
    requires PlainNames(t) && forall n :: n in names ==> n in values && NoBrace(n)
    ensures Iterate(Text(t), names, values) == Text(RewriteAll(t, names, values))
    decreases |names|
  {
    if names != [] {
      ReplaceIsRewrite(t, names[0], values[names[0]]);
      RewritePlain(t, names[0], values[names[0]]);
      IterateIsRewriteAll(Rewrite(t, names[0], values[names[0]]), names[1..], values);
    }
  }

  // Filling every hole is substituting at once.

  lemma {:induction false} FillNames(t: Template, n: string, v: string)
    ensures forall m :: m in Names(Fill(t, n, v)) <==> m in Names(t) && m != n
  {
    if t.Hole? {
      FillNames(t.rest, n, v);
      assert forall x, u :: Names(Prepend(x, u)) == Names(u);
    }
  }

  lemma {:induction false} FillOnePass(t: Template, n: string, values: Values)
    requires n in values && forall m :: m in Names(t) ==> m in values
    ensures forall m :: m in Names(Fill(t, n, values[n])) ==> m in values
    ensures OnePass(Fill(t, n, values[n]), values) == OnePass(t, values)
  {
    FillNames(t, n, values[n]);
    match t
    case End(_) =>
    case Hole(x, m, r) =>
      assert forall k :: k in Names(r) ==> k in Names(t);
      FillNames(r, n, values[n]);
      FillOnePass(r, n, values);
      if m == n {
        PrependOnePass(x + values[n], Fill(r, n, values[n]), values);
      }
  }

  lemma PrependOnePass(x: string, t: Template, values: Values)
    requires forall m :: m in Names(t) ==> m in values
    ensures Names(Prepend(x, t)) == Names(t)
    ensures OnePass(Prepend(x, t), values) == x + OnePass(t, values)
  {
    if t.Hole? {
      assert forall m :: m in Names(t.rest) ==> m in Names(t);
      assert x + t.text + values[t.name] + OnePass(t.rest, values) == x + (t.text + values[t.name] + OnePass(t.rest, values));
    }
  }

  lemma HoleIsNamed(t: Template)
    ensures t.Hole? ==> t.name in Names(t)
  {
  }

  lemma {:induction false} FillAllIsOnePass(t: Template, names: seq<string>, values: Values)
    requires forall n :: n in names ==> n in values
    requires forall n :: n in Names(t) ==> n in names
    ensures FillAll(t, names, values) == End(OnePass(t, values))
    decreases |names|
  {
    if names == [] {
      HoleIsNamed(t);
    } else {
      FillNames(t, names[0], values[names[0]]);
      FillOnePass(t, names[0], values);
      FillAllIsOnePass(Fill(t, names[0], values[names[0]]), names[1..], values);
    }
  }

  // ---------------------------------------------------------------------------
  // When the two agree
  // ---------------------------------------------------------------------------

  lemma {:induction false} RewriteIsFill(t: Template, n: string, v: string)
    requires TextFree(t, Placeholder(n))
    ensures Rewrite(t, n, v) == Fill(t, n, v)
  {
    ReplaceNothing(t.text, Placeholder(n), v);
    if t.Hole? {
      RewriteIsFill(t.rest, n, v);
    }
  }

  lemma {:induction false} NoCaptureFills(t: Template, names: seq<string>, values: Values)
    requires forall n :: n in names ==> n in values
    requires NoCapture(t, names, values)
    ensures RewriteAll(t, names, values) == FillAll(t, names, values)
    decreases |names|
  {
    if names != [] {
      RewriteIsFill(t, names[0], values[names[0]]);
      NoCaptureFills(Fill(t, names[0], values[names[0]]), names[1..], values);
    }
  }

  /** Opening braces, and those of them that belong to no placeholder. */
  function Opens(s: string): nat {
    if s == "" then 0 else (if s[0] == '{' then 1 else 0) + Opens(s[1..])
  }

  function Strays(t: Template): nat {
    Opens(t.text) + if t.Hole? then Strays(t.rest) else 0
  }

  lemma {:induction false} OpensAppend(a: string, b: string)
    ensures Opens(a + b) == Opens(a) + Opens(b)
    decreases |a|
  {
    if a == "" {
      assert a + b == b;
    } else {
      assert (a + b)[1..] == a[1..] + b;
      OpensAppend(a[1..], b);
    }
  }

  lemma {:induction false} OpensNone(s: string)
    ensures Opens(s) == 0 <==> '{' !in s
    decreases |s|
  {
    if s != "" {
      OpensNone(s[1..]);
      assert s == [s[0]] + s[1..];
    }
  }

  lemma PlaceholderOpens(n: string)
    requires NoBrace(n)
    ensures Opens(Placeholder(n)) == 1
  {
    OpensNone(n);
    OpensAppend("{" + n, "}");
    OpensAppend("{", n);
  }

  lemma OccursBehind(s: string, p: string)
    requires |s| >= |p| > 0 && s[..|p|] != p
    ensures Occurs(s, p) ==> Occurs(s[1..], p)
  {
    if i: nat :| OccursAt(s, p, i) {
      assert s[0..|p|] == s[..|p|];
      assert i > 0;
      assert s[1..][i - 1..i - 1 + |p|] == s[i..i + |p|];
      assert OccursAt(s[1..], p, i - 1);
    }
  }

  /** Replacing by a value without opening braces removes one for every occurrence. */
  lemma {:induction false} ReplaceOpens(s: string, n: string, v: string)
    requires NoBrace(n) && '{' !in v
    ensures Opens(Replace(s, Placeholder(n), v)) <= Opens(s)
    ensures Occurs(s, Placeholder(n)) ==> Opens(Replace(s, Placeholder(n), v)) < Opens(s)
    decreases |s|
  {
    var p := Placeholder(n);
    if |s| < |p| {
    } else if s[..|p|] == p {
      ReplaceOpens(s[|p|..], n, v);
      assert s == p + s[|p|..];
      OpensAppend(p, s[|p|..]);
      PlaceholderOpens(n);
      OpensAppend(v, Replace(s[|p|..], p, v));
      OpensNone(v);
    } else {
      ReplaceOpens(s[1..], n, v);
      OpensAppend([s[0]], Replace(s[1..], p, v));
      OccursBehind(s, p);
    }
  }

  lemma PrependStrays(x: string, t: Template)
    ensures Strays(Prepend(x, t)) == Opens(x) + Strays(t)
  {
    OpensAppend(x, t.text);
  }

  lemma {:induction false} RewriteStrays(t: Template, n: string, v: string)
    requires NoBrace(n) && '{' !in v
    ensures Strays(Rewrite(t, n, v)) <= Strays(t)
    ensures !TextFree(t, Placeholder(n)) ==> Strays(Rewrite(t, n, v)) < Strays(t)
  {
    ReplaceOpens(t.text, n, v);
    if t.Hole? {
      RewriteStrays(t.rest, n, v);
      var x := Replace(t.text, Placeholder(n), v);
      PrependStrays(x + v, Rewrite(t.rest, n, v));
      OpensAppend(x, v);
      OpensNone(v);
    }
  }

  lemma {:induction false} FillStrays(t: Template, n: string, v: string)
    requires '{' !in v
    ensures Strays(Fill(t, n, v)) == Strays(t)
  {
    if t.Hole? {
      FillStrays(t.rest, n, v);
      PrependStrays(t.text + v, Fill(t.rest, n, v));
      OpensAppend(t.text, v);
      OpensNone(v);
    }
  }

  lemma {:induction false} RewriteAllStrays(t: Template, names: seq<string>, values: Values)
    requires forall n :: n in names ==> n in values && NoBrace(n) && '{' !in values[n]
    ensures Strays(RewriteAll(t, names, values)) <= Strays(t)
    decreases |names|
  {
    if names != [] {
      RewriteStrays(t, names[0], values[names[0]]);
      RewriteAllStrays(Rewrite(t, names[0], values[names[0]]), names[1..], values);
    }
  }

  /** A capture swallows an opening brace for good. */
  lemma {:induction false} CaptureShows(t: Template, names: seq<string>, values: Values)
    requires forall n :: n in names ==> n in values && NoBrace(n) && '{' !in values[n]
    requires !NoCapture(t, names, values)
    ensures Strays(RewriteAll(t, names, values)) < Strays(t)
    decreases |names|
  {
    var n, v := names[0], values[names[0]];
    RewriteStrays(t, n, v);
    if TextFree(t, Placeholder(n)) {
      RewriteIsFill(t, n, v);
      FillStrays(t, n, v);
      CaptureShows(Fill(t, n, v), names[1..], values);
    } else {
      RewriteAllStrays(Rewrite(t, n, v), names[1..], values);
    }
  }

  lemma {:induction false} FillAllStrays(t: Template, names: seq<string>, values: Values)
    requires forall n :: n in names ==> n in values && '{' !in values[n]
    ensures Strays(FillAll(t, names, values)) == Strays(t)
    decreases |names|
  {
    if names != [] {
      FillStrays(t, names[0], values[names[0]]);
      FillAllStrays(Fill(t, names[0], values[names[0]]), names[1..], values);
    }
  }

  lemma {:induction false} RewriteNames(t: Template, n: string, v: string)
    ensures forall m :: m in Names(Rewrite(t, n, v)) <==> m in Names(t) && m != n
  {
    if t.Hole? {
      RewriteNames(t.rest, n, v);
      assert forall x, u :: Names(Prepend(x, u)) == Names(u);
    }
  }

  lemma {:induction false} RewriteAllEnds(t: Template, names: seq<string>, values: Values)
    requires forall n :: n in names ==> n in values
    requires forall n :: n in Names(t) ==> n in names
    ensures RewriteAll(t, names, values).End?
    decreases |names|
  {
    if names == [] {
      HoleIsNamed(t);
    } else {
      RewriteNames(t, names[0], values[names[0]]);
      RewriteAllEnds(Rewrite(t, names[0], values[names[0]]), names[1..], values);
    }
  }

  lemma {:induction false} PlainNamesAreNames(t: Template)
    requires PlainNames(t)
    ensures forall n :: n in Names(t) ==> NoBrace(n)
  {
    if t.Hole? {
      PlainNamesAreNames(t.rest);
    }
  }

  /** Without a capture, repeated replacement is simultaneous substitution, whatever the values. */
  lemma IterateIsOnePass(t: Template, values: Values)
    requires PlainNames(t) && forall n :: n in Names(t) ==> n in values
    requires NoCapture(t, Names(t), values)
    ensures Iterate(Text(t), Names(t), values) == OnePass(t, values)
  {
    PlainNamesAreNames(t);
    IterateIsRewriteAll(t, Names(t), values);
    NoCaptureFills(t, Names(t), values);
    FillAllIsOnePass(t, Names(t), values);
  }

  /** For values without an opening brace, that is the exact condition. */
  lemma IterateIsOnePassIff(t: Template, values: Values)
    requires PlainNames(t) && forall n :: n in Names(t) ==> n in values && '{' !in values[n]
    ensures Iterate(Text(t), Names(t), values) == OnePass(t, values) <==> NoCapture(t, Names(t), values)
  {
    if NoCapture(t, Names(t), values) {
      IterateIsOnePass(t, values);
    } else {
      PlainNamesAreNames(t);
      CaptureShows(t, Names(t), values);
      IterateIsRewriteAll(t, Names(t), values);
      FillAllIsOnePass(t, Names(t), values);
      FillAllStrays(t, Names(t), values);
      RewriteAllEnds(t, Names(t), values);
      assert Opens(Iterate(Text(t), Names(t), values)) < Opens(OnePass(t, values));
    }
  }

  // ---------------------------------------------------------------------------
  // Conditions a caller can check
  // ---------------------------------------------------------------------------

  lemma OccurrenceOpens(s: string, n: string, i: nat)
    ensures OccursAt(s, Placeholder(n), i) ==> '{' in s
  {
    if OccursAt(s, Placeholder(n), i) {
      assert s[i] == s[i..i + |Placeholder(n)|][0] == '{';
    }
  }

  lemma {:induction false} NoStraysTextFree(t: Template, n: string)
    requires Strays(t) == 0
    ensures TextFree(t, Placeholder(n))
  {
    OpensNone(t.text);
    forall i: nat ensures !OccursAt(t.text, Placeholder(n), i) {
      OccurrenceOpens(t.text, n, i);
    }
    if t.Hole? {
      NoStraysTextFree(t.rest, n);
    }
  }

  lemma {:induction false} NoStraysNoCapture(t: Template, names: seq<string>, values: Values)
    requires Strays(t) == 0 && forall n :: n in names ==> n in values && '{' !in values[n]
    ensures NoCapture(t, names, values)
    decreases |names|
  {
    if names != [] {
      NoStraysTextFree(t, names[0]);
      FillStrays(t, names[0], values[names[0]]);
      NoStraysNoCapture(Fill(t, names[0], values[names[0]]), names[1..], values);
    }
  }

  /**
   If every opening brace of the command belongs to a placeholder, and no value contains one,
   the result is the simultaneous substitution, repeated placeholders included.
   */
  lemma CleanCommandSubstitutes(command: string, inClass: char -> bool, values: Values)
    requires !inClass('{') && !inClass('}')
    requires Strays(Scan(command, inClass)) == 0
    requires forall n :: n in Names(Scan(command, inClass)) ==> n in values && '{' !in values[n]
    ensures var t := Scan(command, inClass); Iterate(command, Names(t), values) == OnePass(t, values)
  {
    var t := Scan(command, inClass);
    ScanIsExact(command, inClass);
    NoStraysNoCapture(t, Names(t), values);
    IterateIsOnePass(t, values);
  }

  /** A placeholder starts at position i, whose name is made of class characters. */
  ghost predicate PlaceholderAt(s: string, i: nat, inClass: char -> bool) {
    exists n :: n != "" && (forall c :: c in n ==> inClass(c)) && OccursAt(s, Placeholder(n), i)
  }

  /** Every opening brace starts a placeholder. */
  ghost predicate CleanBraces(s: string, inClass: char -> bool) {
    forall i :: 0 <= i < |s| && s[i] == '{' ==> PlaceholderAt(s, i, inClass)
  }

  lemma OccursShift(s: string, p: string, k: nat, i: nat)
    requires k <= i
    ensures OccursAt(s, p, i) <==> k <= |s| && OccursAt(s[k..], p, i - k)
  {
    if i + |p| <= |s| {
      assert s[k..][i - k..i - k + |p|] == s[i..i + |p|];
    }
  }

  lemma PlaceholderShift(s: string, k: nat, i: nat, inClass: char -> bool)
    requires k <= i && k <= |s|
    ensures PlaceholderAt(s, i, inClass) <==> PlaceholderAt(s[k..], i - k, inClass)
  {
    if n :| n != "" && (forall c :: c in n ==> inClass(c)) && OccursAt(s, Placeholder(n), i) {
      OccursShift(s, Placeholder(n), k, i);
    }
    if n :| n != "" && (forall c :: c in n ==> inClass(c)) && OccursAt(s[k..], Placeholder(n), i - k) {
      OccursShift(s, Placeholder(n), k, i);
    }
  }

  /** What is clean behind position k is clean in the whole, if the braces before k are. */
  lemma CleanShift(s: string, k: nat, inClass: char -> bool)
    requires k <= |s| && forall i :: 0 <= i < k && s[i] == '{' ==> PlaceholderAt(s, i, inClass)
    ensures CleanBraces(s, inClass) <==> CleanBraces(s[k..], inClass)
  {
    forall i | k <= i < |s| ensures PlaceholderAt(s, i, inClass) <==> PlaceholderAt(s[k..], i - k, inClass) {
      PlaceholderShift(s, k, i, inClass);
    }
    if CleanBraces(s, inClass) {
      forall j | 0 <= j < |s[k..]| && s[k..][j] == '{' ensures PlaceholderAt(s[k..], j, inClass) {
        assert s[k + j] == '{';
      }
    }
    if CleanBraces(s[k..], inClass) {
      forall i | 0 <= i < |s| && s[i] == '{' ensures PlaceholderAt(s, i, inClass) {
        assert i >= k ==> s[k..][i - k] == '{';
      }
    }
  }

  lemma MatchIsPlaceholder(s: string, inClass: char -> bool)
    requires !inClass('{') && !inClass('}')
    ensures MatchAtStart(s, inClass).Some? <==> PlaceholderAt(s, 0, inClass)
    ensures MatchAtStart(s, inClass).Some? ==>
              var k := |MatchAtStart(s, inClass).value| + 2; k <= |s| && forall i :: 1 <= i < k ==> s[i] != '{'
  {
    if MatchAtStart(s, inClass).Some? {
      MatchSplits(s, inClass);
      var n := MatchAtStart(s, inClass).value;
      assert s[0..|Placeholder(n)|] == Placeholder(n);
      assert OccursAt(s, Placeholder(n), 0);
      assert forall i :: 1 <= i < |n| + 2 ==> s[i] == Placeholder(n)[i] != '{';
    } else if n :| n != "" && (forall c :: c in n ==> inClass(c)) && OccursAt(s, Placeholder(n), 0) {
      MatchIsUnique(s, inClass, n);
    }
  }

  /** Splitting leaves a stray brace exactly if one does not start a placeholder. */
  lemma {:induction false} CleanScan(before: string, s: string, inClass: char -> bool)
    requires !inClass('{') && !inClass('}')
    ensures Strays(ScanFrom(before, s, inClass)) == 0 <==> Opens(before) == 0 && CleanBraces(s, inClass)
    decreases |s|
  {
    if s != "" {
      MatchIsPlaceholder(s, inClass);
      match MatchAtStart(s, inClass)
      case Some(n) =>
        CleanScan("", s[|n| + 2..], inClass);
        CleanShift(s, |n| + 2, inClass);
      case None =>
        CleanScan(before + [s[0]], s[1..], inClass);
        OpensAppend(before, [s[0]]);
        if s[0] != '{' {
          CleanShift(s, 1, inClass);
        }
    }
  }

  /** With no stray brace, and none in the values, none is in the result. */
  lemma {:induction false} NoBraceLeft(t: Template, values: Values)
    requires Strays(t) == 0 && forall n :: n in Names(t) ==> n in values && '{' !in values[n]
    ensures '{' !in OnePass(t, values)
  {
    OpensFree(t.text);
    if t.Hole? {
      assert forall m :: m in Names(t.rest) ==> m in Names(t);
      NoBraceLeft(t.rest, values);
    }
  }

  lemma {:induction false} OpensFree(s: string)
    ensures Opens(s) == 0 <==> '{' !in s
  {
    if s != "" {
      OpensFree(s[1..]);
      assert s == [s[0]] + s[1..];
    }
  }

  /** Text of the template survives into the one-pass result. */
  lemma {:induction false} TextSurvives(t: Template, p: string, values: Values)
    requires forall n :: n in Names(t) ==> n in values
    requires !TextFree(t, p)
    ensures Occurs(OnePass(t, values), p)
  {
    var whole := OnePass(t, values);
    assert t.Hole? ==> forall m :: m in Names(t.rest) ==> m in Names(t);
    if i: nat :| OccursAt(t.text, p, i) {
      assert whole[i..i + |p|] == t.text[i..i + |p|];
      assert OccursAt(whole, p, i);
    } else {
      TextSurvives(t.rest, p, values);
      var rest := OnePass(t.rest, values);
      var j: nat :| OccursAt(rest, p, j);
      var k := |t.text + values[t.name]|;
      assert whole[k + j..k + j + |p|] == rest[j..j + |p|];
      assert OccursAt(whole, p, k + j);
    }
  }

  lemma {:induction false} NoneLeftNoCapture(t: Template, names: seq<string>, values: Values)
    requires forall n :: n in names ==> n in values
    requires forall n :: n in Names(t) ==> n in values
    requires forall n :: n in names ==> !Occurs(OnePass(t, values), Placeholder(n))
    ensures NoCapture(t, names, values)
    decreases |names|
  {
    if names != [] {
      if !TextFree(t, Placeholder(names[0])) {
        TextSurvives(t, Placeholder(names[0]), values);
        assert false;
      }
      FillNames(t, names[0], values[names[0]]);
      FillOnePass(t, names[0], values);
      NoneLeftNoCapture(Fill(t, names[0], values[names[0]]), names[1..], values);
    }
  }

  /**
   For any command and any values: if the simultaneous substitution contains none of the
   command's own placeholders, the program's repeated replacement yields it.
   */
  lemma SettledCommandSubstitutes(command: string, inClass: char -> bool, values: Values)
    requires !inClass('{') && !inClass('}')
    requires forall n :: n in Names(Scan(command, inClass)) ==> n in values
    requires var t := Scan(command, inClass);
             forall n :: n in Names(t) ==> !Occurs(OnePass(t, values), Placeholder(n))
    ensures var t := Scan(command, inClass); Iterate(command, Names(t), values) == OnePass(t, values)
  {
    var t := Scan(command, inClass);
    ScanIsExact(command, inClass);
    NoneLeftNoCapture(t, Names(t), values);
    IterateIsOnePass(t, values);
  }

  function Nested(): Template {
    Hole("{", "a", Hole("} ", "a", End("")))
  }

  lemma NestedTail(inClass: char -> bool)
    requires inClass('a') && !inClass('{') && !inClass('}')
    ensures ScanFrom("", "} {a}", inClass) == Hole("} ", "a", End(""))
  {
    var s := "{a}";
    assert OccursAt(s, Placeholder("a"), 0) by {
      assert s[0..3] == s == Placeholder("a");
    }
    MatchIsUnique(s, inClass, "a");
    assert s[3..] == "" && "" + ['}'] + [' '] == "} ";
    assert ScanFrom("} ", s, inClass) == Hole("} ", "a", End(""));
    assert "} {a}"[1..] == " {a}" && " {a}"[1..] == s;
    assert MatchAtStart("} {a}", inClass).None? && MatchAtStart(" {a}", inClass).None?;
    assert ScanFrom("" + ['}'], " {a}", inClass) == ScanFrom("" + ['}'] + [' '], s, inClass);
  }

  lemma NestedScans(inClass: char -> bool)
    requires inClass('a') && !inClass('{') && !inClass('}')
    ensures Scan("{{a}} {a}", inClass) == Nested()
  {
    var s, r := "{{a}} {a}", "{a}} {a}";
    assert s[1..] == r;
    RunIs(r, inClass, 0);
    assert MatchAtStart(s, inClass).None?;
    assert OccursAt(r, Placeholder("a"), 0) by {
      assert r[0..3] == "{a}" == Placeholder("a");
    }
    MatchIsUnique(r, inClass, "a");
    assert r[3..] == "} {a}" && "" + ['{'] == "{";
    NestedTail(inClass);
  }

  lemma NestedFilled()
    ensures Fill(Nested(), "a", "a") == End("{a} a") && OccursAt("{a} a", Placeholder("a"), 0)
  {
    assert Fill(End(""), "a", "a") == End("");
    assert "} " + "a" + "" == "} a" && "{" + "a" + "} a" == "{a} a";
    assert "{a} a"[0..3] == "{a}" == Placeholder("a");
  }

  lemma NestedCaptures()
    ensures !NoCapture(Nested(), ["a", "a"], map["a" := "a"])
  {
    NestedFilled();
    assert ["a", "a"][1..] == ["a"];
    assert !TextFree(End("{a} a"), Placeholder("a"));
    assert !NoCapture(End("{a} a"), ["a"], map["a" := "a"]);
  }

  /**
   A capture does happen, even with a value without braces: in "{{a}} {a}" the first
   replacement makes a new "{a}", and the second match replaces it.
   */
  lemma CaptureHappens(inClass: char -> bool)
    requires inClass('a') && !inClass('{') && !inClass('}')
    ensures var command, values := "{{a}} {a}", map["a" := "a"];
            var t := Scan(command, inClass);
            Names(t) == ["a", "a"] && Iterate(command, Names(t), values) != OnePass(t, values)
  {
    var t, values := Nested(), map["a" := "a"];
    NestedScans(inClass);
    ScanIsExact("{{a}} {a}", inClass);
    assert Names(t) == ["a", "a"];
    NestedCaptures();
    IterateIsOnePassIff(t, values);
  }

  function Pair(): Template {
    Hole("", "a", Hole(" ", "b", End("")))
  }

  lemma PairTail(inClass: char -> bool)
    requires inClass('b') && !inClass('{') && !inClass('}')
    ensures ScanFrom("", " {b}", inClass) == Hole(" ", "b", End(""))
  {
    var s := "{b}";
    assert OccursAt(s, Placeholder("b"), 0) by {
      assert s[0..3] == s == Placeholder("b");
    }
    MatchIsUnique(s, inClass, "b");
    assert s[3..] == "" && "" + [' '] == " " && " {b}"[1..] == s;
    assert MatchAtStart(" {b}", inClass).None?;
  }

  lemma PairScans(inClass: char -> bool)
    requires inClass('a') && inClass('b') && !inClass('{') && !inClass('}')
    ensures Scan("{a} {b}", inClass) == Pair()
  {
    var s := "{a} {b}";
    assert OccursAt(s, Placeholder("a"), 0) by {
      assert s[0..3] == "{a}" == Placeholder("a");
    }
    MatchIsUnique(s, inClass, "a");
    assert s[3..] == " {b}";
    PairTail(inClass);
  }

  lemma FirstOfPair(u: string)
    ensures Replace("{a} {b}", Placeholder("a"), u) == u + " {b}"
  {
    assert Replace(" {b}", Placeholder("a"), u) == " {b}" by {
      assert " {b}" == " " + Placeholder("b") + "";
      ReplaceAroundHole(" ", "b", "", "a", u);
    }
    assert "{a} {b}" == Placeholder("a") + " {b}";
    ReplaceSameHole(" {b}", "a", u);
  }

  lemma LastOfPair(q: string, x: string)
    requires '{' !in q
    ensures Replace(q + " {b}", Placeholder("b"), x) == q + " " + x
  {
    assert Placeholder("b") == "{b}" && q + " {b}" == (q + " ") + "{b}";
    ReplaceSkips(q + " ", "{b}", "b", x);
    assert "{b}" == "{b}" + "";
    ReplaceSameHole("", "b", x);
    assert x + Replace("", "{b}", x) == x;
  }

  lemma SecondOfPair(p: string, q: string, x: string)
    requires '{' !in p && '{' !in q
    ensures Replace(p + "{b}" + q + " {b}", Placeholder("b"), x) == p + x + q + " " + x
  {
    var y := q + " {b}";
    assert p + "{b}" + q + " {b}" == p + (Placeholder("b") + y);
    ReplaceSkips(p, Placeholder("b") + y, "b", x);
    ReplaceSameHole(y, "b", x);
    LastOfPair(q, x);
    assert p + (x + (q + " " + x)) == p + x + q + " " + x;
  }

  lemma PairIterates(p: string, q: string, x: string)
    requires '{' !in p && '{' !in q
    ensures Iterate("{a} {b}", ["a", "b"], map["a" := p + "{b}" + q, "b" := x]) == p + x + q + " " + x
  {
    var values := map["a" := p + "{b}" + q, "b" := x];
    assert ["a", "b"][1..] == ["b"] && ["b"][1..] == [];
    FirstOfPair(p + "{b}" + q);
    SecondOfPair(p, q, x);
    assert Iterate(p + "{b}" + q + " {b}", ["b"], values) == Iterate(p + x + q + " " + x, [], values);
  }

  lemma PairFilled(u: string, x: string)
    ensures Names(Pair()) == ["a", "b"] && OnePass(Pair(), map["a" := u, "b" := x]) == u + " " + x
  {
    assert OnePass(Hole(" ", "b", End("")), map["a" := u, "b" := x]) == " " + x + "";
  }

  /**
   A value that contains a placeholder is itself expanded when that placeholder's turn comes later,
   whatever is around it: in "{a} {b}", with {b} between p and q as the escaped value of a, the value
   of b is put between them as well. The text around may be the quotes that escaping adds.
   */
  lemma ValueIsExpanded(inClass: char -> bool, p: string, q: string, x: string)
    requires inClass('a') && inClass('b') && !inClass('{') && !inClass('}') && '{' !in p && '{' !in q
    ensures var command, values := "{a} {b}", map["a" := p + "{b}" + q, "b" := x];
            var t := Scan(command, inClass);
            && Names(t) == ["a", "b"]
            && Iterate(command, Names(t), values) == p + x + q + " " + x
            && OnePass(t, values) == p + "{b}" + q + " " + x
  {
    PairScans(inClass);
    PairFilled(p + "{b}" + q, x);
    PairIterates(p, q, x);
  }
}
