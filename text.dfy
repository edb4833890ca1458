/**
 * String operations the application relies on, with the meaning JavaScript gives them:
 * `String.prototype.trim`, `Array.prototype.join`, `String.prototype.includes`,
 * and a lexicographic order standing in for `localeCompare`.
 */
module Text {

  /** The characters `String.prototype.trim` removes: ECMAScript WhiteSpace and LineTerminator. */
  predicate IsWhitespace(c: char) {
    c in {'\U{0009}', '\U{000A}', '\U{000B}', '\U{000C}', '\U{000D}', '\U{0020}', '\U{00A0}', '\U{1680}',
          '\U{2000}', '\U{2001}', '\U{2002}', '\U{2003}', '\U{2004}', '\U{2005}', '\U{2006}', '\U{2007}',
          '\U{2008}', '\U{2009}', '\U{200A}', '\U{2028}', '\U{2029}', '\U{202F}', '\U{205F}', '\U{3000}',
          '\U{FEFF}'}
  }

  predicate AllWhitespace(s: string) {
    forall i :: 0 <= i < |s| ==> IsWhitespace(s[i])
  }

  /** `s` begins and ends with a character that trimming keeps. */
  predicate TightlyBounded(s: string) {
    |s| > 0 && !IsWhitespace(s[0]) && !IsWhitespace(s[|s| - 1])
  }

  /** Drops leading whitespace: the result is the suffix of `s` that starts at its first kept character. */
  function TrimStart(s: string): (r: string)
    ensures |r| <= |s| && r == s[|s| - |r|..]
    ensures AllWhitespace(s[..|s| - |r|])
    ensures r != [] ==> !IsWhitespace(r[0])
    decreases |s|
  {
    if |s| > 0 && IsWhitespace(s[0]) then
      var r := TrimStart(s[1..]);
      assert s[1..][|s| - 1 - |r|..] == s[|s| - |r|..];
      assert s[..|s| - |r|] == [s[0]] + s[1..][..|s| - 1 - |r|];
      r
    else s
  }

  /** Drops trailing whitespace: the result is the prefix of `s` that ends at its last kept character. */
  function TrimEnd(s: string): (r: string)
    ensures |r| <= |s| && r == s[..|r|]
    ensures AllWhitespace(s[|r|..])
    ensures r != [] ==> !IsWhitespace(r[|r| - 1])
    decreases |s|
  {
    if |s| > 0 && IsWhitespace(s[|s| - 1]) then
      var r := TrimEnd(s[..|s| - 1]);
      assert s[|r|..] == s[..|s| - 1][|r|..] + [s[|s| - 1]];
      r
    else s
  }

  /** `String.prototype.trim`. */
  function Trim(s: string): (r: string)
    ensures r == [] || TightlyBounded(r)
    ensures r == [] <==> AllWhitespace(s)
  {
    var t := TrimStart(s);
    assert t == [] ==> AllWhitespace(s) by {
      if t == [] { assert s[..|s|] == s; }
    }
    var r := TrimEnd(t);
    assert r == [] ==> AllWhitespace(t) by {
      if r == [] { assert t[0..] == t; }
    }
    assert r != [] ==> r[0] == t[0];
    r
  }

  /** A JavaScript truthiness test on a trimmed string: `!s.trim()`. */
  predicate IsBlank(s: string) {
    Trim(s) == []
  }

  lemma {:induction false} TrimStartSkipsWhitespace(w: string, x: string)
    requires AllWhitespace(w)
    ensures TrimStart(w + x) == TrimStart(x)
    decreases |w|
  {
    if w != [] {
      assert (w + x)[1..] == w[1..] + x;
      TrimStartSkipsWhitespace(w[1..], x);
    } else {
      assert w + x == x;
    }
  }

  lemma {:induction false} TrimEndSkipsWhitespace(x: string, w: string)
    requires AllWhitespace(w)
    ensures TrimEnd(x + w) == TrimEnd(x)
    decreases |w|
  {
    if w != [] {
      var w' := w[..|w| - 1];
      assert (x + w)[..|x + w| - 1] == x + w';
      TrimEndSkipsWhitespace(x, w');
    } else {
      assert x + w == x;
    }
  }

  /**
   * Trimming a text that is a core padded with whitespace on both sides gives
   * exactly the core, when the core itself starts and ends with kept characters.
   */
  lemma TrimPadded(w1: string, core: string, w2: string)
    requires AllWhitespace(w1) && AllWhitespace(w2) && TightlyBounded(core)
    ensures Trim(w1 + core + w2) == core
  {
    assert w1 + core + w2 == w1 + (core + w2);
    TrimStartSkipsWhitespace(w1, core + w2);
    assert TrimStart(core + w2) == core + w2;
    TrimEndSkipsWhitespace(core, w2);
    assert TrimEnd(core) == core;
  }

  /** Trimming a line break, a text that starts with a kept character, and trailing whitespace. */
  lemma TrimAfterLineBreak(body: string, w: string)
    requires body != [] && !IsWhitespace(body[0]) && AllWhitespace(w)
    ensures Trim("\n" + body + w) == TrimEnd(body)
  {
    assert "\n" + body + w == "\n" + (body + w);
    TrimStartSkipsWhitespace("\n", body + w);
    assert TrimStart(body + w) == body + w;
    TrimEndSkipsWhitespace(body, w);
  }

  /** `xs.join(sep)`. */
  function Join(xs: seq<string>, sep: string): string
    decreases |xs|
  {
    if |xs| == 0 then ""
    else if |xs| == 1 then xs[0]
    else xs[0] + sep + Join(xs[1..], sep)
  }

  /** Joining splits at the last element: appending an element appends the separator and the element. */
  lemma {:induction false} JoinSnoc(xs: seq<string>, y: string, sep: string)
    requires xs != []
    ensures Join(xs + [y], sep) == Join(xs, sep) + sep + y
    decreases |xs|
  {
    if |xs| == 1 {
      assert (xs + [y])[1..] == [y];
    } else {
      assert (xs + [y])[1..] == xs[1..] + [y];
      JoinSnoc(xs[1..], y, sep);
    }
  }

  /** Joining two non-empty lists one after the other puts one separator between them. */
  lemma {:induction false} JoinAppend(xs: seq<string>, ys: seq<string>, sep: string)
    requires xs != [] && ys != []
    ensures Join(xs + ys, sep) == Join(xs, sep) + sep + Join(ys, sep)
    decreases |xs|
  {
    if |xs| == 1 {
      assert (xs + ys)[1..] == ys;
    } else {
      assert (xs + ys)[1..] == xs[1..] + ys;
      JoinAppend(xs[1..], ys, sep);
    }
  }

  /** A joined text starts with the first character of its first element. */
  lemma JoinFirst(xs: seq<string>, sep: string)
    requires xs != [] && xs[0] != []
    ensures Join(xs, sep) != [] && Join(xs, sep)[0] == xs[0][0]
  {
  }

  /** A joined text ends with the last character of its last element. */
  lemma JoinLast(xs: seq<string>, sep: string)
    requires xs != [] && xs[|xs| - 1] != []
    ensures var j := Join(xs, sep); j != [] && j[|j| - 1] == xs[|xs| - 1][|xs[|xs| - 1]| - 1]
  {
    if |xs| > 1 {
      var init := xs[..|xs| - 1];
      assert xs == init + [xs[|xs| - 1]];
      JoinSnoc(init, xs[|xs| - 1], sep);
    }
  }

  /** Joining two leading elements in front of a non-empty list. */
  lemma JoinCons2(a: string, b: string, xs: seq<string>, sep: string)
    requires xs != []
    ensures Join([a, b] + xs, sep) == a + sep + b + sep + Join(xs, sep)
  {
    assert ([a, b] + xs)[1..] == [b] + xs;
    assert ([b] + xs)[1..] == xs;
  }

  /**
   * Trimming a line break, a joined text whose first element starts with a kept character,
   * and trailing whitespace leaves the joined text without its trailing whitespace; when the
   * last element ends with a kept character, nothing of the joined text is removed.
   */
  lemma TrimJoinedAfterLineBreak(xs: seq<string>, sep: string, w: string)
    requires xs != [] && xs[0] != [] && !IsWhitespace(xs[0][0]) && AllWhitespace(w)
    ensures Trim("\n" + Join(xs, sep) + w) == TrimEnd(Join(xs, sep))
    ensures xs[|xs| - 1] != [] && !IsWhitespace(xs[|xs| - 1][|xs[|xs| - 1]| - 1]) ==>
              TrimEnd(Join(xs, sep)) == Join(xs, sep)
  {
    JoinFirst(xs, sep);
    TrimAfterLineBreak(Join(xs, sep), w);
    if xs[|xs| - 1] != [] {
      JoinLast(xs, sep);
    }
  }

  /** `s.slice(i, i + t.length) === t`. */
  predicate OccursAt(s: string, t: string, i: nat) {
    i + |t| <= |s| && s[i..i + |t|] == t
  }

  /** `s.includes(t)`. */
  predicate Contains(s: string, t: string)
    ensures Contains(s, t) ==> |t| <= |s|
  {
    exists i :: 0 <= i <= |s| && OccursAt(s, t, i)
  }

  /** A part of a concatenation occurs where the concatenation puts it. */
  lemma OccursInConcat(a: string, t: string, b: string)
    ensures OccursAt(a + t + b, t, |a|)
  {
    assert (a + t + b)[|a|..|a| + |t|] == t;
  }

  /** Both halves of a middle part occur where the concatenation puts them. */
  lemma OccursInMiddle(a: string, x: string, y: string, b: string)
    ensures OccursAt(a + (x + y) + b, x, |a|)
    ensures OccursAt(a + (x + y) + b, y, |a| + |x|)
  {
    var s := a + (x + y) + b;
    assert s[|a|..|a| + |x|] == x;
    assert s[|a| + |x|..|a| + |x| + |y|] == y;
  }

  /** Two inserted parts occur where a five-part concatenation puts them. */
  lemma OccursTwice(a: string, x: string, b: string, y: string, c: string)
    ensures OccursAt(a + x + b + y + c, x, |a|)
    ensures OccursAt(a + x + b + y + c, y, |a| + |x| + |b|)
  {
    var s := a + x + b + y + c;
    assert s[|a|..|a| + |x|] == x;
    assert s[|a| + |x| + |b|..|a| + |x| + |b| + |y|] == y;
  }

  /** Two parts occur where a four-part concatenation puts them. */
  lemma OccursBoth(a: string, x: string, b: string, y: string)
    ensures OccursAt(a + x + b + y, x, |a|)
    ensures OccursAt(a + x + b + y, y, |a| + |x| + |b|)
  {
    var s := a + x + b + y;
    assert s[|a|..|a| + |x|] == x;
    assert s[|a| + |x| + |b|..|a| + |x| + |b| + |y|] == y;
  }

  /** An occurrence moves right by the length of whatever is put in front. */
  lemma OccursAfter(a: string, s: string, t: string, i: nat)
    requires OccursAt(s, t, i)
    ensures OccursAt(a + s, t, |a| + i)
  {
    assert (a + s)[|a| + i..|a| + i + |t|] == s[i..i + |t|];
  }

  /** An occurrence stays where it is when text is appended. */
  lemma OccursBefore(s: string, t: string, x: string, i: nat)
    requires OccursAt(s, x, i)
    ensures OccursAt(s + t, x, i)
  {
    assert (s + t)[i..i + |x|] == s[i..i + |x|];
  }

  /** Each value after its label, pair by pair: `${label}${value}` repeated in a template literal. */
  function Fill(labels: seq<string>, values: seq<string>): string
    requires |labels| == |values|
    decreases |labels|
  {
    if labels == [] then "" else labels[0] + values[0] + Fill(labels[1..], values[1..])
  }

  /** Where the `k`-th value starts in `Fill`: after every earlier pair and its own label. */
  function FillOffset(labels: seq<string>, values: seq<string>, k: nat): nat
    requires |labels| == |values| && k < |labels|
    decreases k
  {
    if k == 0 then |labels[0]| else |labels[0]| + |values[0]| + FillOffset(labels[1..], values[1..], k - 1)
  }

  /** The `k`-th value occurs in the filled text where `FillOffset` says. */
  lemma {:induction false} FillOccurs(labels: seq<string>, values: seq<string>, k: nat)
    requires |labels| == |values| && k < |labels|
    ensures OccursAt(Fill(labels, values), values[k], FillOffset(labels, values, k))
    decreases k
  {
    var rest := Fill(labels[1..], values[1..]);
    if k == 0 {
      OccursInConcat(labels[0], values[0], rest);
    } else {
      FillOccurs(labels[1..], values[1..], k - 1);
      OccursAfter(labels[0] + values[0], rest, values[k], FillOffset(labels[1..], values[1..], k - 1));
    }
  }

  /** Every value occurs in a filled text between a head and a tail, after the head and its label. */
  lemma FillOccursAll(head: string, labels: seq<string>, values: seq<string>, tail: string)
    requires |labels| == |values|
    ensures forall k :: 0 <= k < |values| ==>
              OccursAt(head + Fill(labels, values) + tail, values[k], |head| + FillOffset(labels, values, k))
  {
    forall k | 0 <= k < |values|
      ensures OccursAt(head + Fill(labels, values) + tail, values[k], |head| + FillOffset(labels, values, k))
    {
      var filled, at := Fill(labels, values), FillOffset(labels, values, k);
      FillOccurs(labels, values, k);
      assert OccursAt(filled, values[k], at);
      OccursAfter(head, filled, values[k], at);
      assert OccursAt(head + filled, values[k], |head| + at);
      OccursBefore(head + filled, tail, values[k], |head| + at);
    }
  }

  /** A text contains every part it is concatenated from. */
  lemma ContainsPart(a: string, t: string, b: string)
    ensures Contains(a + t + b, t)
  {
    OccursInConcat(a, t, b);
  }

  /** Strict lexicographic order on code points: the model of `a.localeCompare(b) < 0`. */
  predicate Less(a: string, b: string)
    decreases |a|
  {
    |b| > 0 && (|a| == 0 || a[0] < b[0] || (a[0] == b[0] && Less(a[1..], b[1..])))
  }

  predicate Le(a: string, b: string) {
    a == b || Less(a, b)
  }

  lemma {:induction false} LessIrreflexive(a: string)
    ensures !Less(a, a)
    decreases |a|
  {
    if |a| > 0 { LessIrreflexive(a[1..]); }
  }

  lemma {:induction false} LessTransitive(a: string, b: string, c: string)
    requires Less(a, b) && Less(b, c)
    ensures Less(a, c)
    decreases |a|
  {
    if |a| > 0 && a[0] == b[0] && b[0] == c[0] {
      LessTransitive(a[1..], b[1..], c[1..]);
    }
  }

  lemma {:induction false} LessTrichotomy(a: string, b: string)
    ensures a == b || Less(a, b) || Less(b, a)
    decreases |a|
  {
    if |a| > 0 && |b| > 0 && a[0] == b[0] {
      LessTrichotomy(a[1..], b[1..]);
      if a[1..] == b[1..] {
        assert a == [a[0]] + a[1..] && b == [b[0]] + b[1..];
      }
    }
  }

  lemma LessAsymmetric(a: string, b: string)
    requires Less(a, b)
    ensures !Less(b, a)
  {
    if Less(b, a) {
      LessTransitive(a, b, a);
      LessIrreflexive(a);
    }
  }

  /** The order is total: whatever does not come strictly before comes at or after. */
  lemma NotLessIsLe(a: string, b: string)
    ensures !Less(a, b) <==> Le(b, a)
  {
    LessTrichotomy(a, b);
    if Less(b, a) { LessAsymmetric(b, a); }
    if a == b { LessIrreflexive(a); }
  }

  lemma LeTransitive(a: string, b: string, c: string)
    requires Le(a, b) && Le(b, c)
    ensures Le(a, c)
  {
    if Less(a, b) && Less(b, c) { LessTransitive(a, b, c); }
  }
}
