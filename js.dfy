/** The JavaScript value conventions the certificate renderer relies on:
    optional fields, truthiness defaults (`x || d`), template-literal
    interpolation, `Array.prototype.join('')`, and number-to-text. */
module Js {

  /** A field of a JSON payload: absent (`undefined`) or present. */
  datatype Option<+T> = None | Some(value: T)

  /** JavaScript truthiness of a string field: present and not "". */
  predicate Truthy(v: Option<string>) {
    v.Some? && v.value != ""
  }

  /** `v || d` on a string field. */
  function Or(v: Option<string>, d: string): string {
    if Truthy(v) then v.value else d
  }

  /** The field's value when it is truthy; `None` stands for every falsy value. */
  function WhenTruthy(v: Option<string>): Option<string> {
    if Truthy(v) then v else None
  }

  /** `${v}` in a template literal: an absent field prints as "undefined". */
  function Show(v: Option<string>): string {
    if v.Some? then v.value else "undefined"
  }

  /** The value stored under `k` in a JSON object of strings. */
  function Get(m: map<string, string>, k: string): Option<string> {
    if k in m then Some(m[k]) else None
  }

  /** `n` blanks: the indentation of a template line. */
  function Spaces(n: nat): string {
    if n == 0 then "" else " " + Spaces(n - 1)
  }

  /** One source line of a multi-line template literal: the line break that
      ends the previous line, the indentation, then the text. */
  function Line(indent: nat, text: string): string {
    "\n" + Spaces(indent) + text
  }

  /** Regrouping a concatenation to the right. */
  lemma Assoc3(a: string, b: string, c: string)
    ensures a + b + c == a + (b + c)
  {
  }

  lemma Assoc4(a: string, b: string, c: string, d: string)
    ensures a + b + c + d == a + (b + c + d)
  {
  }

  lemma Assoc5(a: string, b: string, c: string, d: string, e: string)
    ensures a + b + c + d + e == a + (b + c + d + e)
  {
  }

  /** `parts.join('')`. */
  function Concat(parts: seq<string>): string {
    if |parts| == 0 then "" else parts[0] + Concat(parts[1..])
  }

  lemma ConcatCons(x: string, ys: seq<string>)
    ensures Concat([x] + ys) == x + Concat(ys)
  {
    assert ([x] + ys)[1..] == ys;
  }

  /** `t` occurs in `s` as a contiguous piece. */
  ghost predicate Contains(s: string, t: string) {
    exists a: string, b: string :: s == a + t + b
  }

  lemma ContainsMiddle(a: string, t: string, b: string)
    ensures Contains(a + t + b, t)
  {
  }

  lemma ContainsTrans(s: string, t: string, u: string)
    requires Contains(s, t) && Contains(t, u)
    ensures Contains(s, u)
  {
    var a, b :| s == a + t + b;
    var c, d :| t == c + u + d;
    assert s == (a + c) + u + (d + b);
  }

  lemma ContainsFirst(a: string, b: string, c: string)
    ensures Contains(a + b + c, a)
  {
    assert a + b + c == "" + a + (b + c);
  }

  lemma ContainsLeft(a: string, b: string)
    ensures Contains(a + b, a)
  {
    assert a + b == "" + a + b;
  }

  lemma ContainsLast(a: string, b: string)
    ensures Contains(a + b, b)
  {
    assert a + b == a + b + "";
  }

  /** What occurs in a piece of a concatenation occurs in the whole. */
  lemma ContainsInLeft(x: string, y: string, t: string)
    requires Contains(x, t)
    ensures Contains(x + y, t)
  {
    var a, b :| x == a + t + b;
    assert x + y == a + t + (b + y);
  }

  lemma ContainsInRight(x: string, y: string, t: string)
    requires Contains(y, t)
    ensures Contains(x + y, t)
  {
    var a, b :| y == a + t + b;
    assert x + y == (x + a) + t + b;
  }

  /** What occurs in the middle piece of a concatenation occurs in the whole. */
  lemma ContainsIn3(a: string, b: string, c: string, t: string)
    requires Contains(b, t)
    ensures Contains(a + b + c, t)
  {
    ContainsInRight(a, b, t);
    ContainsInLeft(a + b, c, t);
  }

  /** What occurs in the second, third or fifth of six pieces occurs in the whole. */
  lemma InSecondOfSix(a: string, b: string, c: string, d: string, e: string, f: string, t: string)
    requires Contains(b, t)
    ensures Contains(a + b + c + d + e + f, t)
  {
    ContainsInRight(a, b, t);
    ContainsInLeft(a + b, c, t);
    ContainsInLeft(a + b + c, d, t);
    ContainsInLeft(a + b + c + d, e, t);
    ContainsInLeft(a + b + c + d + e, f, t);
  }

  lemma InThirdOfSix(a: string, b: string, c: string, d: string, e: string, f: string, t: string)
    requires Contains(c, t)
    ensures Contains(a + b + c + d + e + f, t)
  {
    ContainsInRight(a + b, c, t);
    ContainsInLeft(a + b + c, d, t);
    ContainsInLeft(a + b + c + d, e, t);
    ContainsInLeft(a + b + c + d + e, f, t);
  }

  lemma InFifthOfSix(a: string, b: string, c: string, d: string, e: string, f: string, t: string)
    requires Contains(e, t)
    ensures Contains(a + b + c + d + e + f, t)
  {
    ContainsInRight(a + b + c + d, e, t);
    ContainsInLeft(a + b + c + d + e, f, t);
  }

  /** What occurs in either piece of a concatenation occurs in the whole. */
  lemma ContainsEither(x: string, y: string, t: string)
    requires Contains(x, t) || Contains(y, t)
    ensures Contains(x + y, t)
  {
    if Contains(x, t) {
      ContainsInLeft(x, y, t);
    } else {
      ContainsInRight(x, y, t);
    }
  }

  /** What occurs in one of the first seven of eight pieces occurs in the whole. */
  lemma InEight(a: string, b: string, c: string, d: string, e: string, f: string, g: string, h: string, t: string)
    requires Contains(a, t) || Contains(b, t) || Contains(c, t) || Contains(d, t)
          || Contains(e, t) || Contains(f, t) || Contains(g, t)
    ensures Contains(a + b + c + d + e + f + g + h, t)
  {
    if Contains(a, t) || Contains(b, t) { ContainsEither(a, b, t); }
    if Contains(a + b, t) || Contains(c, t) { ContainsEither(a + b, c, t); }
    if Contains(a + b + c, t) || Contains(d, t) { ContainsEither(a + b + c, d, t); }
    if Contains(a + b + c + d, t) || Contains(e, t) { ContainsEither(a + b + c + d, e, t); }
    if Contains(a + b + c + d + e, t) || Contains(f, t) { ContainsEither(a + b + c + d + e, f, t); }
    ContainsEither(a + b + c + d + e + f, g, t);
    ContainsInLeft(a + b + c + d + e + f + g, h, t);
  }

  /** Each piece of a concatenation of a few pieces occurs in it. */
  lemma Pieces3(a: string, b: string, c: string)
    ensures Contains(a + b + c, a)
    ensures Contains(a + b + c, b)
    ensures Contains(a + b + c, c)
  {
    ContainsLeft(a, b);
    ContainsInLeft(a + b, c, a);
    ContainsLast(a, b);
    ContainsInLeft(a + b, c, b);
    ContainsLast(a + b, c);
  }

  lemma Pieces4(a: string, b: string, c: string, d: string)
    ensures Contains(a + b + c + d, a)
    ensures Contains(a + b + c + d, b)
    ensures Contains(a + b + c + d, c)
    ensures Contains(a + b + c + d, d)
  {
    ContainsLeft(a, b);
    ContainsInLeft(a + b, c, a);
    ContainsInLeft(a + b + c, d, a);
    ContainsLast(a, b);
    ContainsInLeft(a + b, c, b);
    ContainsInLeft(a + b + c, d, b);
    ContainsLast(a + b, c);
    ContainsInLeft(a + b + c, d, c);
    ContainsLast(a + b + c, d);
  }

  lemma Pieces5(a: string, b: string, c: string, d: string, e: string)
    ensures Contains(a + b + c + d + e, a)
    ensures Contains(a + b + c + d + e, b)
    ensures Contains(a + b + c + d + e, c)
    ensures Contains(a + b + c + d + e, d)
    ensures Contains(a + b + c + d + e, e)
  {
    ContainsLeft(a, b);
    ContainsInLeft(a + b, c, a);
    ContainsInLeft(a + b + c, d, a);
    ContainsInLeft(a + b + c + d, e, a);
    ContainsLast(a, b);
    ContainsInLeft(a + b, c, b);
    ContainsInLeft(a + b + c, d, b);
    ContainsInLeft(a + b + c + d, e, b);
    ContainsLast(a + b, c);
    ContainsInLeft(a + b + c, d, c);
    ContainsInLeft(a + b + c + d, e, c);
    ContainsLast(a + b + c, d);
    ContainsInLeft(a + b + c + d, e, d);
    ContainsLast(a + b + c + d, e);
  }

  lemma Pieces6(a: string, b: string, c: string, d: string, e: string, f: string)
    ensures Contains(a + b + c + d + e + f, a)
    ensures Contains(a + b + c + d + e + f, b)
    ensures Contains(a + b + c + d + e + f, c)
    ensures Contains(a + b + c + d + e + f, d)
    ensures Contains(a + b + c + d + e + f, e)
    ensures Contains(a + b + c + d + e + f, f)
  {
    ContainsLeft(a, b);
    ContainsInLeft(a + b, c, a);
    ContainsInLeft(a + b + c, d, a);
    ContainsInLeft(a + b + c + d, e, a);
    ContainsInLeft(a + b + c + d + e, f, a);
    ContainsLast(a, b);
    ContainsInLeft(a + b, c, b);
    ContainsInLeft(a + b + c, d, b);
    ContainsInLeft(a + b + c + d, e, b);
    ContainsInLeft(a + b + c + d + e, f, b);
    ContainsLast(a + b, c);
    ContainsInLeft(a + b + c, d, c);
    ContainsInLeft(a + b + c + d, e, c);
    ContainsInLeft(a + b + c + d + e, f, c);
    ContainsLast(a + b + c, d);
    ContainsInLeft(a + b + c + d, e, d);
    ContainsInLeft(a + b + c + d + e, f, d);
    ContainsLast(a + b + c + d, e);
    ContainsInLeft(a + b + c + d + e, f, e);
    ContainsLast(a + b + c + d + e, f);
  }

  /** The text of a line occurs in it. */
  lemma LineShows(indent: nat, text: string)
    ensures Contains(Line(indent, text), text)
  {
    ContainsLast("\n" + Spaces(indent), text);
  }

  /** `xs.map(f).join('')`. */
  function JoinMap<T>(xs: seq<T>, f: T --> string): string
    requires forall i :: 0 <= i < |xs| ==> f.requires(xs[i])
  {
    if |xs| == 0 then "" else f(xs[0]) + JoinMap(xs[1..], f)
  }

  /** Each item's text occurs in the join. */
  lemma {:induction false} JoinMapContains<T>(xs: seq<T>, f: T --> string, k: nat)
    requires forall i :: 0 <= i < |xs| ==> f.requires(xs[i])
    requires k < |xs|
    ensures Contains(JoinMap(xs, f), f(xs[k]))
  {
    if k == 0 {
      assert JoinMap(xs, f) == "" + f(xs[0]) + JoinMap(xs[1..], f);
    } else {
      JoinMapContains(xs[1..], f, k - 1);
      assert JoinMap(xs, f) == f(xs[0]) + JoinMap(xs[1..], f) + "";
      ContainsTrans(JoinMap(xs, f), JoinMap(xs[1..], f), f(xs[k]));
    }
  }

  /** A join of items that are all rendered empty is empty. */
  lemma {:induction false} JoinMapAllEmpty<T>(xs: seq<T>, f: T --> string)
    requires forall i :: 0 <= i < |xs| ==> f.requires(xs[i])
    requires forall i :: 0 <= i < |xs| ==> f(xs[i]) == ""
    ensures JoinMap(xs, f) == ""
  {
    if |xs| > 0 {
      assert f(xs[0]) == "";
      JoinMapAllEmpty(xs[1..], f);
    }
  }

  /** `t` occurs in `s`, and `u` occurs after it. */
  ghost predicate Before(s: string, t: string, u: string) {
    exists x: string, y: string {:trigger Contains(x, t), Contains(y, u)} :: s == x + y && Contains(x, t) && Contains(y, u)
  }

  lemma BeforeSplit(x: string, y: string, t: string, u: string)
    requires Contains(x, t) && Contains(y, u)
    ensures Before(x + y, t, u)
  {
  }

  /** What is written in order is still in order with text around it. */
  lemma BeforeExtend(s: string, w: string, t: string, u: string)
    requires Before(s, t, u)
    ensures Before(s + w, t, u)
  {
    var x, y :| s == x + y && Contains(x, t) && Contains(y, u);
    ContainsInLeft(y, w, u);
    assert s + w == x + (y + w);
  }

  lemma BeforePrepend(w: string, s: string, t: string, u: string)
    requires Before(s, t, u)
    ensures Before(w + s, t, u)
  {
    var x, y :| s == x + y && Contains(x, t) && Contains(y, u);
    ContainsInRight(w, x, t);
    assert w + s == (w + x) + y;
  }

  lemma BeforeIn3(a: string, s: string, b: string, t: string, u: string)
    requires Before(s, t, u)
    ensures Before(a + s + b, t, u)
  {
    BeforePrepend(a, s, t, u);
    BeforeExtend(a + s, b, t, u);
  }

  lemma ContainsSelf(s: string)
    ensures Contains(s, s)
  {
    assert s == "" + s + "";
  }

  /** Something of the first of three pieces is written before something of
      the second. */
  lemma BeforeParts(a: string, b: string, c: string, t: string, u: string)
    requires Contains(a, t) && Contains(b, u)
    ensures Before(a + b + c, t, u)
  {
    ContainsInLeft(b, c, u);
    assert a + b + c == a + (b + c);
  }

  /** Two pieces with one between them are written in order. */
  lemma BeforeAdjacent(p: string, t: string, m: string, u: string)
    ensures Before(p + t + m + u, t, u)
  {
    ContainsLast(p, t);
    ContainsInLeft(p + t, m, t);
    ContainsSelf(u);
    BeforeSplit(p + t + m, u, t, u);
  }

  /** What is written in order inside a piece is written in order in the whole. */
  lemma BeforeInside(s: string, w: string, t: string, u: string)
    requires Contains(s, w) && Before(w, t, u)
    ensures Before(s, t, u)
  {
    var a, b :| s == a + w + b;
    BeforeIn3(a, w, b, t, u);
  }

  /** What contains a text contains its beginning. */
  lemma ContainsPrefix(s: string, p: string, m: string, u: string)
    requires Contains(s, p + m + u)
    ensures Contains(s, p)
  {
    ContainsFirst(p, m, u);
    ContainsTrans(s, p + m + u, p);
  }

  /** Both texts written in order are written. */
  lemma BeforeContains(s: string, t: string, u: string)
    requires Before(s, t, u)
    ensures Contains(s, t) && Contains(s, u)
  {
    var x, y :| s == x + y && Contains(x, t) && Contains(y, u);
    ContainsInLeft(x, y, t);
    ContainsInRight(x, y, u);
  }

  /** Every part of a join is written in it. */
  lemma {:induction false} ConcatContains(parts: seq<string>, k: nat)
    requires k < |parts|
    ensures Contains(Concat(parts), parts[k])
  {
    if k == 0 {
      ContainsLeft(parts[0], Concat(parts[1..]));
    } else {
      ConcatContains(parts[1..], k - 1);
      ContainsInRight(parts[0], Concat(parts[1..]), parts[k]);
    }
  }

  /** A join writes its parts in their order. */
  lemma {:induction false} ConcatOrder(parts: seq<string>, i: nat, j: nat)
    requires i < j < |parts|
    ensures Before(Concat(parts), parts[i], parts[j])
  {
    if i == 0 {
      ConcatContains(parts[1..], j - 1);
      ContainsSelf(parts[0]);
      BeforeSplit(parts[0], Concat(parts[1..]), parts[0], parts[j]);
    } else {
      ConcatOrder(parts[1..], i - 1, j - 1);
      BeforePrepend(parts[0], Concat(parts[1..]), parts[i], parts[j]);
    }
  }

  /** A join writes its items in the order of the list. */
  lemma {:induction false} JoinMapOrder<T>(xs: seq<T>, f: T --> string, i: nat, j: nat)
    requires forall k :: 0 <= k < |xs| ==> f.requires(xs[k])
    requires i < j < |xs|
    ensures Before(JoinMap(xs, f), f(xs[i]), f(xs[j]))
  {
    if i == 0 {
      JoinMapContains(xs[1..], f, j - 1);
      assert f(xs[0]) == "" + f(xs[0]) + "";
      BeforeSplit(f(xs[0]), JoinMap(xs[1..], f), f(xs[0]), f(xs[j]));
    } else {
      JoinMapOrder(xs[1..], f, i - 1, j - 1);
      BeforePrepend(f(xs[0]), JoinMap(xs[1..], f), f(xs[i]), f(xs[j]));
    }
  }

  predicate HasPrefix(s: string, p: string) {
    |p| <= |s| && s[..|p|] == p
  }

  predicate HasSuffix(s: string, p: string) {
    |p| <= |s| && s[|s| - |p|..] == p
  }

  lemma PrefixOfAppend(a: string, b: string)
    ensures HasPrefix(a + b, a)
  {
    assert (a + b)[..|a|] == a;
  }

  lemma PrefixTrans(a: string, b: string, c: string)
    requires HasPrefix(a, b) && HasPrefix(b, c)
    ensures HasPrefix(a, c)
  {
    assert a[..|c|] == a[..|b|][..|c|];
  }

  lemma SuffixOfAppend(a: string, b: string)
    ensures HasSuffix(a + b, b)
  {
    assert (a + b)[|a + b| - |b|..] == b;
  }

  /** Index of the first `c` in `s`, or `|s|` when there is none. */
  function IndexOf(s: string, c: char): (k: nat)
    ensures k <= |s|
    ensures k < |s| ==> s[k] == c
    ensures forall i :: 0 <= i < k ==> s[i] != c
  {
    if |s| == 0 then 0 else if s[0] == c then 0 else 1 + IndexOf(s[1..], c)
  }

  /** The first `c` of `a + b` is the first character of `b` when `a` has none. */
  lemma IndexOfAfter(a: string, c: char, b: string)
    requires c !in a && |b| > 0 && b[0] == c
    ensures IndexOf(a + b, c) == |a|
  {
    assert (a + b)[|a|] == c;
    assert forall i :: 0 <= i < |a| ==> (a + b)[i] == a[i];
  }

  function DigitChar(d: nat): (c: char)
    requires d < 10
  {
    "0123456789"[d]
  }

  predicate IsDigit(c: char) {
    '0' <= c <= '9'
  }

  function DigitValue(c: char): nat
    requires IsDigit(c)
  {
    (c - '0') as nat
  }

  /** Decimal text of a non-negative integer, as `${n}` prints a JavaScript
      number that holds an integer. */
  function NatToString(n: nat): (r: string)
    ensures |r| > 0 && forall i :: 0 <= i < |r| ==> IsDigit(r[i])
    ensures r[0] == '0' ==> n == 0
  {
    if n < 10 then [DigitChar(n)] else NatToString(n / 10) + [DigitChar(n % 10)]
  }

  /** Reads a string of decimal digits back as a number. */
  function ParseDecimal(s: string): nat
    requires forall i :: 0 <= i < |s| ==> IsDigit(s[i])
  {
    if |s| == 0 then 0 else 10 * ParseDecimal(s[..|s| - 1]) + DigitValue(s[|s| - 1])
  }

  lemma {:induction false} NatToStringRoundTrip(n: nat)
    ensures ParseDecimal(NatToString(n)) == n
  {
    var r := NatToString(n);
    if n >= 10 {
      NatToStringRoundTrip(n / 10);
      assert r[..|r| - 1] == NatToString(n / 10);
    }
  }

  /** Distinct numbers print as distinct text. */
  lemma NatToStringInjective(m: nat, n: nat)
    requires NatToString(m) == NatToString(n)
    ensures m == n
  {
    NatToStringRoundTrip(m);
    NatToStringRoundTrip(n);
  }
}
