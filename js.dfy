/** The few JavaScript semantics the client relies on: truthiness of strings,
    numbers and optional values, the `||` fallback, `String(undefined)`,
    `String.prototype.includes` and `String.prototype.trim`.
    An absent string field (`undefined`, `null`) is modelled as `None` where the
    difference from `""` is observable, and as `""` where only truthiness matters. */
module Js {

  datatype Option<+T> = None | Some(value: T) {
    function GetOr(default: T): T {
      match this
      case Some(v) => v
      case None => default
    }
  }

  /** A string is truthy iff it is not empty. */
  predicate Truthy(s: string) {
    s != ""
  }

  /** An optional string (`null`/`undefined` or a string) is truthy iff it is
      present and not empty. */
  predicate TruthyOpt(o: Option<string>) {
    o.Some? && o.value != ""
  }

  /** `a || b` on two strings. */
  function Or(a: string, b: string): (r: string)
    ensures Truthy(b) ==> Truthy(r)
    ensures r == a || r == b
    ensures Truthy(a) ==> r == a
  {
    if a != "" then a else b
  }

  /** `x || d` on an optional number: absent and 0 fall back to `d`
      (NaN is not modelled). With a non-zero fallback the result is never 0,
      whatever `x` is. */
  function NumberOr(x: Option<int>, d: int): (r: int)
    ensures x.Some? && x.value != 0 ==> r == x.value
    ensures (x.None? || x.value == 0) ==> r == d
    ensures d != 0 ==> r != 0
  {
    if x.Some? && x.value != 0 then x.value else d
  }

  /** `String(v)` for a string that may be `undefined`, as `localStorage.setItem`
      and template literals apply it. A missing value becomes a truthy text:
      the result is falsy only for a present empty string. */
  function ToJsString(v: Option<string>): (r: string)
    ensures v.Some? ==> r == v.value
    ensures v.None? ==> r == "undefined"
    ensures Truthy(r) <==> v.None? || TruthyOpt(v)
  {
    match v
    case Some(s) => s
    case None => "undefined"
  }

  // ---------------------------------------------------------------------------
  // String.prototype.includes

  /** `sub` occurs in `s` starting at index `i`. */
  predicate OccursAt(s: string, sub: string, i: int) {
    0 <= i && i + |sub| <= |s| && s[i..i + |sub|] == sub
  }

  /** `s.includes(sub)`, computed by scanning `s` from the left. */
  function Contains(s: string, sub: string): bool
    decreases |s|
  {
    if sub <= s then true
    else if s == [] then false
    else Contains(s[1..], sub)
  }

  /** The scan finds `sub` exactly when `sub` occurs somewhere in `s`. */
  lemma {:induction false} ContainsIffOccurs(s: string, sub: string)
    ensures Contains(s, sub) <==> exists i :: OccursAt(s, sub, i)
    decreases |s|
  {
    if sub <= s {
      assert s[0..|sub|] == sub;
      assert OccursAt(s, sub, 0);
    } else if s == [] {
    } else {
      ContainsIffOccurs(s[1..], sub);
      if Contains(s[1..], sub) {
        var i :| OccursAt(s[1..], sub, i);
        assert s[i + 1..i + 1 + |sub|] == s[1..][i..i + |sub|];
        assert OccursAt(s, sub, i + 1);
      } else {
        forall i | 0 < i && OccursAt(s, sub, i) ensures OccursAt(s[1..], sub, i - 1) {
          assert s[1..][i - 1..i - 1 + |sub|] == s[i..i + |sub|];
        }
      }
    }
  }

  /** An occurrence survives text written before or after it, shifted by the
      length of what came before. */
  lemma OccursInConcat(a: string, s: string, b: string, sub: string, i: int)
    requires OccursAt(s, sub, i)
    ensures OccursAt(a + s + b, sub, |a| + i)
  {
    assert (a + s + b)[|a| + i..|a| + i + |sub|] == s[i..i + |sub|];
  }

  // ---------------------------------------------------------------------------
  // String.prototype.trim

  /** The characters `trim` removes: the WhiteSpace and LineTerminator code
      points of ECMAScript (section 12.2 and 12.3 of ECMA-262), with the
      Unicode space separators written out. */
  predicate IsWhitespace(c: char) {
    c == ' ' || c == '\t' || c == '\n' || c == '\r' || c == '\U{000B}' || c == '\U{000C}'
    || c == '\U{00A0}' || c == '\U{FEFF}' || c == '\U{1680}'
    || ('\U{2000}' <= c <= '\U{200A}')
    || c == '\U{2028}' || c == '\U{2029}' || c == '\U{202F}' || c == '\U{205F}' || c == '\U{3000}'
  }

  /** The number of whitespace characters at the start of `s`. */
  function LeadingWhitespace(s: string): (n: nat)
    ensures n <= |s|
    ensures forall k :: 0 <= k < n ==> IsWhitespace(s[k])
    ensures n < |s| ==> !IsWhitespace(s[n])
  {
    if s == [] || !IsWhitespace(s[0]) then 0 else 1 + LeadingWhitespace(s[1..])
  }

  /** The number of whitespace characters at the end of `s`. */
  function TrailingWhitespace(s: string): (n: nat)
    ensures n <= |s|
    ensures forall k :: |s| - n <= k < |s| ==> IsWhitespace(s[k])
    ensures n < |s| ==> !IsWhitespace(s[|s| - n - 1])
  {
    if s == [] || !IsWhitespace(s[|s| - 1]) then 0 else 1 + TrailingWhitespace(s[..|s| - 1])
  }

  /** `s.trim()`: the infix of `s` left after removing leading and trailing
      whitespace; everything removed is whitespace, and what is left neither
      starts nor ends with whitespace. */
  function Trim(s: string): (r: string)
    ensures exists i, j :: 0 <= i <= j <= |s| && r == s[i..j]
                        && (forall k :: 0 <= k < i ==> IsWhitespace(s[k]))
                        && (forall k :: j <= k < |s| ==> IsWhitespace(s[k]))
    ensures r != [] ==> !IsWhitespace(r[0]) && !IsWhitespace(r[|r| - 1])
  {
    var front := LeadingWhitespace(s);
    var rest := s[front..];
    var back := TrailingWhitespace(rest);
    assert rest[..|rest| - back] == s[front..|s| - back];
    TrimEnd(TrimStart(s))
  }

  /** `s` without its leading whitespace. */
  function TrimStart(s: string): string {
    s[LeadingWhitespace(s)..]
  }

  /** `s` without its trailing whitespace. */
  function TrimEnd(s: string): string {
    s[..|s| - TrailingWhitespace(s)]
  }

  /** Trimming twice is trimming once. */
  lemma TrimIdempotent(s: string)
    ensures Trim(Trim(s)) == Trim(s)
  {
    var t := Trim(s);
    assert LeadingWhitespace(t) == 0;
    assert TrailingWhitespace(t) == 0;
    assert t[0..][..|t|] == t;
  }

  /** Whitespace written before `t` adds to its leading whitespace. */
  lemma {:induction false} LeadingWhitespacePrefix(a: string, t: string)
    requires forall k :: 0 <= k < |a| ==> IsWhitespace(a[k])
    ensures LeadingWhitespace(a + t) == |a| + LeadingWhitespace(t)
  {
    if a == [] {
      assert a + t == t;
    } else {
      assert (a + t)[1..] == a[1..] + t;
      LeadingWhitespacePrefix(a[1..], t);
    }
  }

  /** Whitespace written after `t` adds to its trailing whitespace. */
  lemma {:induction false} TrailingWhitespaceSuffix(t: string, b: string)
    requires forall k :: 0 <= k < |b| ==> IsWhitespace(b[k])
    ensures TrailingWhitespace(t + b) == |b| + TrailingWhitespace(t)
  {
    if b == [] {
      assert t + b == t;
    } else {
      var c := b[..|b| - 1];
      assert (t + b)[..|t + b| - 1] == t + c;
      TrailingWhitespaceSuffix(t, c);
    }
  }

  /** Trimming the start ignores whitespace written before the text. */
  lemma TrimStartPrefix(a: string, t: string)
    requires forall k :: 0 <= k < |a| ==> IsWhitespace(a[k])
    ensures TrimStart(a + t) == TrimStart(t)
  {
    LeadingWhitespacePrefix(a, t);
    assert (a + t)[|a| + LeadingWhitespace(t)..] == t[LeadingWhitespace(t)..];
  }

  /** Text that is not all whitespace keeps its leading whitespace when more
      text follows it. */
  lemma LeadingWhitespaceSuffix(t: string, b: string)
    requires LeadingWhitespace(t) < |t|
    ensures LeadingWhitespace(t + b) == LeadingWhitespace(t)
  {
    var n, m := LeadingWhitespace(t), LeadingWhitespace(t + b);
    assert (t + b)[n] == t[n];
    if m < n {
      assert (t + b)[m] == t[m];
    }
  }

  /** Trimming the end ignores whitespace written after the text. */
  lemma TrimEndSuffix(t: string, b: string)
    requires forall k :: 0 <= k < |b| ==> IsWhitespace(b[k])
    ensures TrimEnd(t + b) == TrimEnd(t)
  {
    TrailingWhitespaceSuffix(t, b);
    var keep := |t| - TrailingWhitespace(t);
    assert (t + b)[..keep] == t[..keep];
  }

  /** Trimming ignores whitespace written before the text. */
  lemma TrimPrefix(a: string, t: string)
    requires forall k :: 0 <= k < |a| ==> IsWhitespace(a[k])
    ensures Trim(a + t) == Trim(t)
  {
    TrimStartPrefix(a, t);
  }

  /** Trimming ignores whitespace written after the text. */
  lemma TrimSuffix(t: string, b: string)
    requires forall k :: 0 <= k < |b| ==> IsWhitespace(b[k])
    ensures Trim(t + b) == Trim(t)
  {
    var n := LeadingWhitespace(t);
    if n == |t| {
      LeadingWhitespacePrefix(t, b);
      assert LeadingWhitespace(b) == |b|;
      assert TrimStart(t + b) == [] && TrimStart(t) == [];
    } else {
      LeadingWhitespaceSuffix(t, b);
      assert TrimStart(t + b) == TrimStart(t) + b;
      TrimEndSuffix(TrimStart(t), b);
    }
  }

  /** Trimming ignores whitespace padding on both sides. */
  lemma TrimIgnoresPadding(a: string, s: string, b: string)
    requires forall k :: 0 <= k < |a| ==> IsWhitespace(a[k])
    requires forall k :: 0 <= k < |b| ==> IsWhitespace(b[k])
    ensures Trim(a + s + b) == Trim(s)
  {
    TrimSuffix(a + s, b);
    TrimPrefix(a, s);
  }

  /** A string made only of whitespace trims to the empty string. */
  lemma TrimAllWhitespace(s: string)
    requires forall k :: 0 <= k < |s| ==> IsWhitespace(s[k])
    ensures Trim(s) == ""
  {
  }
}
