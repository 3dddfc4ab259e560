/** The `userData` text that the login screen stores
    (`JSON.stringify({uid, username, email})`, src/components/login/login.js)
    and the dashboard reads back (`JSON.parse`, src/pages/Dashboard/Dashboard.js).
    Encoding follows JSON.stringify (section 25.5.2 of ECMA-262) for an object
    whose members are strings or `undefined`: the members appear in insertion
    order, `undefined` ones are omitted, and a string is quoted with `"` and
    `\` escaped, the short escapes for backspace, form feed, newline, carriage
    return and tab, and `\u00xx` in lower-case hex for the other control
    characters. Decoding accepts JSON text (RFC 8259) that is an object whose
    members are all strings, with whitespace between tokens; a repeated name
    keeps its last value. Any other text is reported as unrecognised. */
module UserDataJson {
  import opened Js

  /** The stored record; an absent field is `undefined` in the source. */
  datatype UserData = UserData(uid: Option<string>, username: Option<string>, email: Option<string>)

  // ---------------------------------------------------------------------------
  // Encoding

  function HexDigit(n: nat): (c: char)
    requires n < 16
    ensures HexValue(c) == Some(n)
  {
    if n < 10 then ('0' as int + n) as char else ('a' as int + n - 10) as char
  }

  /** The JSON text of one character inside a string literal. */
  function EscapeChar(c: char): string {
    if c == '"' then "\\\""
    else if c == '\\' then "\\\\"
    else if c == '\U{0008}' then "\\b"
    else if c == '\U{000C}' then "\\f"
    else if c == '\n' then "\\n"
    else if c == '\r' then "\\r"
    else if c == '\t' then "\\t"
    else if c < ' ' then "\\u00" + [HexDigit(c as int / 16), HexDigit(c as int % 16)]
    else [c]
  }

  function Escape(s: string): string {
    if s == [] then [] else EscapeChar(s[0]) + Escape(s[1..])
  }

  function Quote(s: string): string {
    "\"" + Escape(s) + "\""
  }

  /** The members `JSON.stringify` writes: the present fields, in order. */
  function Field(name: string, value: Option<string>): seq<(string, string)> {
    if value.Some? then [(name, value.value)] else []
  }

  function Members(u: UserData): seq<(string, string)> {
    Field("uid", u.uid) + Field("username", u.username) + Field("email", u.email)
  }

  function Pair(m: (string, string)): string {
    Quote(m.0) + ":" + Quote(m.1)
  }

  /** The members joined by commas. */
  function JoinPairs(ms: seq<(string, string)>): string {
    if ms == [] then ""
    else if |ms| == 1 then Pair(ms[0])
    else Pair(ms[0]) + "," + JoinPairs(ms[1..])
  }

  /** `JSON.stringify({uid, username, email})`. The text is never empty and
      never the word `undefined`, since it starts with `{`. */
  function Encode(u: UserData): (t: string)
    ensures |t| >= 2 && t[0] == '{' && t[|t| - 1] == '}'
    ensures t != "" && t != "undefined"
  {
    "{" + JoinPairs(Members(u)) + "}"
  }

  // ---------------------------------------------------------------------------
  // Decoding

  function HexValue(c: char): (r: Option<nat>)
    ensures r.Some? ==> r.value < 16
  {
    if '0' <= c <= '9' then Some(c as int - '0' as int)
    else if 'a' <= c <= 'f' then Some(c as int - 'a' as int + 10)
    else if 'A' <= c <= 'F' then Some(c as int - 'A' as int + 10)
    else None
  }

  /** The escape after a backslash: the character it stands for and the rest.
      A `\u` escape naming a surrogate is not decoded (surrogate pairs are
      not modelled). */
  function Unescape(s: string): (r: Option<(char, string)>)
    ensures r.Some? ==> |r.value.1| < |s|
  {
    if s == [] then None
    else if s[0] == '"' then Some(('"', s[1..]))
    else if s[0] == '\\' then Some(('\\', s[1..]))
    else if s[0] == '/' then Some(('/', s[1..]))
    else if s[0] == 'b' then Some(('\U{0008}', s[1..]))
    else if s[0] == 'f' then Some(('\U{000C}', s[1..]))
    else if s[0] == 'n' then Some(('\n', s[1..]))
    else if s[0] == 'r' then Some(('\r', s[1..]))
    else if s[0] == 't' then Some(('\t', s[1..]))
    else if s[0] == 'u' && |s| >= 5 then
      var h1, h2, h3, h4 := HexValue(s[1]), HexValue(s[2]), HexValue(s[3]), HexValue(s[4]);
      if h1.None? || h2.None? || h3.None? || h4.None? then None
      else
        var code := ((h1.value * 16 + h2.value) * 16 + h3.value) * 16 + h4.value;
        if 0xD800 <= code < 0xE000 then None else Some((code as char, s[5..]))
    else None
  }

  /** A character in front of the text read after it. */
  function PrependChar(c: char, r: Option<(string, string)>): Option<(string, string)> {
    match r
    case None => None
    case Some((v, after)) => Some(([c] + v, after))
  }

  /** The body of a string literal after its opening quote: the decoded text
      and what follows the closing quote. */
  function ReadChars(s: string): (r: Option<(string, string)>)
    ensures r.Some? ==> |r.value.1| < |s|
    decreases |s|
  {
    if s == [] then None
    else if s[0] == '"' then Some(([], s[1..]))
    else if s[0] == '\\' then
      match Unescape(s[1..])
      case None => None
      case Some((c, rest)) => PrependChar(c, ReadChars(rest))
    else if s[0] < ' ' then None
    else PrependChar(s[0], ReadChars(s[1..]))
  }

  predicate IsJsonSpace(c: char) {
    c == ' ' || c == '\t' || c == '\n' || c == '\r'
  }

  function SkipSpace(s: string): (r: string)
    ensures |r| <= |s|
    ensures r == [] || !IsJsonSpace(r[0])
  {
    if s != [] && IsJsonSpace(s[0]) then SkipSpace(s[1..]) else s
  }

  /** A string literal at the start of `s`. */
  function ReadString(s: string): (r: Option<(string, string)>)
    ensures r.Some? ==> |r.value.1| < |s|
  {
    if s != [] && s[0] == '"' then ReadChars(s[1..]) else None
  }

  /** A member in front of the members read after it. */
  function Prepend(m: (string, string), r: Option<(seq<(string, string)>, string)>): Option<(seq<(string, string)>, string)> {
    match r
    case None => None
    case Some((more, after)) => Some(([m] + more, after))
  }

  /** `"name" : "value"` followed by `,` and more members, or by `}`; the
      members read and what follows the closing brace. */
  function ReadMembers(s: string): (r: Option<(seq<(string, string)>, string)>)
    decreases |s|
  {
    match ReadString(s)
    case None => None
    case Some((name, r1)) =>
      var r2 := SkipSpace(r1);
      if r2 == [] || r2[0] != ':' then None
      else
        match ReadString(SkipSpace(r2[1..]))
        case None => None
        case Some((value, r3)) =>
          var r4 := SkipSpace(r3);
          if r4 != [] && r4[0] == '}' then Some(([(name, value)], r4[1..]))
          else if r4 != [] && r4[0] == ',' then
            Prepend((name, value), ReadMembers(SkipSpace(r4[1..])))
          else None
  }

  /** An object at the start of `s`: its members and what follows it. */
  function ReadObject(s: string): Option<(seq<(string, string)>, string)> {
    var t := SkipSpace(s);
    if t == [] || t[0] != '{' then None
    else
      var u := SkipSpace(t[1..]);
      if u != [] && u[0] == '}' then Some(([], u[1..])) else ReadMembers(u)
  }

  /** The object the members build: a later member overwrites an earlier one. */
  function ToMap(ms: seq<(string, string)>): map<string, string> {
    if ms == [] then map[] else ToMap(ms[..|ms| - 1])[ms[|ms| - 1].0 := ms[|ms| - 1].1]
  }

  function Lookup(m: map<string, string>, name: string): Option<string> {
    if name in m then Some(m[name]) else None
  }

  /** `JSON.parse` of a stored text, for texts of the recognised shape: the
      record, with every field the object lacks absent; `None` for any other
      text. Only a text whose first non-space character is `{` is read, so
      the empty text and `undefined`, on which `JSON.parse` throws, are not. */
  function Decode(t: string): (r: Option<UserData>)
    ensures r.Some? ==> SkipSpace(t) != [] && SkipSpace(t)[0] == '{'
    ensures t == "" || t == "undefined" ==> r.None?
  {
    match ReadObject(t)
    case None => None
    case Some((ms, rest)) =>
      if SkipSpace(rest) != [] then None
      else
        var m := ToMap(ms);
        Some(UserData(Lookup(m, "uid"), Lookup(m, "username"), Lookup(m, "email")))
  }

  // ---------------------------------------------------------------------------
  // The round trip

  predicate HasShortEscape(c: char) {
    c == '"' || c == '\\' || c == '\U{0008}' || c == '\U{000C}' || c == '\n' || c == '\r' || c == '\t'
  }

  /** A backslash followed by an escape that decodes to `c` is read as `c`. */
  lemma ReadBackslash(e: string, c: char, t: string)
    requires Unescape(e + t) == Some((c, t))
    ensures ReadChars("\\" + e + t) == PrependChar(c, ReadChars(t))
  {
    var s := "\\" + e + t;
    assert s[1..] == e + t;
  }

  lemma ReadShortEscape(c: char, t: string)
    requires HasShortEscape(c)
    ensures ReadChars(EscapeChar(c) + t) == PrependChar(c, ReadChars(t))
  {
    var x := EscapeChar(c)[1];
    assert EscapeChar(c) == "\\" + [x];
    assert ([x] + t)[1..] == t;
    ReadBackslash([x], c, t);
  }

  lemma ReadHexEscape(c: char, t: string)
    requires !HasShortEscape(c) && c < ' '
    ensures ReadChars(EscapeChar(c) + t) == PrependChar(c, ReadChars(t))
  {
    var hi, lo := c as int / 16, c as int % 16;
    var e := ['u', '0', '0', HexDigit(hi), HexDigit(lo)];
    assert EscapeChar(c) == "\\" + e;
    assert ((0 * 16 + 0) * 16 + hi) * 16 + lo == c as int;
    assert (e + t)[5..] == t;
    ReadBackslash(e, c, t);
  }

  lemma ReadPlain(c: char, t: string)
    requires !HasShortEscape(c) && ' ' <= c
    ensures ReadChars(EscapeChar(c) + t) == PrependChar(c, ReadChars(t))
  {
    assert (EscapeChar(c) + t)[1..] == t;
  }

  /** One escaped character is read back as itself. */
  lemma ReadEscapedChar(c: char, t: string)
    ensures ReadChars(EscapeChar(c) + t) == PrependChar(c, ReadChars(t))
  {
    if HasShortEscape(c) {
      ReadShortEscape(c, t);
    } else if c < ' ' {
      ReadHexEscape(c, t);
    } else {
      ReadPlain(c, t);
    }
  }

  /** An escaped text followed by the closing quote is read back as itself. */
  lemma {:induction false} ReadEscaped(v: string, t: string)
    ensures ReadChars(Escape(v) + "\"" + t) == Some((v, t))
    decreases |v|
  {
    if v == [] {
      assert Escape(v) + "\"" + t == "\"" + t;
    } else {
      assert Escape(v) + "\"" + t == EscapeChar(v[0]) + (Escape(v[1..]) + "\"" + t);
      ReadEscapedChar(v[0], Escape(v[1..]) + "\"" + t);
      ReadEscaped(v[1..], t);
      assert [v[0]] + v[1..] == v;
    }
  }

  /** A quoted text is read back as itself. */
  lemma ReadQuoted(v: string, t: string)
    ensures ReadString(Quote(v) + t) == Some((v, t))
  {
    assert (Quote(v) + t)[1..] == Escape(v) + "\"" + t;
    ReadEscaped(v, t);
  }

  lemma SkipNoSpace(s: string)
    requires s != [] && !IsJsonSpace(s[0])
    ensures SkipSpace(s) == s
  {
  }

  /** A quoted text starts with the quote. */
  lemma QuoteStart(v: string, t: string)
    ensures (Quote(v) + t)[0] == '"'
  {
  }

  /** A member starts with the quote of its name. */
  lemma PairStart(m: (string, string))
    ensures Pair(m) != [] && Pair(m)[0] == '"'
  {
    var q := Quote(m.0);
    assert q[0] == '"';
    assert Pair(m) == q + (":" + Quote(m.1));
  }

  /** Joined members start with the quote of the first name. */
  lemma JoinedStart(ms: seq<(string, string)>, t: string)
    requires ms != []
    ensures JoinPairs(ms) + t != [] && (JoinPairs(ms) + t)[0] == '"'
  {
    var p := Pair(ms[0]);
    PairStart(ms[0]);
    if |ms| == 1 {
      assert JoinPairs(ms) == p;
    } else {
      assert JoinPairs(ms) == p + ("," + JoinPairs(ms[1..]));
    }
  }

  /** One member followed by `}` or `,` is read, and the reading goes on
      after that character. */
  lemma ReadPairStep(k: string, v: string, tail: string)
    requires tail != [] && (tail[0] == '}' || tail[0] == ',')
    ensures tail[0] == '}' ==> ReadMembers(Quote(k) + (":" + (Quote(v) + tail))) == Some(([(k, v)], tail[1..]))
    ensures tail[0] == ',' ==>
      ReadMembers(Quote(k) + (":" + (Quote(v) + tail))) == Prepend((k, v), ReadMembers(SkipSpace(tail[1..])))
  {
    var r1 := ":" + (Quote(v) + tail);
    ReadQuoted(k, r1);
    SkipNoSpace(r1);
    assert r1[1..] == Quote(v) + tail;
    QuoteStart(v, tail);
    SkipNoSpace(Quote(v) + tail);
    ReadQuoted(v, tail);
    SkipNoSpace(tail);
  }

  lemma Assoc2(a: string, b: string, c: string)
    ensures a + b + c == a + (b + c)
  {
  }

  lemma Assoc4(a: string, b: string, c: string, d: string, e: string)
    ensures a + b + c + d + e == a + (b + (c + (d + e)))
  {
  }

  lemma Assoc6(a: string, b: string, c: string, d: string, e: string, f: string, g: string)
    ensures a + b + c + d + e + f + g == a + (b + (c + (d + (e + (f + g)))))
  {
  }

  /** The last member, followed by `}`, is read as a one-member list. */
  lemma ReadLastPair(m: (string, string), rest: string)
    ensures ReadMembers(Pair(m) + "}" + rest) == Some(([m], rest))
  {
    Assoc4(Quote(m.0), ":", Quote(m.1), "}", rest);
    ReadPairStep(m.0, m.1, "}" + rest);
    assert ("}" + rest)[1..] == rest;
  }

  /** A member followed by `,` and more members is read in front of them. */
  lemma ReadPairThen(m: (string, string), ms: seq<(string, string)>, rest: string)
    requires ms != []
    ensures ReadMembers(Pair(m) + "," + JoinPairs(ms) + "}" + rest) ==
              Prepend(m, ReadMembers(JoinPairs(ms) + "}" + rest))
  {
    var j := JoinPairs(ms);
    Assoc6(Quote(m.0), ":", Quote(m.1), ",", j, "}", rest);
    var next := j + ("}" + rest);
    ReadPairStep(m.0, m.1, "," + next);
    assert ("," + next)[1..] == next;
    JoinedStart(ms, "}" + rest);
    SkipNoSpace(next);
    Assoc2(j, "}", rest);
  }

  /** The joined members followed by `}` are read back as themselves. */
  lemma {:induction false} ReadJoined(ms: seq<(string, string)>, rest: string)
    requires ms != []
    ensures ReadMembers(JoinPairs(ms) + "}" + rest) == Some((ms, rest))
    decreases |ms|
  {
    if |ms| == 1 {
      assert JoinPairs(ms) == Pair(ms[0]);
      ReadLastPair(ms[0], rest);
      assert ms == [ms[0]];
    } else {
      assert JoinPairs(ms) == Pair(ms[0]) + "," + JoinPairs(ms[1..]);
      ReadPairThen(ms[0], ms[1..], rest);
      ReadJoined(ms[1..], rest);
      assert [ms[0]] + ms[1..] == ms;
    }
  }

  /** Adding one optional field to the members adds it to the object. */
  lemma ToMapField(ms: seq<(string, string)>, name: string, value: Option<string>)
    ensures ToMap(ms + Field(name, value)) ==
              if value.Some? then ToMap(ms)[name := value.value] else ToMap(ms)
  {
    if value.Some? {
      var t := ms + Field(name, value);
      assert t[..|t| - 1] == ms;
    } else {
      assert ms + Field(name, value) == ms;
    }
  }

  /** The three fields land in the object under their own names. */
  lemma LookupMembers(u: UserData)
    ensures Lookup(ToMap(Members(u)), "uid") == u.uid
    ensures Lookup(ToMap(Members(u)), "username") == u.username
    ensures Lookup(ToMap(Members(u)), "email") == u.email
  {
    var a := Field("uid", u.uid);
    ToMapField([], "uid", u.uid);
    assert [] + a == a;
    ToMapField(a, "username", u.username);
    ToMapField(a + Field("username", u.username), "email", u.email);
  }

  /** The empty object `{}` is read as no members. */
  lemma ReadEmptyObject()
    ensures ReadObject("{}") == Some(([], ""))
  {
    SkipNoSpace("{}");
    assert "{}"[1..] == "}";
    SkipNoSpace("}");
    assert "}"[1..] == "";
  }

  /** An object whose first member starts right after `{` is read as its
      members. */
  lemma ReadObjectOpen(b: string)
    requires b != [] && b[0] == '"'
    ensures ReadObject("{" + b) == ReadMembers(b)
  {
    var t := "{" + b;
    SkipNoSpace(t);
    assert t[1..] == b;
    SkipNoSpace(b);
  }

  /** An object with members is read back as those members. */
  lemma ReadFullObject(ms: seq<(string, string)>)
    requires ms != []
    ensures ReadObject("{" + JoinPairs(ms) + "}") == Some((ms, ""))
  {
    var j := JoinPairs(ms);
    JoinedStart(ms, "}");
    Assoc2("{", j, "}");
    ReadObjectOpen(j + "}");
    assert j + "}" + "" == j + "}";
    ReadJoined(ms, "");
  }

  /** The encoded object is read back as its members, with nothing after it. */
  lemma ReadEncodedObject(u: UserData)
    ensures ReadObject(Encode(u)) == Some((Members(u), ""))
  {
    if Members(u) == [] {
      assert Encode(u) == "{}";
      ReadEmptyObject();
    } else {
      ReadFullObject(Members(u));
    }
  }

  /** What login writes, the dashboard reads back unchanged. */
  lemma DecodeEncode(u: UserData)
    ensures Decode(Encode(u)) == Some(u)
  {
    ReadEncodedObject(u);
    assert SkipSpace("") == "";
    LookupMembers(u);
  }
}
