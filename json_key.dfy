/**
 * The handler's cache key, `JSON.stringify(req.query)`, for a query whose
 * parameters are all strings, in the order the object enumerates them.
 * `Stringify` escapes the way ECMAScript's QuoteJSONString does; `Parse`
 * reads that text back, so the key determines the query.
 */
module JsonKey {
  import opened Results

  /** The parsed query object: its properties in enumeration order. */
  type Query = seq<(string, string)>

  const HexDigits: string := "0123456789abcdef"

  /** QuoteJSONString's escape of one character. */
  function EscapeChar(c: char): string
  {
    if c == '\U{8}' then "\\b"
    else if c == '\t' then "\\t"
    else if c == '\n' then "\\n"
    else if c == '\U{C}' then "\\f"
    else if c == '\r' then "\\r"
    else if c == '"' then "\\\""
    else if c == '\\' then "\\\\"
    else if (c as int) < 0x20 then
      "\\u00" + [HexDigits[(c as int) / 16], HexDigits[(c as int) % 16]]
    else [c]
  }

  function Escape(s: string): string
  {
    if |s| == 0 then "" else EscapeChar(s[0]) + Escape(s[1..])
  }

  function Quote(s: string): string
  {
    "\"" + Escape(s) + "\""
  }

  function Member(p: (string, string)): string
  {
    Quote(p.0) + ":" + Quote(p.1)
  }

  function Members(q: Query): string
  {
    if |q| == 0 then ""
    else if |q| == 1 then Member(q[0])
    else Member(q[0]) + "," + Members(q[1..])
  }

  /** `JSON.stringify` of the query object. */
  function Stringify(q: Query): string
  {
    "{" + Members(q) + "}"
  }

  // -----------------------------------------------------------------------
  // Reading the text back

  function HexValue(c: char): Option<nat>
  {
    if '0' <= c <= '9' then Some(c as int - '0' as int)
    else if 'a' <= c <= 'f' then Some(c as int - 'a' as int + 10)
    else if 'A' <= c <= 'F' then Some(c as int - 'A' as int + 10)
    else None
  }

  function Hex4(s: string): (r: Option<nat>)
    requires |s| == 4
    ensures r.Some? ==> r.value < 0x10000
  {
    match (HexValue(s[0]), HexValue(s[1]), HexValue(s[2]), HexValue(s[3]))
    case (Some(a), Some(b), Some(c), Some(d)) =>
      if a < 16 && b < 16 && c < 16 && d < 16 then Some(((a * 16 + b) * 16 + c) * 16 + d) else None
    case _ => None
  }

  /** One character of a string literal's body: the character and what follows it. */
  function ParseChar(s: string): (r: Option<(char, string)>)
    requires |s| > 0
    ensures r.Some? ==> |r.value.1| < |s|
  {
    if s[0] != '\\' then Some((s[0], s[1..]))
    else if |s| < 2 then None
    else if s[1] == 'b' then Some(('\U{8}', s[2..]))
    else if s[1] == 't' then Some(('\t', s[2..]))
    else if s[1] == 'n' then Some(('\n', s[2..]))
    else if s[1] == 'f' then Some(('\U{C}', s[2..]))
    else if s[1] == 'r' then Some(('\r', s[2..]))
    else if s[1] == '"' then Some(('"', s[2..]))
    else if s[1] == '\\' then Some(('\\', s[2..]))
    else if s[1] == '/' then Some(('/', s[2..]))
    else if s[1] == 'u' && |s| >= 6 then
      match Hex4(s[2..6])
      case Some(n) => if n < 0xD800 || 0xDFFF < n then Some((n as char, s[6..])) else None
      case None => None
    else None
  }

  /** A string literal's body up to its closing quote, and the text after the quote. */
  function ParseBody(s: string): (r: Option<(string, string)>)
    ensures r.Some? ==> |r.value.1| < |s|
    decreases |s|
  {
    if |s| == 0 then None
    else if s[0] == '"' then Some(("", s[1..]))
    else
      match ParseChar(s)
      case None => None
      case Some((c, rest)) =>
        match ParseBody(rest)
        case None => None
        case Some((body, after)) => Some(([c] + body, after))
  }

  function ParseString(s: string): (r: Option<(string, string)>)
    ensures r.Some? ==> |r.value.1| < |s|
  {
    if |s| == 0 || s[0] != '"' then None else ParseBody(s[1..])
  }

  /** The members of an object after its "{", up to the closing "}" that ends the text. */
  function ParseMembers(s: string): Option<Query>
    decreases |s|
  {
    match ParseString(s)
    case None => None
    case Some((key, r1)) =>
      if |r1| == 0 || r1[0] != ':' then None
      else
        match ParseString(r1[1..])
        case None => None
        case Some((value, r2)) =>
          if r2 == "}" then Some([(key, value)])
          else if |r2| > 0 && r2[0] == ',' then
            match ParseMembers(r2[1..])
            case None => None
            case Some(rest) => Some([(key, value)] + rest)
          else None
  }

  /** Reads an object of string-valued properties, as `Stringify` writes it. */
  function Parse(s: string): Option<Query>
  {
    if s == "{}" then Some([])
    else if |s| > 0 && s[0] == '{' then ParseMembers(s[1..])
    else None
  }

  // -----------------------------------------------------------------------
  // Round trip

  lemma HexDigitValue(d: nat)
    requires d < 16
    ensures HexValue(HexDigits[d]) == Some(d)
  {
  }

  lemma ConsParts(c: char, x: string)
    ensures |[c] + x| > 0 && ([c] + x)[0] == c && ([c] + x)[1..] == x
  {
  }

  /** A control character below 0x20 with no short escape reads back from its `\u00XX` form. */
  lemma ParseUnicodeEscape(c: char, rest: string)
    requires (c as int) < 0x20
    ensures ParseChar("\\u00" + [HexDigits[(c as int) / 16], HexDigits[(c as int) % 16]] + rest) == Some((c, rest))
  {
    var hi, lo := (c as int) / 16, (c as int) % 16;
    var s := "\\u00" + [HexDigits[hi], HexDigits[lo]] + rest;
    assert s[0] == '\\' && s[1] == 'u' && |s| >= 6;
    assert s[2..6] == "00" + [HexDigits[hi], HexDigits[lo]];
    HexDigitValue(hi);
    HexDigitValue(lo);
    assert Hex4(s[2..6]) == Some(hi * 16 + lo);
    assert s[6..] == rest;
  }

  /** Each escape reads back as the character it came from, whatever follows it. */
  lemma ParseEscapedChar(c: char, rest: string)
    ensures |EscapeChar(c)| > 0 && EscapeChar(c)[0] != '"'
    ensures ParseChar(EscapeChar(c) + rest) == Some((c, rest))
  {
    var e := EscapeChar(c);
    if c == '\U{8}' || c == '\t' || c == '\n' || c == '\U{C}' || c == '\r' || c == '"' || c == '\\' {
      assert (e + rest)[2..] == rest;
    } else if (c as int) < 0x20 {
      ParseUnicodeEscape(c, rest);
    } else {
      ConsParts(c, rest);
    }
  }

  lemma {:induction false} ParseEscaped(s: string, rest: string)
    ensures ParseBody(Escape(s) + "\"" + rest) == Some((s, rest))
    decreases |s|
  {
    if |s| == 0 {
      assert Escape(s) + "\"" + rest == "\"" + rest;
      assert ("\"" + rest)[1..] == rest;
    } else {
      var tail := Escape(s[1..]) + "\"" + rest;
      assert Escape(s) + "\"" + rest == EscapeChar(s[0]) + tail;
      ParseEscapedChar(s[0], tail);
      ParseEscaped(s[1..], rest);
      assert [s[0]] + s[1..] == s;
    }
  }

  lemma ParseQuoted(s: string, rest: string)
    ensures ParseString(Quote(s) + rest) == Some((s, rest))
  {
    var x := Escape(s) + "\"" + rest;
    assert Quote(s) + rest == ['"'] + x;
    ConsParts('"', x);
    ParseEscaped(s, rest);
  }


  /** One member as `Stringify` writes it reads back, whatever follows it. */
  lemma ParseOneMember(k: string, v: string, after: string)
    ensures ParseMembers(Quote(k) + (":" + (Quote(v) + after))) ==
      if after == "}" then Some([(k, v)])
      else if |after| > 0 && after[0] == ',' then
        match ParseMembers(after[1..])
        case None => None
        case Some(rest) => Some([(k, v)] + rest)
      else None
  {
    var r1 := ":" + (Quote(v) + after);
    ParseQuoted(k, r1);
    assert r1[1..] == Quote(v) + after;
    ParseQuoted(v, after);
  }

  /** What follows the first member of `q` in its written form. */
  function AfterFirst(q: Query): string
    requires |q| > 0
  {
    if |q| == 1 then "}" else "," + (Members(q[1..]) + "}")
  }

  lemma Regroup3(a: string, b: string, c: string)
    ensures a + b + c == a + (b + c)
  {
  }

  lemma Regroup4(a: string, b: string, c: string, d: string)
    ensures a + b + c + d == a + (b + (c + d))
  {
  }

  lemma MembersClose(q: Query)
    requires |q| > 0
    ensures Members(q) + "}" == Quote(q[0].0) + (":" + (Quote(q[0].1) + AfterFirst(q)))
  {
    var qk, qv := Quote(q[0].0), Quote(q[0].1);
    var m := qk + ":" + qv;
    assert Member(q[0]) == m;
    if |q| == 1 {
      Regroup4(qk, ":", qv, "}");
    } else {
      var r := Members(q[1..]);
      assert Members(q) == m + "," + r;
      Regroup3(m + ",", r, "}");
      Regroup3(m, ",", r + "}");
      Regroup4(qk, ":", qv, "," + (r + "}"));
    }
  }

  lemma {:induction false} ParseWrittenMembers(q: Query)
    requires |q| > 0
    ensures ParseMembers(Members(q) + "}") == Some(q)
    decreases |q|
  {
    var (k, v) := q[0];
    var after := AfterFirst(q);
    MembersClose(q);
    ParseOneMember(k, v, after);
    if |q| == 1 {
      assert q == [(k, v)];
    } else {
      assert after[1..] == Members(q[1..]) + "}";
      ParseWrittenMembers(q[1..]);
      assert [(k, v)] + q[1..] == q;
    }
  }

  lemma QuoteOpens(s: string)
    ensures |Quote(s)| > 0 && Quote(s)[0] == '"'
  {
  }

  lemma MemberOpens(p: (string, string))
    ensures |Member(p)| > 0 && Member(p)[0] == '"'
  {
    QuoteOpens(p.0);
    assert Member(p) == Quote(p.0) + (":" + Quote(p.1));
  }

  lemma HeadOfAppend(a: string, b: string)
    requires |a| > 0
    ensures |a + b| > 0 && (a + b)[0] == a[0]
  {
  }

  lemma MembersOpen(q: Query)
    requires |q| > 0
    ensures |Members(q)| > 0 && Members(q)[0] == '"'
  {
    var m := Member(q[0]);
    MemberOpens(q[0]);
    if |q| > 1 {
      HeadOfAppend(m, ",");
      HeadOfAppend(m + ",", Members(q[1..]));
    }
  }

  lemma Braced(m: string)
    requires |m| > 0 && m[0] == '"'
    ensures var s := "{" + m + "}";
      |s| > 2 && s[0] == '{' && s[1] == '"' && s[1..] == m + "}"
  {
  }

  /** A non-empty query is written as "{", a member list starting with a quote, and "}". */
  lemma StringifyShape(q: Query)
    requires |q| > 0
    ensures var s := Stringify(q);
      |s| > 2 && s[0] == '{' && s[1] == '"' && s[1..] == Members(q) + "}"
  {
    MembersOpen(q);
    Braced(Members(q));
  }

  /** Reading an object that is not empty goes straight to its members. */
  lemma ParseObject(s: string)
    requires |s| > 2 && s[0] == '{' && s[1] == '"'
    ensures Parse(s) == ParseMembers(s[1..])
  {
    assert s != "{}" by { assert s[1] != "{}"[1]; }
  }

  /** The key is a faithful encoding: parsing it gives back the query. */
  lemma RoundTrip(q: Query)
    ensures Parse(Stringify(q)) == Some(q)
  {
    if |q| == 0 {
      assert Stringify(q) == "{}";
    } else {
      StringifyShape(q);
      ParseObject(Stringify(q));
      ParseWrittenMembers(q);
    }
  }

  /** Different queries never share a cache key. */
  lemma KeyDeterminesQuery(q1: Query, q2: Query)
    ensures Stringify(q1) == Stringify(q2) <==> q1 == q2
  {
    RoundTrip(q1);
    RoundTrip(q2);
  }

  /** The key depends on the order of the parameters: the same two in the other order give another key. */
  lemma KeyDependsOnOrder(a: (string, string), b: (string, string))
    requires a != b
    ensures Stringify([a, b]) != Stringify([b, a])
  {
    KeyDeterminesQuery([a, b], [b, a]);
  }
}
