/**
 * `JSON.stringify` and `JSON.parse` for the two shapes the project stores in text
 * columns: arrays of strings (images, tags, techStack, ...) and arrays of
 * `{ label, value }` metric objects. The printer follows the string quoting of
 * ECMA-262 (QuoteJSONString); the parser accepts RFC 8259 whitespace and escapes.
 */
module Json {
  import opened Wrappers

  /** A `{ label, value }` project metric (`label` is a Dafny keyword, hence `caption`). */
  datatype Metric = Metric(caption: string, value: string)

  function HexDigit(d: nat): (c: char)
    requires d < 16
  {
    if d < 10 then ('0' as int + d) as char else ('a' as int + d - 10) as char
  }

  function HexValue(c: char): (r: Option<nat>)
    ensures r.Some? ==> r.value < 16
  {
    if '0' <= c <= '9' then Some(c as int - '0' as int)
    else if 'a' <= c <= 'f' then Some(c as int - 'a' as int + 10)
    else if 'A' <= c <= 'F' then Some(c as int - 'A' as int + 10)
    else None
  }

  /** How `JSON.stringify` writes one character inside a string literal. */
  function Escape(c: char): string {
    if c == '"' then ['\\', '"']
    else if c == '\\' then ['\\', '\\']
    else if c as int == 8 then ['\\', 'b']
    else if c == '\t' then ['\\', 't']
    else if c == '\n' then ['\\', 'n']
    else if c as int == 12 then ['\\', 'f']
    else if c == '\r' then ['\\', 'r']
    else if (c as int) < 32 then ['\\', 'u', '0', '0', HexDigit(c as int / 16), HexDigit(c as int % 16)]
    else [c]
  }

  function EscapeAll(s: string): string {
    if s == [] then [] else Escape(s[0]) + EscapeAll(s[1..])
  }

  /** `JSON.stringify(s)` for a string. */
  function Quote(s: string): string {
    ['"'] + EscapeAll(s) + ['"']
  }

  /** `JSON.stringify(ss)` for an array of strings: no spaces, commas between items. */
  function StringifyStrings(ss: seq<string>): string {
    "[" + QuotedItems(ss) + "]"
  }

  function QuotedItems(ss: seq<string>): string {
    if ss == [] then ""
    else if |ss| == 1 then Quote(ss[0])
    else Quote(ss[0]) + "," + QuotedItems(ss[1..])
  }

  /** One `"key":"text"` member of a printed object. */
  function Member(key: string, v: string): string {
    Quote(key) + ":" + Quote(v)
  }

  /** `JSON.stringify(m)` for a metric: keys in declaration order. */
  function StringifyMetric(m: Metric): string {
    PairObject("label", m.caption, "value", m.value)
  }

  /** A printed object of two string members. */
  function PairObject(k1: string, v1: string, k2: string, v2: string): string {
    "{" + Member(k1, v1) + "," + Member(k2, v2) + "}"
  }

  function StringifyMetrics(ms: seq<Metric>): string {
    "[" + MetricItems(ms) + "]"
  }

  function MetricItems(ms: seq<Metric>): string {
    if ms == [] then ""
    else if |ms| == 1 then StringifyMetric(ms[0])
    else StringifyMetric(ms[0]) + "," + MetricItems(ms[1..])
  }

  // ---------------------------------------------------------------- parsing

  predicate IsWhitespace(c: char) {
    c == ' ' || c == '\t' || c == '\n' || c == '\r'
  }

  function SkipWs(t: string): (r: string)
    ensures |r| <= |t|
  {
    if t != [] && IsWhitespace(t[0]) then SkipWs(t[1..]) else t
  }

  /** Skips whitespace, then consumes `c`; the text after it. */
  function Expect(t: string, c: char): (r: Option<string>)
    ensures r.Some? ==> |r.value| < |t|
  {
    var u := SkipWs(t);
    if u != [] && u[0] == c then Some(u[1..]) else None
  }

  function Prepend(c: char, r: Option<(string, string)>): Option<(string, string)> {
    match r
    case None => None
    case Some((s, rest)) => Some(([c] + s, rest))
  }

  /** The character an escape sequence stands for; `t` starts just after the backslash. */
  function Unescape(t: string): (r: Option<(char, string)>)
    ensures r.Some? ==> |r.value.1| < |t|
  {
    if t == [] then None
    else if t[0] == '"' || t[0] == '\\' || t[0] == '/' then Some((t[0], t[1..]))
    else if t[0] == 'b' then Some((8 as char, t[1..]))
    else if t[0] == 't' then Some(('\t', t[1..]))
    else if t[0] == 'n' then Some(('\n', t[1..]))
    else if t[0] == 'f' then Some((12 as char, t[1..]))
    else if t[0] == 'r' then Some(('\r', t[1..]))
    else if t[0] == 'u' && |t| >= 5 then
      match (HexValue(t[1]), HexValue(t[2]), HexValue(t[3]), HexValue(t[4]))
      case (Some(a), Some(b), Some(c), Some(d)) =>
        var v := ((a * 16 + b) * 16 + c) * 16 + d;
        if 0xD800 <= v <= 0xDFFF then None else Some((v as char, t[5..]))
      case _ => None
    else None
  }

  /** The characters of a string literal up to its closing quote, and the text after it. */
  function ParseChars(t: string): (r: Option<(string, string)>)
    ensures r.Some? ==> |r.value.1| < |t|
    decreases |t|
  {
    if t == [] then None
    else if t[0] == '"' then Some(([], t[1..]))
    else if t[0] == '\\' then
      match Unescape(t[1..])
      case None => None
      case Some((c, rest)) => Prepend(c, ParseChars(rest))
    else if (t[0] as int) < 32 then None
    else Prepend(t[0], ParseChars(t[1..]))
  }

  function ParseString(t: string): (r: Option<(string, string)>)
    ensures r.Some? ==> |r.value.1| < |t|
  {
    var body :- Expect(t, '"');
    ParseChars(body)
  }

  function ParseStringItems(t: string): (r: Option<(seq<string>, string)>)
    ensures r.Some? ==> |r.value.1| < |t|
    decreases |t|
  {
    var (s, rest) :- ParseString(t);
    var u := SkipWs(rest);
    if u != [] && u[0] == ']' then Some(([s], u[1..]))
    else if u != [] && u[0] == ',' then
      var (more, after) :- ParseStringItems(u[1..]);
      Some(([s] + more, after))
    else None
  }

  /** `JSON.parse(t)` where an array of strings is expected. */
  function ParseStringArray(t: string): Option<seq<string>> {
    var body :- Expect(t, '[');
    var u := SkipWs(body);
    if u != [] && u[0] == ']' then
      if SkipWs(u[1..]) == [] then Some([]) else None
    else
      var (items, rest) :- ParseStringItems(u);
      if SkipWs(rest) == [] then Some(items) else None
  }

  /** A member `"key": "text"` of an object whose key must be `key`; the text and the rest. */
  function ParseMember(t: string, key: string): (r: Option<(string, string)>)
    ensures r.Some? ==> |r.value.1| < |t|
  {
    var (k, a) :- ParseString(t);
    var b :- Expect(a, ':');
    var (v, c) :- ParseString(b);
    if k == key then Some((v, c)) else None
  }

  function ParseMetric(t: string): (r: Option<(Metric, string)>)
    ensures r.Some? ==> |r.value.1| < |t|
  {
    var a :- Expect(t, '{');
    var (caption, b) :- ParseMember(a, "label");
    var c :- Expect(b, ',');
    var (value, d) :- ParseMember(c, "value");
    var e :- Expect(d, '}');
    Some((Metric(caption, value), e))
  }

  function ParseMetricItems(t: string): (r: Option<(seq<Metric>, string)>)
    ensures r.Some? ==> |r.value.1| < |t|
    decreases |t|
  {
    var (m, rest) :- ParseMetric(t);
    var u := SkipWs(rest);
    if u != [] && u[0] == ']' then Some(([m], u[1..]))
    else if u != [] && u[0] == ',' then
      var (more, after) :- ParseMetricItems(u[1..]);
      Some(([m] + more, after))
    else None
  }

  /** `JSON.parse(t)` where an array of metric objects is expected. */
  function ParseMetricArray(t: string): Option<seq<Metric>> {
    var body :- Expect(t, '[');
    var u := SkipWs(body);
    if u != [] && u[0] == ']' then
      if SkipWs(u[1..]) == [] then Some([]) else None
    else
      var (items, rest) :- ParseMetricItems(u);
      if SkipWs(rest) == [] then Some(items) else None
  }

  // ---------------------------------------------------------------- round trips

  lemma HexRoundTrip(d: nat)
    requires d < 16
    ensures HexValue(HexDigit(d)) == Some(d)
  {
  }

  lemma SkipWsStops(t: string)
    requires t != [] && !IsWhitespace(t[0])
    ensures SkipWs(t) == t
  {
  }

  lemma ExpectRoundTrip(c: char, rest: string)
    requires !IsWhitespace(c)
    ensures Expect([c] + rest, c) == Some(rest)
  {
    SkipWsStops([c] + rest);
    assert ([c] + rest)[1..] == rest;
  }

  lemma UnicodeEscapeRoundTrip(c: char, t: string)
    requires (c as int) < 32
    ensures Unescape(['u', '0', '0', HexDigit(c as int / 16), HexDigit(c as int % 16)] + t) == Some((c, t))
  {
    var hi, lo := c as int / 16, c as int % 16;
    var u := ['u', '0', '0', HexDigit(hi), HexDigit(lo)] + t;
    HexRoundTrip(0);
    HexRoundTrip(hi);
    HexRoundTrip(lo);
    assert u[1] == '0' && u[2] == '0' && u[3] == HexDigit(hi) && u[4] == HexDigit(lo);
    assert ((0 * 16 + 0) * 16 + hi) * 16 + lo == c as int;
    assert u[5..] == t;
  }

  /** Parsing one printed character gives the character back, followed by the rest. */
  lemma EscapeRoundTrip(c: char, t: string)
    ensures ParseChars(Escape(c) + t) == Prepend(c, ParseChars(t))
  {
    var e := Escape(c);
    var u := e + t;
    if |e| == 6 {
      assert e == ['\\', 'u', '0', '0', HexDigit(c as int / 16), HexDigit(c as int % 16)];
      assert u[1..] == ['u', '0', '0', HexDigit(c as int / 16), HexDigit(c as int % 16)] + t;
      UnicodeEscapeRoundTrip(c, t);
    } else if |e| == 2 {
      assert u[1..] == [e[1]] + t;
      assert ([e[1]] + t)[1..] == t;
    } else {
      assert u[1..] == t;
    }
  }

  lemma {:induction false} EscapeAllRoundTrip(s: string, rest: string)
    ensures ParseChars(EscapeAll(s) + ['"'] + rest) == Some((s, rest))
  {
    if s == [] {
      assert EscapeAll(s) + ['"'] + rest == ['"'] + rest;
    } else {
      assert EscapeAll(s) + ['"'] + rest == Escape(s[0]) + (EscapeAll(s[1..]) + ['"'] + rest);
      EscapeAllRoundTrip(s[1..], rest);
      EscapeRoundTrip(s[0], EscapeAll(s[1..]) + ['"'] + rest);
      assert [s[0]] + s[1..] == s;
    }
  }

  /** `JSON.parse(JSON.stringify(s)) === s`, with any text following the literal. */
  lemma QuoteRoundTrip(s: string, rest: string)
    ensures ParseString(Quote(s) + rest) == Some((s, rest))
  {
    var t := Quote(s) + rest;
    assert t == ['"'] + (EscapeAll(s) + ['"'] + rest);
    ExpectRoundTrip('"', EscapeAll(s) + ['"'] + rest);
    EscapeAllRoundTrip(s, rest);
  }

  lemma {:induction false} StringItemsRoundTrip(ss: seq<string>, rest: string)
    requires ss != []
    ensures ParseStringItems(QuotedItems(ss) + "]" + rest) == Some((ss, rest))
    decreases |ss|
  {
    if |ss| == 1 {
      assert QuotedItems(ss) + "]" + rest == Quote(ss[0]) + ("]" + rest);
      QuoteRoundTrip(ss[0], "]" + rest);
      SkipWsStops("]" + rest);
      assert ("]" + rest)[1..] == rest;
      assert ss == [ss[0]];
    } else {
      var tail := QuotedItems(ss[1..]) + "]" + rest;
      assert QuotedItems(ss) + "]" + rest == Quote(ss[0]) + ("," + tail);
      QuoteRoundTrip(ss[0], "," + tail);
      SkipWsStops("," + tail);
      StringItemsRoundTrip(ss[1..], rest);
      assert ("," + tail)[1..] == tail;
      assert [ss[0]] + ss[1..] == ss;
    }
  }

  /** Parsing a printed array of strings gives the array back. */
  lemma StringArrayRoundTrip(ss: seq<string>)
    ensures ParseStringArray(StringifyStrings(ss)) == Some(ss)
  {
    var t := StringifyStrings(ss);
    var body := QuotedItems(ss) + "]";
    assert t == "[" + body;
    ExpectRoundTrip('[', body);
    if ss == [] {
      assert body == "]";
      SkipWsStops(body);
    } else {
      assert Quote(ss[0])[0] == '"';
      assert body[0] == '"';
      SkipWsStops(body);
      assert body == QuotedItems(ss) + "]" + "";
      StringItemsRoundTrip(ss, "");
    }
  }

  lemma MemberRoundTrip(key: string, v: string, rest: string)
    ensures ParseMember(Member(key, v) + rest, key) == Some((v, rest))
  {
    var afterKey := ":" + Quote(v) + rest;
    assert Member(key, v) + rest == Quote(key) + afterKey;
    QuoteRoundTrip(key, afterKey);
    assert afterKey == [':'] + (Quote(v) + rest);
    ExpectRoundTrip(':', Quote(v) + rest);
    QuoteRoundTrip(v, rest);
  }

  lemma ParseMetricSteps(t: string, a: string, caption: string, b: string, c: string, value: string, d: string, e: string)
    requires Expect(t, '{') == Some(a)
    requires ParseMember(a, "label") == Some((caption, b))
    requires Expect(b, ',') == Some(c)
    requires ParseMember(c, "value") == Some((value, d))
    requires Expect(d, '}') == Some(e)
    ensures ParseMetric(t) == Some((Metric(caption, value), e))
  {
  }

  lemma PairObjectLayout(k1: string, v1: string, k2: string, v2: string, rest: string)
    ensures PairObject(k1, v1, k2, v2) + rest == ['{'] + (Member(k1, v1) + ("," + (Member(k2, v2) + ("}" + rest))))
  {
  }

  lemma MetricRoundTrip(m: Metric, rest: string)
    ensures ParseMetric(StringifyMetric(m) + rest) == Some((m, rest))
  {
    var close := "}" + rest;
    var second := Member("value", m.value) + close;
    var first := Member("label", m.caption) + ("," + second);
    var t := StringifyMetric(m) + rest;
    PairObjectLayout("label", m.caption, "value", m.value, rest);
    ExpectRoundTrip('{', first);
    assert Expect(t, '{') == Some(first);
    MemberRoundTrip("label", m.caption, "," + second);
    ExpectRoundTrip(',', second);
    assert Expect("," + second, ',') == Some(second);
    MemberRoundTrip("value", m.value, close);
    ExpectRoundTrip('}', rest);
    ParseMetricSteps(t, first, m.caption, "," + second, second, m.value, close, rest);
  }

  lemma ParseMetricItemsLast(t: string, m: Metric, rest: string)
    requires ParseMetric(t) == Some((m, "]" + rest))
    ensures ParseMetricItems(t) == Some(([m], rest))
  {
    SkipWsStops("]" + rest);
    assert ("]" + rest)[1..] == rest;
  }

  lemma ParseMetricItemsCons(t: string, m: Metric, tail: string, more: seq<Metric>, rest: string)
    requires ParseMetric(t) == Some((m, "," + tail))
    requires ParseMetricItems(tail) == Some((more, rest))
    ensures ParseMetricItems(t) == Some(([m] + more, rest))
  {
    SkipWsStops("," + tail);
    assert ("," + tail)[1..] == tail;
  }

  lemma SeparatedLayout(h: string, tl: string, rest: string)
    ensures (h + "," + tl) + "]" + rest == h + ("," + (tl + "]" + rest))
  {
  }

  lemma MetricItemsUnfold(ms: seq<Metric>, rest: string)
    requires |ms| >= 2
    ensures MetricItems(ms) + "]" + rest == StringifyMetric(ms[0]) + ("," + (MetricItems(ms[1..]) + "]" + rest))
  {
    assert MetricItems(ms) == StringifyMetric(ms[0]) + "," + MetricItems(ms[1..]);
    SeparatedLayout(StringifyMetric(ms[0]), MetricItems(ms[1..]), rest);
  }

  lemma ConcatAssoc(a: string, b: string, c: string)
    ensures a + b + c == a + (b + c)
  {
  }

  lemma MetricItemsSingle(ms: seq<Metric>, rest: string)
    requires |ms| == 1
    ensures MetricItems(ms) + "]" + rest == StringifyMetric(ms[0]) + ("]" + rest)
  {
    assert MetricItems(ms) == StringifyMetric(ms[0]);
    ConcatAssoc(StringifyMetric(ms[0]), "]", rest);
  }

  lemma {:induction false} MetricItemsRoundTrip(ms: seq<Metric>, rest: string)
    requires ms != []
    ensures ParseMetricItems(MetricItems(ms) + "]" + rest) == Some((ms, rest))
    decreases |ms|
  {
    if |ms| == 1 {
      MetricItemsSingle(ms, rest);
      MetricRoundTrip(ms[0], "]" + rest);
      ParseMetricItemsLast(MetricItems(ms) + "]" + rest, ms[0], rest);
      assert ms == [ms[0]];
    } else {
      var tail := MetricItems(ms[1..]) + "]" + rest;
      MetricItemsUnfold(ms, rest);
      MetricRoundTrip(ms[0], "," + tail);
      MetricItemsRoundTrip(ms[1..], rest);
      ParseMetricItemsCons(MetricItems(ms) + "]" + rest, ms[0], tail, ms[1..], rest);
      assert [ms[0]] + ms[1..] == ms;
    }
  }

  /** Parsing a printed array of metrics gives the array back. */
  lemma MetricArrayRoundTrip(ms: seq<Metric>)
    ensures ParseMetricArray(StringifyMetrics(ms)) == Some(ms)
  {
    var t := StringifyMetrics(ms);
    var body := MetricItems(ms) + "]";
    assert t == "[" + body;
    ExpectRoundTrip('[', body);
    if ms == [] {
      assert body == "]";
      SkipWsStops(body);
    } else {
      assert StringifyMetric(ms[0])[0] == '{';
      assert body[0] == '{';
      SkipWsStops(body);
      assert body == MetricItems(ms) + "]" + "";
      MetricItemsRoundTrip(ms, "");
    }
  }
}
