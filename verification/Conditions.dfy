/**
 The condition of a seeded routing rule: a configuration match (a list of API
 keys and a model prefix) is printed as JavaScript text, stored, and read back
 by the rule engine on every request.

 The printer follows buildConditionJS; its two quoting functions follow Go's
 encoding/json (for the key list) and strconv.Quote (for the prefix), on
 seven-bit text.  The reader is a recursive-descent parser for the expressions
 the printer can emit, with the string literals of section 12.9.4 of ECMA-262
 (2023).
 */
module Conditions {
  import opened Base

  datatype Match = Match(apiKeys: seq<string>, modelPrefix: string)

  datatype Ctx = Ctx(apiKey: string, model: string, path: string)

  /** What the configuration says: each part that is given has to hold. */
  predicate Matches(m: Match, ctx: Ctx) {
    && (m.apiKeys == [] || ctx.apiKey in m.apiKeys)
    && m.modelPrefix <= ctx.model
  }

  // ---- Characters ----

  const BEL: char := 7 as char
  const BS: char := 8 as char
  const HT: char := 9 as char
  const LF: char := 10 as char
  const VT: char := 11 as char
  const FF: char := 12 as char
  const CR: char := 13 as char
  const DEL: char := 127 as char

  predicate Ascii(s: string) {
    forall i :: 0 <= i < |s| ==> s[i] as int < 128
  }

  function HexDigit(n: nat): (c: char)
    requires n < 16
  {
    if n < 10 then ('0' as int + n) as char else ('a' as int + n - 10) as char
  }

  function HexValue(c: char): Option<nat> {
    if '0' <= c <= '9' then Some(c as int - '0' as int)
    else if 'a' <= c <= 'f' then Some(c as int - 'a' as int + 10)
    else if 'A' <= c <= 'F' then Some(c as int - 'A' as int + 10)
    else None
  }

  // ---- The printer ----

  /** One character of a JSON string, with the HTML-safe escapes json.Marshal adds. */
  function JsonChar(c: char): string
    requires c as int < 128
  {
    if c == '"' || c == '\\' then ['\\', c]
    else if c == BS then ['\\', 'b']
    else if c == FF then ['\\', 'f']
    else if c == LF then ['\\', 'n']
    else if c == CR then ['\\', 'r']
    else if c == HT then ['\\', 't']
    else if c < ' ' || c == '<' || c == '>' || c == '&' then
      ['\\', 'u', '0', '0', HexDigit(c as int / 16), HexDigit(c as int % 16)]
    else [c]
  }

  /** One character of a Go-quoted string. */
  function GoChar(c: char): string
    requires c as int < 128
  {
    if c == '"' || c == '\\' then ['\\', c]
    else if c == BEL then ['\\', 'a']
    else if c == BS then ['\\', 'b']
    else if c == FF then ['\\', 'f']
    else if c == LF then ['\\', 'n']
    else if c == CR then ['\\', 'r']
    else if c == HT then ['\\', 't']
    else if c == VT then ['\\', 'v']
    else if c < ' ' || c == DEL then
      ['\\', 'x', HexDigit(c as int / 16), HexDigit(c as int % 16)]
    else [c]
  }

  function JsonChars(s: string): string
    requires Ascii(s)
  {
    if s == "" then "" else JsonChar(s[0]) + JsonChars(s[1..])
  }

  function GoChars(s: string): string
    requires Ascii(s)
  {
    if s == "" then "" else GoChar(s[0]) + GoChars(s[1..])
  }

  function JsonString(s: string): string
    requires Ascii(s)
  {
    ['"'] + JsonChars(s) + ['"']
  }

  function GoString(s: string): string
    requires Ascii(s)
  {
    ['"'] + GoChars(s) + ['"']
  }

  /** The elements of a JSON array after its opening bracket, the closing one included. */
  function JsonTail(keys: seq<string>): string
    requires forall k :: k in keys ==> Ascii(k)
  {
    if keys == [] then "]"
    else JsonString(keys[0]) + (if |keys| == 1 then "]" else "," + JsonTail(keys[1..]))
  }

  function JsonArray(keys: seq<string>): string
    requires forall k :: k in keys ==> Ascii(k)
  {
    "[" + JsonTail(keys)
  }

  const INCLUDES := ".includes(ctx.api_key)"
  const STARTS_WITH := "ctx.model.startsWith("

  predicate SevenBit(m: Match) {
    (forall k :: k in m.apiKeys ==> Ascii(k)) && Ascii(m.modelPrefix)
  }

  function KeysText(keys: seq<string>): string
    requires forall k :: k in keys ==> Ascii(k)
  {
    JsonArray(keys) + INCLUDES
  }

  function PrefixText(prefix: string): string
    requires Ascii(prefix)
  {
    STARTS_WITH + GoString(prefix) + ")"
  }

  function ConditionText(m: Match): string
    requires SevenBit(m)
  {
    if m.apiKeys == [] && m.modelPrefix == "" then "true"
    else if m.modelPrefix == "" then KeysText(m.apiKeys)
    else if m.apiKeys == [] then PrefixText(m.modelPrefix)
    else "(" + KeysText(m.apiKeys) + ") && (" + PrefixText(m.modelPrefix) + ")"
  }

  method BuildConditionJS(m: Match) returns (text: string)
    requires SevenBit(m)
    ensures text == ConditionText(m)
  {
    var parts: seq<string> := [];
    if |m.apiKeys| > 0 {
      parts := parts + [JsonArray(m.apiKeys) + INCLUDES];
    }
    if m.modelPrefix != "" {
      parts := parts + [STARTS_WITH + GoString(m.modelPrefix) + ")"];
    }
    if |parts| == 0 {
      return "true";
    }
    if |parts| == 1 {
      return parts[0];
    }
    return "(" + parts[0] + ") && (" + parts[1] + ")";
  }

  // ---- The reader ----

  datatype Expr =
    | True
    | KeyIn(keys: seq<string>)
    | ModelStarts(prefix: string)
    | And(left: Expr, right: Expr)

  predicate Eval(e: Expr, ctx: Ctx) {
    match e
    case True => true
    case KeyIn(keys) => ctx.apiKey in keys
    case ModelStarts(prefix) => prefix <= ctx.model
    case And(left, right) => Eval(left, ctx) && Eval(right, ctx)
  }

  datatype Parsed<T> = Fail | Done(value: T, rest: string)

  /** `lit` at the head of `t`. */
  function Eat(lit: string, t: string): (r: Parsed<()>)
    ensures r.Done? ==> t == lit + r.rest
  {
    if lit <= t then Done((), t[|lit|..]) else Fail
  }

  /** What follows a backslash in a string literal. */
  function ParseEscape(t: string): (r: Parsed<char>)
    ensures r.Done? ==> |r.rest| < |t|
  {
    if t == "" then Fail
    else if t[0] == 'b' then Done(BS, t[1..])
    else if t[0] == 't' then Done(HT, t[1..])
    else if t[0] == 'n' then Done(LF, t[1..])
    else if t[0] == 'v' then Done(VT, t[1..])
    else if t[0] == 'f' then Done(FF, t[1..])
    else if t[0] == 'r' then Done(CR, t[1..])
    else if t[0] == 'x' then ParseHex(t[1..], 2, 0)
    else if t[0] == 'u' then ParseHex(t[1..], 4, 0)
    else if '0' <= t[0] <= '9' || t[0] == LF || t[0] == CR then Fail
    else Done(t[0], t[1..])
  }

  /** Exactly `n` hexadecimal digits, as a character below the surrogate range. */
  function ParseHex(t: string, n: nat, acc: nat): (r: Parsed<char>)
    ensures r.Done? ==> |r.rest| <= |t|
    decreases n
  {
    if n == 0 then (if acc < 0xD800 then Done(acc as char, t) else Fail)
    else if t == "" then Fail
    else
      match HexValue(t[0])
      case None => Fail
      case Some(d) => ParseHex(t[1..], n - 1, acc * 16 + d)
  }

  /** The characters of a string literal up to and including the closing quote. */
  function ParseChars(t: string): (r: Parsed<string>)
    ensures r.Done? ==> |r.rest| < |t|
    decreases |t|
  {
    if t == "" || t[0] == LF || t[0] == CR then Fail
    else if t[0] == '"' then Done("", t[1..])
    else
      var first := if t[0] == '\\' then ParseEscape(t[1..]) else Done(t[0], t[1..]);
      if first.Fail? then Fail
      else
        var others := ParseChars(first.rest);
        if others.Fail? then Fail else Done([first.value] + others.value, others.rest)
  }

  function ParseString(t: string): (r: Parsed<string>)
    ensures r.Done? ==> |r.rest| < |t|
  {
    if t != "" && t[0] == '"' then ParseChars(t[1..]) else Fail
  }

  /** The elements of an array literal, the closing bracket included. */
  function ParseElements(t: string): (r: Parsed<seq<string>>)
    ensures r.Done? ==> |r.rest| < |t|
    decreases |t|
  {
    var first := ParseString(t);
    if first.Fail? || first.rest == "" then Fail
    else if first.rest[0] == ']' then Done([first.value], first.rest[1..])
    else if first.rest[0] == ',' then
      var others := ParseElements(first.rest[1..]);
      if others.Fail? then Fail else Done([first.value] + others.value, others.rest)
    else Fail
  }

  function ParseArray(t: string): (r: Parsed<seq<string>>)
    ensures r.Done? ==> |r.rest| < |t|
  {
    if t == "" || t[0] != '[' then Fail
    else if |t| > 1 && t[1] == ']' then Done([], t[2..])
    else ParseElements(t[1..])
  }

  function ParsePrimary(t: string): (r: Parsed<Expr>)
    ensures r.Done? ==> |r.rest| < |t|
    decreases |t|, 0
  {
    if t == "" then Fail
    else if t[0] == '(' then
      var inner := ParseExpr(t[1..]);
      if inner.Done? && inner.rest != "" && inner.rest[0] == ')' then Done(inner.value, inner.rest[1..]) else Fail
    else if t[0] == '[' then
      var keys := ParseArray(t);
      if keys.Fail? then Fail
      else
        var call := Eat(INCLUDES, keys.rest);
        if call.Fail? then Fail else Done(KeyIn(keys.value), call.rest)
    else if t[0] == 'c' then
      var call := Eat(STARTS_WITH, t);
      if call.Fail? then Fail
      else
        var prefix := ParseString(call.rest);
        if prefix.Done? && prefix.rest != "" && prefix.rest[0] == ')' then Done(ModelStarts(prefix.value), prefix.rest[1..]) else Fail
    else
      var lit := Eat("true", t);
      if lit.Fail? then Fail else Done(True, lit.rest)
  }

  function ParseExpr(t: string): (r: Parsed<Expr>)
    ensures r.Done? ==> |r.rest| < |t|
    decreases |t|, 1
  {
    var left := ParsePrimary(t);
    if left.Fail? then Fail
    else
      var op := Eat(" && ", left.rest);
      if op.Fail? then left
      else
        var right := ParseExpr(op.rest);
        if right.Fail? then Fail else Done(And(left.value, right.value), right.rest)
  }

  datatype Verdict = No | Yes | Error

  /** Runs a condition text: the whole text has to be one expression. */
  function EvalText(text: string, ctx: Ctx): Verdict {
    var e := ParseExpr(text);
    if e.Fail? || e.rest != "" then Error
    else if Eval(e.value, ctx) then Yes
    else No
  }

  // ---- Reading undoes printing ----

  lemma EatAtHead(lit: string, rest: string)
    ensures Eat(lit, lit + rest) == Done((), rest)
  {
    assert (lit + rest)[|lit|..] == rest;
  }

  lemma HexPair(n: nat, rest: string)
    requires n < 128
    ensures ParseHex([HexDigit(n / 16), HexDigit(n % 16)] + rest, 2, 0) == Done(n as char, rest)
    ensures ParseHex(['0', '0', HexDigit(n / 16), HexDigit(n % 16)] + rest, 4, 0) == Done(n as char, rest)
  {
    var t := [HexDigit(n / 16), HexDigit(n % 16)] + rest;
    assert HexValue(t[0]) == Some(n / 16) && HexValue(t[1]) == Some(n % 16);
    assert t[1..][1..] == rest;
    assert ParseHex(t[1..], 1, n / 16) == ParseHex(rest, 0, n);
    var u := ['0', '0', HexDigit(n / 16), HexDigit(n % 16)] + rest;
    assert u[1..][1..] == t && HexValue(u[0]) == Some(0) && u[1..][0] == '0';
    assert ParseHex(u, 4, 0) == ParseHex(u[1..], 3, 0) == ParseHex(t, 2, 0);
  }

  /** The character a Go escape denotes when JavaScript reads it. */
  function ReadBack(c: char): char {
    if c == BEL then 'a' else c
  }

  function ReadBackAll(s: string): string {
    if s == "" then "" else [ReadBack(s[0])] + ReadBackAll(s[1..])
  }

  /** Reading back leaves a text alone exactly when it holds no BEL. */
  lemma {:induction false} ReadBackAllUnchanged(s: string)
    ensures |ReadBackAll(s)| == |s|
    ensures ReadBackAll(s) == s <==> BEL !in s
  {
    if s != "" {
      ReadBackAllUnchanged(s[1..]);
      assert s == [s[0]] + s[1..];
      assert ReadBackAll(s)[1..] == ReadBackAll(s[1..]);
    }
  }

  /** One step of ParseChars over a printed character. */
  predicate ReadsAs(printed: string, c: char, tail: string) {
    var t := printed + tail;
    && |printed| > 0 && t[0] != '"' && t[0] != LF && t[0] != CR
    && (if t[0] == '\\' then ParseEscape(t[1..]) else Done(t[0], t[1..])) == Done(c, tail)
  }

  lemma JsonCharReads(c: char, tail: string)
    requires c as int < 128
    ensures ReadsAs(JsonChar(c), c, tail)
  {
    var p := JsonChar(c);
    var t := p + tail;
    if |p| == 1 {
      assert t[1..] == tail;
    } else if |p| == 2 {
      assert t[1..][1..] == tail;
    } else {
      HexPair(c as int, tail);
      assert t[1..][1..] == ['0', '0', HexDigit(c as int / 16), HexDigit(c as int % 16)] + tail;
    }
  }

  lemma GoCharReads(c: char, tail: string)
    requires c as int < 128
    ensures ReadsAs(GoChar(c), ReadBack(c), tail)
  {
    var p := GoChar(c);
    var t := p + tail;
    if |p| == 1 {
      assert t[1..] == tail;
    } else if |p| == 2 {
      assert t[1..][1..] == tail;
    } else {
      HexPair(c as int, tail);
      assert t[1..][1..] == [HexDigit(c as int / 16), HexDigit(c as int % 16)] + tail;
    }
  }

  lemma ParseCharsStep(printed: string, c: char, tail: string)
    requires ReadsAs(printed, c, tail)
    requires ParseChars(tail).Done?
    ensures var others := ParseChars(tail);
            ParseChars(printed + tail) == Done([c] + others.value, others.rest)
  {
  }

  lemma ClosedSplit(first: string, others: string, rest: string)
    ensures (first + others) + ['"'] + rest == first + (others + ['"'] + rest)
  {
  }

  lemma CharsReadOneMore(first: string, c: char, others: string, read: string, rest: string)
    requires ReadsAs(first, c, others + ['"'] + rest)
    requires ParseChars(others + ['"'] + rest) == Done(read, rest)
    ensures ParseChars((first + others) + ['"'] + rest) == Done([c] + read, rest)
  {
    ParseCharsStep(first, c, others + ['"'] + rest);
    ClosedSplit(first, others, rest);
  }

  lemma {:induction false} JsonCharsRead(s: string, rest: string)
    requires Ascii(s)
    ensures ParseChars(JsonChars(s) + ['"'] + rest) == Done(s, rest)
  {
    if s == "" {
      assert JsonChars(s) + ['"'] + rest == ['"'] + rest;
    } else {
      var others := JsonChars(s[1..]);
      JsonCharReads(s[0], others + ['"'] + rest);
      JsonCharsRead(s[1..], rest);
      CharsReadOneMore(JsonChar(s[0]), s[0], others, s[1..], rest);
      assert s == [s[0]] + s[1..];
    }
  }

  lemma {:induction false} GoCharsRead(s: string, rest: string)
    requires Ascii(s)
    ensures ParseChars(GoChars(s) + ['"'] + rest) == Done(ReadBackAll(s), rest)
  {
    if s == "" {
      assert GoChars(s) + ['"'] + rest == ['"'] + rest;
    } else {
      var others := GoChars(s[1..]);
      GoCharReads(s[0], others + ['"'] + rest);
      GoCharsRead(s[1..], rest);
      CharsReadOneMore(GoChar(s[0]), ReadBack(s[0]), others, ReadBackAll(s[1..]), rest);
    }
  }

  lemma QuotesOpen(inner: string, rest: string)
    ensures var t := ['"'] + inner + ['"'] + rest;
            t[0] == '"' && t[1..] == inner + ['"'] + rest
  {
  }

  lemma JsonStringReads(s: string, rest: string)
    requires Ascii(s)
    ensures ParseString(JsonString(s) + rest) == Done(s, rest)
  {
    JsonCharsRead(s, rest);
    QuotesOpen(JsonChars(s), rest);
  }

  lemma GoStringReads(s: string, rest: string)
    requires Ascii(s)
    ensures ParseString(GoString(s) + rest) == Done(ReadBackAll(s), rest)
  {
    GoCharsRead(s, rest);
    QuotesOpen(GoChars(s), rest);
  }

  lemma LastElementReads(t: string, key: string, rest: string)
    requires ParseString(t) == Done(key, "]" + rest)
    ensures ParseElements(t) == Done([key], rest)
  {
    assert ("]" + rest)[1..] == rest;
  }

  lemma FirstElementReads(t: string, key: string, tail: string, others: seq<string>, rest: string)
    requires ParseString(t) == Done(key, "," + tail) && ParseElements(tail) == Done(others, rest)
    ensures ParseElements(t) == Done([key] + others, rest)
  {
    assert ("," + tail)[1..] == tail;
  }

  lemma ThreePartsAssociate(a: string, b: string, c: string)
    ensures (a + b) + c == a + (b + c)
  {
  }

  lemma FourPartsAssociate(a: string, b: string, c: string, d: string)
    ensures (a + (b + c)) + d == a + (b + (c + d))
  {
  }

  /** The text of an array's elements, split after the first. */
  lemma JsonTailSplits(keys: seq<string>, rest: string)
    requires |keys| > 1 && forall k :: k in keys ==> Ascii(k)
    ensures JsonTail(keys) + rest == JsonString(keys[0]) + ("," + (JsonTail(keys[1..]) + rest))
  {
    FourPartsAssociate(JsonString(keys[0]), ",", JsonTail(keys[1..]), rest);
  }

  lemma JsonTailOfOne(key: string, rest: string)
    requires Ascii(key)
    ensures JsonTail([key]) + rest == JsonString(key) + ("]" + rest)
  {
    ThreePartsAssociate(JsonString(key), "]", rest);
  }

  lemma LastKeyReads(key: string, rest: string)
    requires Ascii(key)
    ensures ParseElements(JsonTail([key]) + rest) == Done([key], rest)
  {
    JsonTailOfOne(key, rest);
    JsonStringReads(key, "]" + rest);
    LastElementReads(JsonTail([key]) + rest, key, rest);
  }

  lemma FirstKeyReads(keys: seq<string>, rest: string)
    requires |keys| > 1 && forall k :: k in keys ==> Ascii(k)
    requires ParseElements(JsonTail(keys[1..]) + rest) == Done(keys[1..], rest)
    ensures ParseElements(JsonTail(keys) + rest) == Done([keys[0]] + keys[1..], rest)
  {
    var tail := JsonTail(keys[1..]) + rest;
    JsonTailSplits(keys, rest);
    JsonStringReads(keys[0], "," + tail);
    FirstElementReads(JsonTail(keys) + rest, keys[0], tail, keys[1..], rest);
  }

  /** An array of keys is read back as the same keys, in the same order. */
  lemma {:induction false} JsonTailReads(keys: seq<string>, rest: string)
    requires keys != [] && forall k :: k in keys ==> Ascii(k)
    ensures ParseElements(JsonTail(keys) + rest) == Done(keys, rest)
  {
    if |keys| == 1 {
      assert keys == [keys[0]];
      LastKeyReads(keys[0], rest);
    } else {
      JsonTailReads(keys[1..], rest);
      FirstKeyReads(keys, rest);
      assert keys == [keys[0]] + keys[1..];
    }
  }

  lemma ElementsRead(elements: string, keys: seq<string>, tail: string)
    requires elements != "" && elements[0] == '"' && ParseElements(elements) == Done(keys, tail)
    ensures ParseArray(['['] + elements) == Done(keys, tail)
  {
    var t := ['['] + elements;
    assert t[1..] == elements && t[1] == elements[0];
  }

  lemma JsonArrayReads(keys: seq<string>, tail: string)
    requires keys != [] && forall k :: k in keys ==> Ascii(k)
    ensures ParseArray(JsonArray(keys) + tail) == Done(keys, tail)
  {
    var elements := JsonTail(keys) + tail;
    JsonTailReads(keys, tail);
    assert JsonTail(keys)[0] == JsonString(keys[0])[0] == '"';
    assert elements[0] == '"';
    assert JsonArray(keys) + tail == ['['] + elements;
    ElementsRead(elements, keys, tail);
  }

  lemma CallReads(t: string, keys: seq<string>, rest: string)
    requires t != "" && t[0] == '[' && ParseArray(t) == Done(keys, INCLUDES + rest)
    ensures ParsePrimary(t) == Done(KeyIn(keys), rest)
  {
    EatAtHead(INCLUDES, rest);
  }

  lemma KeysTextReads(keys: seq<string>, rest: string)
    requires keys != [] && forall k :: k in keys ==> Ascii(k)
    ensures ParsePrimary(KeysText(keys) + rest) == Done(KeyIn(keys), rest)
  {
    var tail := INCLUDES + rest;
    JsonArrayReads(keys, tail);
    assert KeysText(keys) + rest == JsonArray(keys) + tail;
    assert (JsonArray(keys) + tail)[0] == '[';
    CallReads(JsonArray(keys) + tail, keys, rest);
  }

  lemma PrefixTextReads(prefix: string, rest: string)
    requires Ascii(prefix)
    ensures ParsePrimary(PrefixText(prefix) + rest) == Done(ModelStarts(ReadBackAll(prefix)), rest)
  {
    var t := PrefixText(prefix) + rest;
    var tail := GoString(prefix) + (")" + rest);
    assert t == STARTS_WITH + tail && t[0] == 'c';
    EatAtHead(STARTS_WITH, tail);
    GoStringReads(prefix, ")" + rest);
    assert (")" + rest)[1..] == rest;
  }

  /** The expression a printed condition is read back as. */
  function Meaning(m: Match): Expr {
    var read := ReadBackAll(m.modelPrefix);
    if m.apiKeys == [] && m.modelPrefix == "" then True
    else if m.modelPrefix == "" then KeyIn(m.apiKeys)
    else if m.apiKeys == [] then ModelStarts(read)
    else And(KeyIn(m.apiKeys), ModelStarts(read))
  }

  /** A text the reader takes for the primary expression `e`, whatever follows it. */
  ghost predicate Reads(text: string, e: Expr) {
    forall rest :: ParsePrimary(text + rest) == Done(e, rest)
  }

  lemma PrimaryBeforeParenthesis(t: string, e: Expr, rest: string)
    requires ParsePrimary(t) == Done(e, [')'] + rest)
    ensures ParseExpr(t) == Done(e, [')'] + rest)
  {
    var after := [')'] + rest;
    assert " && "[0] == ' ' && after[0] == ')';
    assert !(" && " <= after);
  }

  lemma ParenthesesOpen(t: string, e: Expr, rest: string)
    requires ParseExpr(t) == Done(e, [')'] + rest)
    ensures ParsePrimary(['('] + t) == Done(e, rest)
  {
    assert (['('] + t)[1..] == t && ([')'] + rest)[1..] == rest;
  }

  lemma ParenthesesSplit(inner: string, rest: string)
    ensures "(" + inner + ")" + rest == ['('] + (inner + ([')'] + rest))
  {
  }

  lemma ParenthesesRead(inner: string, e: Expr)
    requires Reads(inner, e)
    ensures Reads("(" + inner + ")", e)
  {
    forall rest ensures ParsePrimary("(" + inner + ")" + rest) == Done(e, rest) {
      var tail := [')'] + rest;
      ParenthesesSplit(inner, rest);
      assert ParsePrimary(inner + tail) == Done(e, tail);
      PrimaryBeforeParenthesis(inner + tail, e, rest);
      ParenthesesOpen(inner + tail, e, rest);
    }
  }

  lemma PrimaryAlone(t: string, e: Expr)
    requires ParsePrimary(t) == Done(e, "")
    ensures ParseExpr(t) == Done(e, "")
  {
    assert Eat(" && ", "").Fail?;
  }

  lemma ReadsBefore(text: string, e: Expr, rest: string)
    requires Reads(text, e)
    ensures ParsePrimary(text + rest) == Done(e, rest)
  {
  }

  lemma OperatorReads(t: string, l: Expr, right: string, r: Expr)
    requires ParsePrimary(t) == Done(l, " && " + right) && ParseExpr(right) == Done(r, "")
    ensures ParseExpr(t) == Done(And(l, r), "")
  {
    EatAtHead(" && ", right);
  }

  lemma ConjunctionReads(left: string, l: Expr, right: string, r: Expr)
    requires Reads(left, l) && Reads(right, r)
    ensures ParseExpr(left + (" && " + right)) == Done(And(l, r), "")
  {
    ReadsBefore(left, l, " && " + right);
    ReadsBefore(right, r, "");
    assert right + "" == right;
    PrimaryAlone(right, r);
    OperatorReads(left + (" && " + right), l, right, r);
  }

  lemma KeysRead(keys: seq<string>)
    requires keys != [] && forall k :: k in keys ==> Ascii(k)
    ensures Reads(KeysText(keys), KeyIn(keys))
  {
    forall rest ensures ParsePrimary(KeysText(keys) + rest) == Done(KeyIn(keys), rest) {
      KeysTextReads(keys, rest);
    }
  }

  lemma PrefixReads(prefix: string)
    requires Ascii(prefix)
    ensures Reads(PrefixText(prefix), ModelStarts(ReadBackAll(prefix)))
  {
    forall rest ensures ParsePrimary(PrefixText(prefix) + rest) == Done(ModelStarts(ReadBackAll(prefix)), rest) {
      PrefixTextReads(prefix, rest);
    }
  }

  lemma BracketsAssociate(a: string, b: string)
    ensures "(" + a + ") && (" + b + ")" == ("(" + a + ")") + (" && " + ("(" + b + ")"))
  {
  }

  lemma BracketedConjunctionReads(keys: string, k: Expr, prefix: string, p: Expr)
    requires Reads(keys, k) && Reads(prefix, p)
    ensures ParseExpr("(" + keys + ") && (" + prefix + ")") == Done(And(k, p), "")
  {
    ParenthesesRead(keys, k);
    ParenthesesRead(prefix, p);
    ConjunctionReads("(" + keys + ")", k, "(" + prefix + ")", p);
    BracketsAssociate(keys, prefix);
  }

  /** Printing then parsing is total: every condition text is one expression, and this one. */
  lemma ConditionTextParses(m: Match)
    requires SevenBit(m)
    ensures ParseExpr(ConditionText(m)) == Done(Meaning(m), "")
  {
    var text := ConditionText(m);
    if m.apiKeys == [] && m.modelPrefix == "" {
      EatAtHead("true", "");
    } else if m.modelPrefix == "" {
      KeysRead(m.apiKeys);
      assert text + "" == text;
    } else if m.apiKeys == [] {
      PrefixReads(m.modelPrefix);
      assert text + "" == text;
    } else {
      KeysRead(m.apiKeys);
      PrefixReads(m.modelPrefix);
      BracketedConjunctionReads(KeysText(m.apiKeys), KeyIn(m.apiKeys), PrefixText(m.modelPrefix), ModelStarts(ReadBackAll(m.modelPrefix)));
    }
  }

  /** The stored text is never an evaluation error, and decides what the read-back prefix decides. */
  lemma ConditionTextDecides(m: Match, ctx: Ctx)
    requires SevenBit(m)
    ensures EvalText(ConditionText(m), ctx)
         == if Matches(m.(modelPrefix := ReadBackAll(m.modelPrefix)), ctx) then Yes else No
  {
    ConditionTextParses(m);
    ReadBackAllUnchanged(m.modelPrefix);
    var e := Meaning(m);
    assert EvalText(ConditionText(m), ctx) == if Eval(e, ctx) then Yes else No;
    match e
    case And(left, right) => assert Eval(e, ctx) == (Eval(left, ctx) && Eval(right, ctx));
    case _ =>
  }

  /** The stored text agrees with the configuration on every request. */
  ghost predicate Faithful(m: Match)
    requires SevenBit(m)
  {
    forall ctx: Ctx :: EvalText(ConditionText(m), ctx) == if Matches(m, ctx) then Yes else No
  }

  /**
   Exactly which matches survive the trip through JavaScript: those whose prefix
   holds no BEL character, which Go quotes as \a and JavaScript reads as the letter a.
   */
  lemma FaithfulExactlyWithoutBel(m: Match)
    requires SevenBit(m)
    ensures Faithful(m) <==> BEL !in m.modelPrefix
  {
    ReadBackAllUnchanged(m.modelPrefix);
    if BEL !in m.modelPrefix {
      forall ctx: Ctx ensures EvalText(ConditionText(m), ctx) == if Matches(m, ctx) then Yes else No {
        ConditionTextDecides(m, ctx);
      }
    } else {
      var key := if m.apiKeys == [] then "" else m.apiKeys[0];
      var ctx := Ctx(key, m.modelPrefix, "");
      ConditionTextDecides(m, ctx);
      assert !(ReadBackAll(m.modelPrefix) <= m.modelPrefix);
      assert Matches(m, ctx) && EvalText(ConditionText(m), ctx) == No;
    }
  }
}
