/**
 * JSON.stringify and JSON.parse over the value model, as far as the
 * configuration cache uses them: integers, strings, booleans, null,
 * arrays and objects, printed without whitespace. Stringify escapes a
 * string's quote, backslash and control characters the way JSON.stringify
 * does; Parse accepts exactly the texts Print can produce, plus the other
 * JSON string escapes. The round trip Parse(Print(v)) == Ok(v) is proved
 * for every value JSON can carry.
 */
module Json {
  import opened Js

  /** Values JSON can carry: no undefined anywhere, object keys distinct. */
  predicate Jsonable(v: Value) {
    match v
    case Undefined => false
    case Arr(items) => forall i :: 0 <= i < |items| ==> Jsonable(items[i])
    case Obj(ms) => DistinctKeys(ms) && forall i :: 0 <= i < |ms| ==> Jsonable(ms[i].value)
    case _ => true
  }

  // ---------------------------------------------------------------------
  // Printing

  function HexDigit(d: nat): char
    requires d < 16
  {
    if d < 10 then ('0' as int + d) as char else ('a' as int + d - 10) as char
  }

  /** How JSON.stringify writes one character of a string. */
  function EscapeChar(c: char): string {
    if c == '"' then ['\\', '"']
    else if c == '\\' then ['\\', '\\']
    else if c as int == 8 then ['\\', 'b']
    else if c as int == 12 then ['\\', 'f']
    else if c == '\n' then ['\\', 'n']
    else if c == '\r' then ['\\', 'r']
    else if c == '\t' then ['\\', 't']
    else if c as int < 0x20 then ['\\', 'u', '0', '0', HexDigit(c as int / 16), HexDigit(c as int % 16)]
    else [c]
  }

  function Escape(s: string): string {
    if s == [] then [] else EscapeChar(s[0]) + Escape(s[1..])
  }

  function Quote(s: string): string {
    "\"" + Escape(s) + "\""
  }

  /**
   * The JSON text of a value. Inside an array an undefined element is
   * written as null; object members whose value is undefined are skipped.
   */
  function Print(v: Value): string {
    match v
    case Undefined => "null"
    case Null => "null"
    case Bool(b) => if b then "true" else "false"
    case Num(n) => IntText(n)
    case Str(s) => Quote(s)
    case Arr(items) => "[" + PrintItems(items, true) + "]"
    case Obj(ms) => "{" + PrintMembers(ms, true) + "}"
  }

  function PrintItems(items: seq<Value>, first: bool): string {
    if items == [] then ""
    else (if first then "" else ",") + Print(items[0]) + PrintItems(items[1..], false)
  }

  function PrintMembers(ms: seq<Member>, first: bool): string {
    if ms == [] then ""
    else if ms[0].value == Undefined then PrintMembers(ms[1..], first)
    else (if first then "" else ",") + Quote(ms[0].key) + ":" + Print(ms[0].value) + PrintMembers(ms[1..], false)
  }

  /** JSON.stringify: no text at all for undefined, the JSON text otherwise. */
  function Stringify(v: Value): (r: Option<string>)
    ensures r.None? <==> v == Undefined
    ensures r.Some? ==> r.value != [] && StartsValue(r.value[0])
  {
    if v == Undefined then None else PrintNotEmpty(v); Some(Print(v))
  }

  /** The characters a printed value can start with. */
  predicate StartsValue(c: char) {
    c == 'n' || c == 't' || c == 'f' || c == '-' || IsDigit(c) || c == '"' || c == '[' || c == '{'
  }

  lemma PrintNotEmpty(v: Value)
    ensures Print(v) != [] && StartsValue(Print(v)[0])
  {
    match v
    case Num(n) =>
      if n < 0 {
        assert Print(v)[0] == '-';
      } else {
        assert Print(v) == NatText(n);
      }
    case _ =>
  }

  // ---------------------------------------------------------------------
  // Parsing

  /** The outcome of parsing a prefix of a text: the value and what is left. */
  datatype Parsed<+T> = Parsed(value: T, rest: string) | Malformed

  predicate IsHex(c: char) {
    IsDigit(c) || 'a' <= c <= 'f' || 'A' <= c <= 'F'
  }

  function HexValue(c: char): nat
    requires IsHex(c)
  {
    if IsDigit(c) then c as int - '0' as int
    else if 'a' <= c <= 'f' then c as int - 'a' as int + 10
    else c as int - 'A' as int + 10
  }

  /** The character a two-character escape `\c` stands for, if any. */
  function ShortUnescape(c: char): Option<char> {
    if c == '"' then Some('"')
    else if c == '\\' then Some('\\')
    else if c == '/' then Some('/')
    else if c == 'b' then Some(8 as char)
    else if c == 'f' then Some(12 as char)
    else if c == 'n' then Some('\n')
    else if c == 'r' then Some('\r')
    else if c == 't' then Some('\t')
    else None
  }

  /** Whether a \uXXXX code unit is a character on its own (not half of a surrogate pair). */
  predicate IsScalar(code: int) {
    0 <= code < 0xD800 || 0xE000 <= code < 0x10000
  }

  /** The body of a string literal up to its closing quote. */
  function ParseChars(s: string): (r: Parsed<string>)
    ensures r.Parsed? ==> |r.rest| < |s|
  {
    if s == [] then Malformed
    else if s[0] == '"' then Parsed([], s[1..])
    else if s[0] == '\\' then
      if |s| < 2 then Malformed
      else if s[1] == 'u' then
        if |s| < 6 || !IsHex(s[2]) || !IsHex(s[3]) || !IsHex(s[4]) || !IsHex(s[5]) then Malformed
        else
          var code := HexValue(s[2]) * 4096 + HexValue(s[3]) * 256 + HexValue(s[4]) * 16 + HexValue(s[5]);
          if !IsScalar(code) then Malformed
          else Prepend(code as char, ParseChars(s[6..]))
      else if ShortUnescape(s[1]).None? then Malformed
      else Prepend(ShortUnescape(s[1]).value, ParseChars(s[2..]))
    else if s[0] as int < 0x20 then Malformed
    else Prepend(s[0], ParseChars(s[1..]))
  }

  function Prepend(c: char, r: Parsed<string>): (r': Parsed<string>)
    ensures r'.Parsed? <==> r.Parsed?
    ensures r.Parsed? ==> r'.rest == r.rest
  {
    match r
    case Parsed(t, rest) => Parsed([c] + t, rest)
    case Malformed => Malformed
  }

  /** The length of the run of decimal digits that starts the text. */
  function DigitCount(s: string): (n: nat)
    ensures n <= |s|
    ensures forall i :: 0 <= i < n ==> IsDigit(s[i])
    ensures n < |s| ==> !IsDigit(s[n])
  {
    if s == [] || !IsDigit(s[0]) then 0 else 1 + DigitCount(s[1..])
  }

  function DigitsValue(ds: string): nat
    requires forall i :: 0 <= i < |ds| ==> IsDigit(ds[i])
  {
    if ds == [] then 0
    else DigitsValue(ds[..|ds| - 1]) * 10 + DigitValue(ds[|ds| - 1])
  }

  function DigitValue(c: char): nat
    requires IsDigit(c)
  {
    c as int - '0' as int
  }

  /** A natural number: 0, or a digit run that does not start with 0. */
  function ParseNat(t: string): (r: Parsed<nat>)
    ensures r.Parsed? ==> |r.rest| < |t|
  {
    if t == [] || !IsDigit(t[0]) then Malformed
    else
      var n := if t[0] == '0' then 1 else DigitCount(t);
      Parsed(DigitsValue(t[..n]), t[n..])
  }

  /** An integer: an optional minus sign before a natural number. */
  function ParseNumber(s: string): (r: Parsed<Value>)
    ensures r.Parsed? ==> |r.rest| < |s|
  {
    if s != [] && s[0] == '-' then
      match ParseNat(s[1..])
      case Parsed(m, rest) => Parsed(Num(-(m as int)), rest)
      case Malformed => Malformed
    else
      match ParseNat(s)
      case Parsed(m, rest) => Parsed(Num(m), rest)
      case Malformed => Malformed
  }

  function Literal(s: string, word: string, v: Value): (r: Parsed<Value>)
    requires word != []
    ensures r.Parsed? ==> |r.rest| < |s|
  {
    if |word| <= |s| && s[..|word|] == word then Parsed(v, s[|word|..]) else Malformed
  }

  function ParseValue(s: string): (r: Parsed<Value>)
    ensures r.Parsed? ==> |r.rest| < |s|
    decreases |s|, 0
  {
    if s == [] then Malformed
    else if s[0] == 'n' then Literal(s, "null", Null)
    else if s[0] == 't' then Literal(s, "true", Bool(true))
    else if s[0] == 'f' then Literal(s, "false", Bool(false))
    else if s[0] == '-' || IsDigit(s[0]) then ParseNumber(s)
    else if s[0] == '"' then
      match ParseChars(s[1..])
      case Parsed(str, rest) => Parsed(Str(str), rest)
      case Malformed => Malformed
    else if s[0] == '[' then
      if |s| > 1 && s[1] == ']' then Parsed(Arr([]), s[2..]) else ParseItems(s[1..], [])
    else if s[0] == '{' then
      if |s| > 1 && s[1] == '}' then Parsed(Obj([]), s[2..]) else ParseMembers(s[1..], [])
    else Malformed
  }

  /** Array elements after the opening bracket, collected in `acc`. */
  function ParseItems(s: string, acc: seq<Value>): (r: Parsed<Value>)
    ensures r.Parsed? ==> |r.rest| < |s|
    decreases |s|, 1
  {
    match ParseValue(s)
    case Malformed => Malformed
    case Parsed(v, rest) =>
      if rest != [] && rest[0] == ',' then ParseItems(rest[1..], acc + [v])
      else if rest != [] && rest[0] == ']' then Parsed(Arr(acc + [v]), rest[1..])
      else Malformed
  }

  /**
   * Object members after the opening brace, collected in `acc`; a repeated
   * key keeps its first position and takes the later value.
   */
  function ParseMembers(s: string, acc: seq<Member>): (r: Parsed<Value>)
    ensures r.Parsed? ==> |r.rest| < |s|
    decreases |s|, 1
  {
    if s == [] || s[0] != '"' then Malformed
    else
      match ParseChars(s[1..])
      case Malformed => Malformed
      case Parsed(key, rest) =>
        if rest == [] || rest[0] != ':' then Malformed
        else
          match ParseValue(rest[1..])
          case Malformed => Malformed
          case Parsed(v, rest2) =>
            if rest2 != [] && rest2[0] == ',' then ParseMembers(rest2[1..], Put(acc, key, v))
            else if rest2 != [] && rest2[0] == '}' then Parsed(Obj(Put(acc, key, v)), rest2[1..])
            else Malformed
  }

  /** JSON.parse: the whole text must be one value; anything else is a SyntaxError. */
  function Parse(text: string): (r: Result<Value>)
    ensures r.Raised? ==> r.exception == SyntaxError
  {
    match ParseValue(text)
    case Parsed(v, rest) => if rest == [] then Ok(v) else Raised(SyntaxError)
    case Malformed => Raised(SyntaxError)
  }

  // ---------------------------------------------------------------------
  // The round trip

  /** What may follow a value inside a JSON text this printer produced. */
  predicate Delimited(rest: string) {
    rest == [] || rest[0] == ',' || rest[0] == ']' || rest[0] == '}'
  }

  lemma EscapeCharRoundTrip(c: char, t: string)
    ensures ParseChars(EscapeChar(c) + t) == Prepend(c, ParseChars(t))
  {
    if c as int < 0x20 && c != '\n' && c != '\r' && c != '\t' && c as int != 8 && c as int != 12 {
      UnicodeEscapeRoundTrip(c, t);
    } else if |EscapeChar(c)| == 2 {
      ShortEscapeRoundTrip(c, t);
    } else {
      var s := EscapeChar(c) + t;
      assert s[1..] == t;
    }
  }

  /** A control character without a short escape comes back from its \u00XX form. */
  lemma UnicodeEscapeRoundTrip(c: char, t: string)
    requires c as int < 0x20 && c != '\n' && c != '\r' && c != '\t' && c as int != 8 && c as int != 12
    ensures ParseChars(EscapeChar(c) + t) == Prepend(c, ParseChars(t))
  {
    var s := EscapeChar(c) + t;
    var hi, lo := c as int / 16, c as int % 16;
    assert s[..6] == ['\\', 'u', '0', '0', HexDigit(hi), HexDigit(lo)];
    assert HexValue(HexDigit(hi)) == hi && HexValue(HexDigit(lo)) == lo;
    assert s[6..] == t;
  }

  lemma ShortEscapeRoundTrip(c: char, t: string)
    requires |EscapeChar(c)| == 2
    ensures ParseChars(EscapeChar(c) + t) == Prepend(c, ParseChars(t))
  {
    var s := EscapeChar(c) + t;
    assert s[2..] == t;
  }

  lemma {:induction false} EscapeRoundTrip(str: string, rest: string)
    ensures ParseChars(Escape(str) + "\"" + rest) == Parsed(str, rest)
  {
    if str == [] {
      assert Escape(str) + "\"" + rest == "\"" + rest;
      assert ("\"" + rest)[1..] == rest;
    } else {
      var t := Escape(str[1..]) + "\"" + rest;
      assert Escape(str) + "\"" + rest == EscapeChar(str[0]) + t;
      EscapeCharRoundTrip(str[0], t);
      EscapeRoundTrip(str[1..], rest);
      assert [str[0]] + str[1..] == str;
    }
  }

  lemma {:induction false} DigitCountPrefix(ds: string, rest: string)
    requires forall i :: 0 <= i < |ds| ==> IsDigit(ds[i])
    requires rest == [] || !IsDigit(rest[0])
    ensures DigitCount(ds + rest) == |ds|
  {
    if ds != [] {
      assert (ds + rest)[1..] == ds[1..] + rest;
      DigitCountPrefix(ds[1..], rest);
    } else {
      assert ds + rest == rest;
    }
  }

  lemma {:induction false} NatTextValue(n: nat)
    ensures DigitsValue(NatText(n)) == n
  {
    var s := NatText(n);
    if n >= 10 {
      assert s[..|s| - 1] == NatText(n / 10);
      NatTextValue(n / 10);
    } else {
      assert s[..0] == [];
    }
  }

  lemma NatRoundTrip(n: nat, rest: string)
    requires rest == [] || !IsDigit(rest[0])
    ensures var t := NatText(n) + rest;
      t != [] && IsDigit(t[0]) &&
      (if t[0] == '0' then 1 else DigitCount(t)) == |NatText(n)| &&
      t[..|NatText(n)|] == NatText(n) && t[|NatText(n)|..] == rest &&
      DigitsValue(NatText(n)) == n
  {
    var t := NatText(n) + rest;
    assert t[0] == NatText(n)[0];
    DigitCountPrefix(NatText(n), rest);
    NatTextValue(n);
    if n == 0 {
      assert |NatText(n)| == 1;
    }
  }

  lemma NatParse(m: nat, rest: string)
    requires rest == [] || !IsDigit(rest[0])
    ensures ParseNat(NatText(m) + rest) == Parsed(m, rest)
  {
    NatRoundTrip(m, rest);
  }

  lemma NumberRoundTrip(n: int, rest: string)
    requires Delimited(rest)
    ensures ParseNumber(IntText(n) + rest) == Parsed(Num(n), rest)
  {
    var m: nat := if n < 0 then -n else n;
    var t := NatText(m) + rest;
    NatParse(m, rest);
    if n < 0 {
      Assoc("-", NatText(m), rest);
      DropHead("-", t);
    } else {
      assert IntText(n) + rest == t;
      assert t[0] != '-';
    }
  }

  lemma LiteralRoundTrip(word: string, rest: string, v: Value)
    requires word != []
    ensures Literal(word + rest, word, v) == Parsed(v, rest)
  {
    assert (word + rest)[..|word|] == word;
    assert (word + rest)[|word|..] == rest;
  }

  lemma PrintItemsLater(items: seq<Value>)
    requires items != []
    ensures PrintItems(items, false) == "," + PrintItems(items, true)
  {
  }

  lemma {:induction false} PrintMembersLater(ms: seq<Member>)
    requires ms != [] && Defined(ms)
    ensures PrintMembers(ms, false) == "," + PrintMembers(ms, true)
  {
  }

  /** Parse undoes Print on every value JSON can carry, whatever follows it. */
  lemma {:induction false} PrintRoundTrip(v: Value, rest: string)
    requires Jsonable(v) && Delimited(rest)
    ensures ParseValue(Print(v) + rest) == Parsed(v, rest)
    decreases v, 2
  {
    match v
    case Null => LiteralRoundTrip("null", rest, Null);
    case Bool(b) =>
      if b { LiteralRoundTrip("true", rest, v); } else { LiteralRoundTrip("false", rest, v); }
    case Num(n) =>
      NumberRoundTrip(n, rest);
      PrintNotEmpty(v);
      assert (Print(v) + rest)[0] == Print(v)[0];
    case Str(str) => StrRoundTrip(str, rest);
    case Arr(items) => ArrRoundTrip(v, rest);
    case Obj(ms) => ObjRoundTrip(v, rest);
  }

  lemma StrRoundTrip(str: string, rest: string)
    ensures ParseValue(Print(Str(str)) + rest) == Parsed(Str(str), rest)
  {
    var body := Escape(str) + "\"" + rest;
    Regroup("\"", Escape(str), "\"", rest);
    DropHead("\"", body);
    EscapeRoundTrip(str, rest);
  }

  lemma Assoc(a: string, b: string, c: string)
    ensures a + b + c == a + (b + c)
  {
  }

  /** The text after a one-character prefix. */
  lemma DropHead(p: string, x: string)
    requires |p| == 1
    ensures (p + x)[0] == p[0] && (p + x)[1..] == x
  {
  }


  lemma {:induction false} ArrRoundTrip(v: Value, rest: string)
    requires v.Arr? && Jsonable(v) && Delimited(rest)
    ensures ParseValue(Print(v) + rest) == Parsed(v, rest)
    decreases v, 1
  {
    var items := v.items;
    if items == [] {
      EmptyArrRoundTrip(rest);
    } else {
      ArrText(items, rest);
      assert ParseItems(PrintItems(items, true) + "]" + rest, []) == Parsed(Arr(items), rest) by {
        ItemsRoundTrip(items, [], rest);
        EmptyPrefix(items);
      }
    }
  }

  lemma EmptyArrRoundTrip(rest: string)
    ensures ParseValue(Print(Arr([])) + rest) == Parsed(Arr([]), rest)
  {
    var s := Print(Arr([])) + rest;
    assert s == "[]" + rest by { assert PrintItems([], true) == ""; }
    assert s[2..] == rest;
  }

  /** The text of a non-empty array: its bracket, then the start of its first element. */
  lemma ArrText(items: seq<Value>, rest: string)
    requires items != []
    ensures var s := Print(Arr(items)) + rest;
      s[0] == '[' && |s| > 1 && s[1] != ']' && s[1..] == PrintItems(items, true) + "]" + rest
  {
    var body := PrintItems(items, true) + "]" + rest;
    ItemsText(items, rest);
    PrintNotEmpty(items[0]);
    Regroup("[", PrintItems(items, true), "]", rest);
    assert Print(Arr(items)) + rest == "[" + body;
  }

  lemma EmptyPrefix<T>(xs: seq<T>)
    ensures [] + xs == xs
  {
  }

  lemma AppendHead<T>(acc: seq<T>, xs: seq<T>)
    requires xs != []
    ensures acc + [xs[0]] + xs[1..] == acc + xs
    ensures |xs| == 1 ==> acc + [xs[0]] == acc + xs
  {
    assert xs == [xs[0]] + xs[1..];
  }

  lemma {:induction false} ObjRoundTrip(v: Value, rest: string)
    requires v.Obj? && Jsonable(v) && Delimited(rest)
    ensures ParseValue(Print(v) + rest) == Parsed(v, rest)
    decreases v, 1
  {
    var ms := v.members;
    if ms == [] {
      EmptyObjRoundTrip(rest);
    } else {
      ObjReady(ms);
      ObjText(ms, rest);
      assert ParseMembers(PrintMembers(ms, true) + "}" + rest, []) == Parsed(Obj(ms), rest) by {
        MembersRoundTrip(ms, [], rest);
        EmptyPrefix(ms);
      }
    }
  }

  lemma ObjReady(ms: seq<Member>)
    requires ms != [] && Jsonable(Obj(ms))
    ensures MembersReady(ms, []) && Jsonable(ms[0].value)
  {
  }

  lemma EmptyObjRoundTrip(rest: string)
    ensures ParseValue(Print(Obj([])) + rest) == Parsed(Obj([]), rest)
  {
    var s := Print(Obj([])) + rest;
    assert s == "{}" + rest by { assert PrintMembers([], true) == ""; }
    assert s[2..] == rest;
  }

  /** The text of a non-empty object: its brace, then its first key's quote. */
  lemma ObjText(ms: seq<Member>, rest: string)
    requires ms != [] && Jsonable(ms[0].value)
    ensures var s := Print(Obj(ms)) + rest;
      s[0] == '{' && |s| > 1 && s[1] == '"' && s[1..] == PrintMembers(ms, true) + "}" + rest
  {
    var body := PrintMembers(ms, true) + "}" + rest;
    MembersText(ms, rest);
    Regroup("{", PrintMembers(ms, true), "}", rest);
    assert Print(Obj(ms)) + rest == "{" + body;
  }

  lemma ItemsStep(s: string, acc: seq<Value>, v: Value, r: string)
    requires ParseValue(s) == Parsed(v, r) && r != []
    ensures r[0] == ',' ==> ParseItems(s, acc) == ParseItems(r[1..], acc + [v])
    ensures r[0] == ']' ==> ParseItems(s, acc) == Parsed(Arr(acc + [v]), r[1..])
  {
  }

  lemma PrintItemsHead(items: seq<Value>)
    requires items != []
    ensures PrintItems(items, true) == Print(items[0]) + PrintItems(items[1..], false)
  {
  }

  /** Regrouping the text of a non-empty array's elements around its first one. */
  lemma ItemsText(items: seq<Value>, rest: string)
    requires items != []
    ensures PrintItems(items, true) + "]" + rest == Print(items[0]) + (PrintItems(items[1..], false) + "]" + rest)
  {
    PrintItemsHead(items);
    Regroup(Print(items[0]), PrintItems(items[1..], false), "]", rest);
  }

  lemma Regroup(p: string, t: string, c: string, rest: string)
    ensures (p + t) + c + rest == p + (t + c + rest)
  {
  }

  /** Parsing the first of several printed elements leaves the text of the others. */
  lemma ItemsNext(items: seq<Value>, acc: seq<Value>, rest: string)
    requires |items| > 1 && Jsonable(items[0]) && Delimited(rest)
    ensures ParseItems(PrintItems(items, true) + "]" + rest, acc)
         == ParseItems(PrintItems(items[1..], true) + "]" + rest, acc + [items[0]])
    decreases items, 0
  {
    var tail := PrintItems(items[1..], false) + "]" + rest;
    ItemsText(items, rest);
    PrintItemsLater(items[1..]);
    assert tail == "," + (PrintItems(items[1..], true) + "]" + rest);
    PrintRoundTrip(items[0], tail);
    ItemsStep(PrintItems(items, true) + "]" + rest, acc, items[0], tail);
  }

  /** Parsing the last printed element closes the array. */
  lemma ItemsLast(items: seq<Value>, acc: seq<Value>, rest: string)
    requires |items| == 1 && Jsonable(items[0]) && Delimited(rest)
    ensures ParseItems(PrintItems(items, true) + "]" + rest, acc) == Parsed(Arr(acc + items), rest)
    decreases items, 0
  {
    var tail := PrintItems(items[1..], false) + "]" + rest;
    ItemsText(items, rest);
    assert tail == "]" + rest;
    PrintRoundTrip(items[0], tail);
    ItemsStep(PrintItems(items, true) + "]" + rest, acc, items[0], tail);
    assert tail[1..] == rest;
    AppendHead(acc, items);
  }

  lemma {:induction false} ItemsRoundTrip(items: seq<Value>, acc: seq<Value>, rest: string)
    requires items != [] && Delimited(rest)
    requires forall i :: 0 <= i < |items| ==> Jsonable(items[i])
    ensures ParseItems(PrintItems(items, true) + "]" + rest, acc) == Parsed(Arr(acc + items), rest)
    decreases items, 1
  {
    if |items| == 1 {
      ItemsLast(items, acc, rest);
    } else {
      ItemsNext(items, acc, rest);
      ItemsRoundTrip(items[1..], acc + [items[0]], rest);
      AppendHead(acc, items);
    }
  }

  lemma PrintMembersHead(ms: seq<Member>)
    requires ms != [] && ms[0].value != Undefined
    ensures PrintMembers(ms, true) == Quote(ms[0].key) + ":" + Print(ms[0].value) + PrintMembers(ms[1..], false)
  {
  }

  lemma MemberRegroup(e: string, p: string, t: string, rest: string)
    ensures ("\"" + e + "\"" + ":" + p + t) + "}" + rest == "\"" + (e + "\"" + (":" + (p + (t + "}" + rest))))
  {
  }

  /** Regrouping the text of a non-empty object's members around its first one. */
  lemma MembersText(ms: seq<Member>, rest: string)
    requires ms != [] && ms[0].value != Undefined
    ensures PrintMembers(ms, true) + "}" + rest
         == "\"" + (Escape(ms[0].key) + "\"" + (":" + (Print(ms[0].value) + (PrintMembers(ms[1..], false) + "}" + rest))))
  {
    PrintMembersHead(ms);
    MemberRegroup(Escape(ms[0].key), Print(ms[0].value), PrintMembers(ms[1..], false), rest);
  }

  lemma MembersStep(s: string, acc: seq<Member>, key: string, r1: string, v: Value, r: string)
    requires s != [] && s[0] == '"' && ParseChars(s[1..]) == Parsed(key, r1)
    requires r1 != [] && r1[0] == ':' && ParseValue(r1[1..]) == Parsed(v, r) && r != []
    ensures r[0] == ',' ==> ParseMembers(s, acc) == ParseMembers(r[1..], Put(acc, key, v))
    ensures r[0] == '}' ==> ParseMembers(s, acc) == Parsed(Obj(Put(acc, key, v)), r[1..])
  {
  }

  /** Every member of `ms` has a value other than undefined. */
  predicate Defined(ms: seq<Member>) {
    forall i :: 0 <= i < |ms| ==> ms[i].value != Undefined
  }

  lemma DefinedTail(ms: seq<Member>)
    requires ms != [] && Defined(ms)
    ensures Defined(ms[1..])
  {
    forall i | 0 <= i < |ms[1..]| ensures ms[1..][i].value != Undefined {
      assert ms[1..][i] == ms[i + 1];
    }
  }

  lemma MembersTail(ms: seq<Member>, rest: string)
    requires ms != [] && Defined(ms)
    ensures PrintMembers(ms, false) + "}" + rest == "," + (PrintMembers(ms, true) + "}" + rest)
  {
    PrintMembersLater(ms);
    Regroup(",", PrintMembers(ms, true), "}", rest);
  }

  /** Parsing the first of several printed members leaves the text of the others. */
  lemma MembersNext(ms: seq<Member>, acc: seq<Member>, rest: string)
    requires |ms| > 1 && Delimited(rest)
    requires Jsonable(ms[0].value) && Defined(ms[1..])
    ensures ParseMembers(PrintMembers(ms, true) + "}" + rest, acc)
         == ParseMembers(PrintMembers(ms[1..], true) + "}" + rest, Put(acc, ms[0].key, ms[0].value))
    decreases ms, 0
  {
    var m := ms[0];
    var tail := PrintMembers(ms[1..], false) + "}" + rest;
    var r1 := ":" + (Print(m.value) + tail);
    var s := PrintMembers(ms, true) + "}" + rest;
    MembersText(ms, rest);
    assert s[1..] == Escape(m.key) + "\"" + r1;
    EscapeRoundTrip(m.key, r1);
    assert r1[1..] == Print(m.value) + tail;
    MembersTail(ms[1..], rest);
    PrintRoundTrip(m.value, tail);
    MembersStep(s, acc, m.key, r1, m.value, tail);
  }

  /** Parsing the last printed member closes the object. */
  lemma MembersLast(ms: seq<Member>, acc: seq<Member>, rest: string)
    requires |ms| == 1 && Jsonable(ms[0].value) && Delimited(rest)
    ensures ParseMembers(PrintMembers(ms, true) + "}" + rest, acc)
         == Parsed(Obj(Put(acc, ms[0].key, ms[0].value)), rest)
    decreases ms, 0
  {
    var m := ms[0];
    var tail := PrintMembers(ms[1..], false) + "}" + rest;
    var r1 := ":" + (Print(m.value) + tail);
    var s := PrintMembers(ms, true) + "}" + rest;
    MembersText(ms, rest);
    assert s[1..] == Escape(m.key) + "\"" + r1;
    EscapeRoundTrip(m.key, r1);
    assert r1[1..] == Print(m.value) + tail;
    assert tail == "}" + rest;
    PrintRoundTrip(m.value, tail);
    MembersStep(s, acc, m.key, r1, m.value, tail);
    assert tail[1..] == rest;
  }

  /**
   * What the members parsed so far and those still to come satisfy while
   * an object is read back: the members can be printed and none of their
   * keys has been seen yet.
   */
  predicate MembersReady(ms: seq<Member>, acc: seq<Member>) {
    && DistinctKeys(ms)
    && (forall i :: 0 <= i < |ms| ==> Jsonable(ms[i].value))
    && (forall i :: 0 <= i < |ms| ==> !HasKey(acc, ms[i].key))
  }

  lemma {:induction false} MembersRoundTrip(ms: seq<Member>, acc: seq<Member>, rest: string)
    requires ms != [] && Delimited(rest) && MembersReady(ms, acc)
    ensures ParseMembers(PrintMembers(ms, true) + "}" + rest, acc) == Parsed(Obj(acc + ms), rest)
    decreases ms, 2
  {
    if |ms| == 1 {
      MembersSingle(ms, acc, rest);
    } else {
      MembersFirst(ms, acc, rest);
      MembersReadyTail(ms, acc);
      MembersRoundTrip(ms[1..], acc + [ms[0]], rest);
      AppendHead(acc, ms);
    }
  }

  lemma MembersSingle(ms: seq<Member>, acc: seq<Member>, rest: string)
    requires |ms| == 1 && Delimited(rest) && MembersReady(ms, acc)
    ensures ParseMembers(PrintMembers(ms, true) + "}" + rest, acc) == Parsed(Obj(acc + ms), rest)
    decreases ms, 1
  {
    PutFresh(acc, ms[0].key, ms[0].value);
    MembersLast(ms, acc, rest);
    AppendHead(acc, ms);
  }

  lemma MembersFirst(ms: seq<Member>, acc: seq<Member>, rest: string)
    requires |ms| > 1 && Delimited(rest) && MembersReady(ms, acc)
    ensures ParseMembers(PrintMembers(ms, true) + "}" + rest, acc)
         == ParseMembers(PrintMembers(ms[1..], true) + "}" + rest, acc + [ms[0]])
    decreases ms, 1
  {
    PutFresh(acc, ms[0].key, ms[0].value);
    JsonableDefined(ms);
    MembersNext(ms, acc, rest);
  }

  lemma MembersReadyTail(ms: seq<Member>, acc: seq<Member>)
    requires ms != [] && MembersReady(ms, acc)
    ensures MembersReady(ms[1..], acc + [ms[0]])
  {
    MembersTailJsonable(ms);
    MembersFreshTail(ms, acc);
  }

  lemma MembersTailJsonable(ms: seq<Member>)
    requires ms != [] && DistinctKeys(ms) && forall i :: 0 <= i < |ms| ==> Jsonable(ms[i].value)
    ensures DistinctKeys(ms[1..]) && forall i :: 0 <= i < |ms[1..]| ==> Jsonable(ms[1..][i].value)
  {
    DistinctTail(ms);
    forall i | 0 <= i < |ms[1..]| ensures Jsonable(ms[1..][i].value) {
      assert ms[1..][i] == ms[i + 1];
    }
  }

  lemma JsonableDefined(ms: seq<Member>)
    requires ms != [] && forall i :: 0 <= i < |ms| ==> Jsonable(ms[i].value)
    ensures Defined(ms[1..]) && Jsonable(ms[0].value)
  {
    assert Defined(ms);
    DefinedTail(ms);
  }

  /** Keys of the later members are still absent once the first one is added. */
  lemma MembersFreshTail(ms: seq<Member>, acc: seq<Member>)
    requires ms != [] && DistinctKeys(ms)
    requires forall i :: 0 <= i < |ms| ==> !HasKey(acc, ms[i].key)
    ensures forall i :: 0 <= i < |ms[1..]| ==> !HasKey(acc + [ms[0]], ms[1..][i].key)
  {
  }

  /** JSON.parse(JSON.stringify(v)) gives v back for every value JSON can carry. */
  lemma RoundTrip(v: Value)
    requires Jsonable(v)
    ensures Stringify(v).Some? && Parse(Stringify(v).value) == Ok(v)
  {
    PrintRoundTrip(v, []);
    assert Print(v) + [] == Print(v);
  }
}
