/** Python's text conversions of the values the backends format: `str(v)`,
    which is `repr(v)` for everything but a string, and the `repr` of
    strings, integers, lists and dicts. */
module PyText {
  import opened Wrappers
  import opened Strs
  import opened Values

  /** The decimal digits of a natural number, most significant first. */
  function DigitsOf(n: nat): (r: string)
    ensures |r| >= 1
    ensures forall i :: 0 <= i < |r| ==> '0' <= r[i] <= '9'
    decreases n
  {
    var d := ['0' + (n % 10) as char];
    if n < 10 then d else DigitsOf(n / 10) + d
  }

  /** The number a string of decimal digits denotes. */
  function DigitsValue(s: string): nat
    decreases |s|
  {
    if s == [] then 0
    else DigitsValue(s[..|s| - 1]) * 10 + DigitValue(s[|s| - 1])
  }

  function DigitValue(c: char): nat {
    if '0' <= c <= '9' then c as int - '0' as int else 0
  }

  /** Reading the digits back gives the number. */
  lemma {:induction false} DigitsRoundTrip(n: nat)
    ensures DigitsValue(DigitsOf(n)) == n
    decreases n
  {
    var d := ['0' + (n % 10) as char];
    if n >= 10 {
      DigitsRoundTrip(n / 10);
      var s := DigitsOf(n / 10) + d;
      assert s[..|s| - 1] == DigitsOf(n / 10);
    }
  }

  /** `str(i)`: a minus sign for a negative number, then its digits. */
  function IntToString(i: int): (r: string)
    ensures |r| >= 1
    ensures i < 0 <==> r[0] == '-'
    ensures i < 0 ==> DigitsValue(r[1..]) == -i
    ensures i >= 0 ==> DigitsValue(r) == i
  {
    DigitsRoundTrip(if i < 0 then -i else i);
    if i < 0 then
      var r := "-" + DigitsOf(-i);
      assert r[1..] == DigitsOf(-i);
      r
    else DigitsOf(i)
  }

  /** The lower-case hexadecimal digit of `d`. */
  function HexDigit(d: nat): (c: char)
    requires d < 16
    ensures HexValue(c) == d
  {
    if d < 10 then ('0' as int + d) as char else ('a' as int + d - 10) as char
  }

  /** Characters `repr` writes as `\xhh`: the C0 controls other than tab,
      newline and return, DEL, the C1 controls, the no-break space and the
      soft hyphen. */
  predicate HexEscaped(c: char) {
    (c < ' ' && c != '\t' && c != '\n' && c != '\r') || (0x7f <= c as int <= 0xa0) || c as int == 0xad
  }

  /** How `repr` writes one character inside a string delimited by `q`. */
  function EscapeChar(c: char, q: char): (r: string)
    ensures |r| >= 1
    ensures r[0] == '\\' || (r == [c] && c != '\\' && c != q)
  {
    if c == '\\' || c == q then ['\\', c]
    else if c == '\t' then "\\t"
    else if c == '\n' then "\\n"
    else if c == '\r' then "\\r"
    else if HexEscaped(c) then ['\\', 'x', HexDigit(c as int / 16), HexDigit(c as int % 16)]
    else [c]
  }

  function Escape(s: string, q: char): string
    decreases |s|
  {
    if s == [] then "" else EscapeChar(s[0], q) + Escape(s[1..], q)
  }

  /** The quote `repr` delimits a string with: a double quote when the
      string has a single quote and no double quote, a single quote otherwise. */
  function QuoteOf(s: string): (q: char)
    ensures q == '\'' || q == '"'
    ensures q == '"' <==> '\'' in s && '"' !in s
  {
    if '\'' in s && '"' !in s then '"' else '\''
  }

  /** `repr(s)` of a string. */
  function StrRepr(s: string): (r: string)
    ensures |r| >= 2 && r[0] == r[|r| - 1] == QuoteOf(s)
  {
    var q := QuoteOf(s);
    [q] + Escape(s, q) + [q]
  }

  function HexValue(c: char): nat {
    if '0' <= c <= '9' then c as int - '0' as int
    else if 'a' <= c <= 'f' then c as int - 'a' as int + 10
    else 0
  }

  /** Reads the escapes `repr` writes back into the characters they stand for;
      None for a dangling backslash. */
  function Unescape(t: string): Option<string>
    decreases |t|
  {
    if t == [] then Some("")
    else
      var (c, n) :=
        if t[0] != '\\' then (t[0], 1)
        else if |t| < 2 then ('\\', 0)
        else if t[1] == 't' then ('\t', 2)
        else if t[1] == 'n' then ('\n', 2)
        else if t[1] == 'r' then ('\r', 2)
        else if t[1] == 'x' then
          (if |t| < 4 then ('\\', 0) else ((HexValue(t[2]) * 16 + HexValue(t[3])) as char, 4))
        else (t[1], 2);
      if n == 0 then None
      else match Unescape(t[n..])
        case None => None
        case Some(rest) => Some([c] + rest)
  }

  /** The string a string literal in `repr` form denotes. */
  function Unrepr(r: string): Option<string> {
    if |r| >= 2 && r[0] == r[|r| - 1] && (r[0] == '\'' || r[0] == '"') then Unescape(r[1..|r| - 1])
    else None
  }

  /** Unescaping undoes the escape of one character in front of any text. */
  lemma UnescapeChar(c: char, q: char, rest: string)
    requires q == '\'' || q == '"'
    ensures Unescape(EscapeChar(c, q) + rest) ==
      match Unescape(rest) case None => None case Some(u) => Some([c] + u)
  {
    var e := EscapeChar(c, q);
    var t := e + rest;
    assert t[|e|..] == rest;
  }

  /** Escaping with either quote loses nothing. */
  lemma {:induction false} EscapeRoundTrip(s: string, q: char)
    requires q == '\'' || q == '"'
    ensures Unescape(Escape(s, q)) == Some(s)
    decreases |s|
  {
    if s != [] {
      EscapeRoundTrip(s[1..], q);
      UnescapeChar(s[0], q, Escape(s[1..], q));
      assert [s[0]] + s[1..] == s;
    }
  }

  /** The body of a string's `repr` has no unescaped delimiter, so the
      literal ends at its closing quote. */
  lemma {:induction false} EscapeKeepsQuote(s: string, q: char, i: nat)
    requires q == '\'' || q == '"'
    requires i < |Escape(s, q)| && Escape(s, q)[i] == q
    ensures i > 0 && Escape(s, q)[i - 1] == '\\'
    decreases |s|
  {
    var e := EscapeChar(s[0], q);
    assert Escape(s, q) == e + Escape(s[1..], q);
    if i >= |e| {
      EscapeKeepsQuote(s[1..], q, i - |e|);
    }
  }

  /** `repr` of a string is a literal denoting that string. */
  lemma StrReprRoundTrip(s: string)
    ensures Unrepr(StrRepr(s)) == Some(s)
  {
    var q := QuoteOf(s);
    var r := StrRepr(s);
    assert r[1..|r| - 1] == Escape(s, q);
    EscapeRoundTrip(s, q);
  }

  /** `repr(v)`: `None`, `True`/`False`, the digits of an integer, a quoted
      string, `[a, b]` for a list and `{'k': v}` for a dict, with the items
      in their `repr`. */
  function Repr(v: Value): (r: string)
    ensures |r| >= 1
    ensures v.Str? ==> r == StrRepr(v.s)
    ensures v.List? ==> r[0] == '[' && r[|r| - 1] == ']'
    ensures v.Obj? ==> r[0] == '{' && r[|r| - 1] == '}'
    ensures v.Int? ==> r == IntToString(v.i)
    decreases v
  {
    match v
    case Null => "None"
    case Bool(b) => if b then "True" else "False"
    case Int(i) => IntToString(i)
    case Str(s) => StrRepr(s)
    case List(items) =>
      "[" + Join(seq(|items|, k requires 0 <= k < |items| => Repr(items[k])), ", ") + "]"
    case Obj(fields) =>
      "{" + Join(seq(|fields|, k requires 0 <= k < |fields| => StrRepr(fields[k].0) + ": " + Repr(fields[k].1)), ", ") + "}"
  }

  /** `str(v)`, which is also what `"{}".format(v)` gives: a string is
      itself, anything else its `repr`. */
  function PyStr(v: Value): (r: string)
    ensures v.Str? ==> r == v.s
    ensures !v.Str? ==> r == Repr(v)
  {
    if v.Str? then v.s else Repr(v)
  }

  /** A list of strings prints its items in single quotes. */
  lemma ListReprExample()
    ensures PyStr(List([Str("a")])) == "['a']"
  {
    assert Escape("a", '\'') == "a";
    assert Repr(Str("a")) == "'a'";
    var items := [Str("a")];
    assert seq(|items|, k requires 0 <= k < |items| => Repr(items[k])) == ["'a'"];
  }

  /** A dict prints its keys quoted. */
  lemma DictReprExample()
    ensures PyStr(Obj([("k", Int(1))])) == "{'k': 1}"
  {
    assert Escape("k", '\'') == "k";
    assert StrRepr("k") == "'k'";
    assert DigitsOf(1) == "1";
    assert Repr(Int(1)) == "1";
    assert StrRepr("k") + ": " + Repr(Int(1)) == "'k': 1";
    var fields := [("k", Int(1))];
    assert seq(|fields|, k requires 0 <= k < |fields| => StrRepr(fields[k].0) + ": " + Repr(fields[k].1)) == ["'k': 1"];
  }

  /** A character `repr` writes as itself inside a string delimited by `q`. */
  predicate PlainChar(c: char, q: char) {
    c != '\\' && c != q && c != '\t' && c != '\n' && c != '\r' && !HexEscaped(c)
  }

  /** A string of plain characters is its own escape. */
  lemma {:induction false} EscapePlain(s: string, q: char)
    requires forall i :: 0 <= i < |s| ==> PlainChar(s[i], q)
    ensures Escape(s, q) == s
    decreases |s|
  {
    if s != [] {
      EscapePlain(s[1..], q);
      assert [s[0]] + s[1..] == s;
    }
  }

  /** A string of characters plain under its own quote is written between
      two of those quotes as it is. */
  lemma StrReprPlain(s: string)
    requires forall i :: 0 <= i < |s| ==> PlainChar(s[i], QuoteOf(s))
    ensures StrRepr(s) == [QuoteOf(s)] + s + [QuoteOf(s)]
  {
    EscapePlain(s, QuoteOf(s));
  }

  /** A string holding a single quote and no double quote is delimited by
      double quotes. */
  lemma QuoteReprExample()
    ensures Repr(Str("it's")) == "\"it's\""
  {
    var s := "it's";
    assert QuoteOf(s) == '"';
    assert forall i :: 0 <= i < |s| ==> PlainChar(s[i], '"');
    StrReprPlain(s);
  }
}
