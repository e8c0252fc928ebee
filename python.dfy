/**
 * The fragment of Python's runtime that the bot's logic depends on:
 * the values a decoded JSON payload can hold, `str()` and `repr()` of
 * those values, and exceptions as a class tag plus an `args` tuple.
 */
module Python {

  datatype Option<T> = None | Some(value: T)

  /** A computation that either returns a value or raises a Python exception. */
  datatype Result<T> = Ok(value: T) | Err(error: PyError)

  /**
   * A value produced by decoding a JSON body (`response.json()`), or the
   * `None` that a function returns when it falls off its end.
   * Dictionaries map string keys to values; Python's dict equality ignores
   * insertion order, and so does equality of Dafny maps.
   */
  datatype Value =
    | Null
    | Int(i: int)
    | Str(s: string)
    | List(items: seq<Value>)
    | Dict(fields: map<string, Value>)

  /** `d.get(key)`: the bound value, or None when the key is absent. */
  function DictGet(d: map<string, Value>, key: string): (r: Value)
    ensures key in d ==> r == d[key]
    ensures key !in d ==> r == Null
  {
    if key in d then d[key] else Null
  }

  /** `type(v).__name__` */
  function TypeName(v: Value): (r: string)
  {
    match v
    case Null => "NoneType"
    case Int(_) => "int"
    case Str(_) => "str"
    case List(_) => "list"
    case Dict(_) => "dict"
  }

  function Digit(n: nat): (c: char)
    requires n < 10
    ensures '0' <= c <= '9'
  {
    "0123456789"[n]
  }

  /** Decimal notation of a natural number, most significant digit first. */
  function NatDecimal(n: nat): (r: string)
    ensures |r| >= 1
    ensures forall k :: 0 <= k < |r| ==> '0' <= r[k] <= '9'
    decreases n
  {
    if n < 10 then [Digit(n)] else NatDecimal(n / 10) + [Digit(n % 10)]
  }

  /** `str(i)` for an int. */
  function Decimal(i: int): (r: string)
    ensures |r| >= 1
    ensures (r[0] == '-') <==> i < 0
  {
    if i < 0 then "-" + NatDecimal(-i) else NatDecimal(i)
  }

  // ---------------------------------------------------------------------
  // repr() of a str
  // ---------------------------------------------------------------------

  /** The quote `repr` chooses: double quotes only when the text holds a
      single quote and no double quote. */
  function QuoteFor(s: string): (q: char)
    ensures q == '\'' || q == '"'
    ensures q == '"' <==> '\'' in s && '"' !in s
  {
    if '\'' in s && '"' !in s then '"' else '\''
  }

  /** Characters that `repr` writes as a `\xhh` escape: the C0 controls other
      than tab, newline and carriage return, DEL, the C1 controls, the
      no-break space and the soft hyphen. */
  predicate HexEscaped(c: char)
  {
    (c < ' ' && c != '\t' && c != '\n' && c != '\r')
    || ('\U{7F}' <= c <= '\U{A0}') || c == '\U{AD}'
  }

  /** Characters that `repr` never copies literally, whatever the quote. */
  predicate NeedsEscape(c: char)
  {
    c == '\\' || c == '\t' || c == '\n' || c == '\r' || HexEscaped(c)
  }

  function HexDigit(n: nat): (c: char)
    requires n < 16
    ensures n < 10 ==> '0' <= c <= '9'
    ensures n >= 10 ==> 'a' <= c <= 'f'
  {
    if n < 10 then ('0' as int + n) as char else ('a' as int + n - 10) as char
  }

  function EscapeChar(c: char, q: char): (r: string)
    ensures |r| >= 1
    ensures r == [c] <==> !NeedsEscape(c) && c != q
  {
    if c == q || c == '\\' then ['\\', c]
    else if c == '\t' then "\\t"
    else if c == '\n' then "\\n"
    else if c == '\r' then "\\r"
    else if HexEscaped(c) then
      var n := c as int;
      ['\\', 'x', HexDigit(n / 16), HexDigit(n % 16)]
    else [c]
  }

  function EscapeAll(s: string, q: char): (r: string)
    ensures |r| >= |s|
  {
    if s == [] then [] else EscapeChar(s[0], q) + EscapeAll(s[1..], q)
  }

  /** `repr(s)` for a str. */
  function StrRepr(s: string): (r: string)
    ensures |r| >= |s| + 2
    ensures r[0] == r[|r| - 1] == QuoteFor(s)
  {
    var q := QuoteFor(s);
    [q] + EscapeAll(s, q) + [q]
  }

  /** Text with nothing to escape comes back from `repr` in single quotes. */
  lemma {:induction false} EscapeAllPlain(s: string, q: char)
    requires forall k :: 0 <= k < |s| ==> !NeedsEscape(s[k]) && s[k] != q
    ensures EscapeAll(s, q) == s
  {
    if s != [] {
      EscapeAllPlain(s[1..], q);
    }
  }

  lemma StrReprPlain(s: string)
    requires forall k :: 0 <= k < |s| ==> !NeedsEscape(s[k]) && s[k] != '\''
    ensures StrRepr(s) == "'" + s + "'"
  {
    assert '\'' !in s;
    EscapeAllPlain(s, '\'');
  }

  /** The value of a lower-case hexadecimal digit. */
  function HexValue(c: char): (n: nat)
    ensures n < 16
  {
    if '0' <= c <= '9' then c as int - '0' as int
    else if 'a' <= c <= 'f' then c as int - 'a' as int + 10
    else 0
  }

  /** Reads back the escapes that `EscapeAll` writes. */
  function Unescape(t: string): (s: string)
    decreases |t|
  {
    if t == [] then []
    else if t[0] == '\\' && |t| >= 4 && t[1] == 'x' then
      [(HexValue(t[2]) * 16 + HexValue(t[3])) as char] + Unescape(t[4..])
    else if t[0] == '\\' && |t| >= 2 then
      [if t[1] == 't' then '\t' else if t[1] == 'n' then '\n' else if t[1] == 'r' then '\r' else t[1]]
      + Unescape(t[2..])
    else [t[0]] + Unescape(t[1..])
  }

  lemma UnescapeChar(c: char, q: char, rest: string)
    requires q == '\'' || q == '"'
    ensures Unescape(EscapeChar(c, q) + rest) == [c] + Unescape(rest)
  {
    var t := EscapeChar(c, q) + rest;
    if HexEscaped(c) && c != q {
      var n := c as int;
      assert HexValue(HexDigit(n / 16)) == n / 16;
      assert HexValue(HexDigit(n % 16)) == n % 16;
      assert t[4..] == rest;
    } else if NeedsEscape(c) || c == q {
      assert t[2..] == rest;
    } else {
      assert t[1..] == rest;
    }
  }

  lemma {:induction false} UnescapeEscapeAll(s: string, q: char)
    requires q == '\'' || q == '"'
    ensures Unescape(EscapeAll(s, q)) == s
  {
    if s != [] {
      UnescapeChar(s[0], q, EscapeAll(s[1..], q));
      UnescapeEscapeAll(s[1..], q);
      assert [s[0]] + s[1..] == s;
    }
  }

  /** Reads a str back from its `repr`: the text between the quotes, with
      the escapes undone. */
  function StrUnrepr(r: string): (s: string)
  {
    if |r| < 2 then r else Unescape(r[1..|r| - 1])
  }

  /** `repr` of a str loses nothing: reading it back gives the str. */
  lemma StrReprRoundTrip(s: string)
    ensures StrUnrepr(StrRepr(s)) == s
  {
    var q := QuoteFor(s);
    var r := StrRepr(s);
    assert r[1..|r| - 1] == EscapeAll(s, q);
    UnescapeEscapeAll(s, q);
  }

  /** `repr(v)` of a value as it appears inside a list display. */
  function Repr(v: Value): (r: string)
  {
    match v
    case Null => "None"
    case Int(i) => Decimal(i)
    case Str(s) => StrRepr(s)
    case List(items) => "[" + ReprItems(items) + "]"
    case Dict(_) => "{...}"
  }

  function ReprItems(items: seq<Value>): (r: string)
    decreases items
  {
    if items == [] then ""
    else if |items| == 1 then Repr(items[0])
    else Repr(items[0]) + ", " + ReprItems(items[1..])
  }

  /** `str(v)`, which is what an f-string placeholder `{v}` produces. */
  function Display(v: Value): (r: string)
    ensures v.Str? ==> r == v.s
    ensures v.Null? ==> r == "None"
  {
    match v
    case Str(s) => s
    case _ => Repr(v)
  }

  // ---------------------------------------------------------------------
  // Exceptions
  // ---------------------------------------------------------------------

  /** The exception classes that can reach the bot's main loop: `Exc` is
      Python's `Exception`, the class of every other one here; the two last
      ones are the project's own subclasses (exceptions.py). */
  datatype ErrorClass = Exc | TypeErr | KeyErr | AttributeErr | WrongTypeErr | WrongKeyErr

  /** `issubclass(c, d)` */
  predicate IsSubclass(c: ErrorClass, d: ErrorClass)
  {
    c == d || d == Exc || (c == WrongTypeErr && d == TypeErr) || (c == WrongKeyErr && d == KeyErr)
  }

  /** An exception instance: its class and its `args` tuple. Every exception
      in this program is raised with string arguments. */
  datatype PyError = PyError(cls: ErrorClass, args: seq<string>)

  function JoinReprs(args: seq<string>): (r: string)
  {
    if args == [] then ""
    else if |args| == 1 then StrRepr(args[0])
    else StrRepr(args[0]) + ", " + JoinReprs(args[1..])
  }

  /**
   * `str(e)`: no arguments give the empty text, one argument gives that
   * argument — its `repr` for KeyError and its subclasses — and several give
   * the `repr` of the tuple.
   */
  function ExcStr(e: PyError): (r: string)
    ensures |e.args| == 1 && !IsSubclass(e.cls, KeyErr) ==> r == e.args[0]
    ensures |e.args| == 1 && IsSubclass(e.cls, KeyErr) ==> r == StrRepr(e.args[0])
  {
    if |e.args| == 0 then ""
    else if |e.args| == 1 then
      if IsSubclass(e.cls, KeyErr) then StrRepr(e.args[0]) else e.args[0]
    else "(" + JoinReprs(e.args) + ")"
  }
}
