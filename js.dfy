/**
 * The slice of the JavaScript runtime that the validation engine relies on.
 *
 * Cell values are dynamically typed in the application; `Value` is the closed
 * set of shapes a cell can take.  The conversions that the ECMAScript
 * specification defines structurally (ToNumber of a boolean, ToString of an
 * array, truthiness, Number.isInteger, String.prototype.trim) are written out
 * here.  The conversions that depend on number parsing and printing, on
 * JSON.parse and on the zod library's default wording are supplied by a
 * `Host` value, so every result below holds for any behaviour they might have.
 */
module Js {

  /** A JavaScript number: a finite value (doubles approximated by reals), NaN or an infinity. */
  datatype JsNumber = Finite(r: real) | NaN | PosInf | NegInf

  /** A cell value. `Obj` stands for any plain, non-array object. */
  datatype Value =
    | Str(s: string)
    | Num(n: JsNumber)
    | Bool(b: bool)
    | Null
    | Undef
    | Arr(elems: seq<Value>)
    | Obj

  /** A value that may be absent (JavaScript's `null` or `undefined` where the source allows it). */
  datatype Option<T> = None | Some(value: T)

  /** A record: field name to value.  A missing field reads as `undefined`. */
  type Row = map<string, Value>

  /** The kinds of issue the zod schemas can raise, as far as their default wording goes. */
  datatype ZodType = ZString | ZNumber | ZNaN | ZBoolean | ZUndefined | ZNull | ZArray | ZObject

  datatype ZodIssue =
    | InvalidType(expected: ZodType, received: ZodType)
    | StringTooShort(minimum: int)
    | NumberTooSmall(minimum: int)
    | NumberTooBig(maximum: int)
    | NotInteger

  /** The foreign primitives: number parsing and printing, JSON.parse success, parseInt, zod's default messages. */
  datatype Host = Host(
    stringToNumber: string -> JsNumber,
    numberToString: JsNumber -> string,
    jsonParses: string -> bool,
    parseInt: string -> JsNumber,
    zodMessage: ZodIssue -> string)

  /** `row[key]`. */
  function Get(row: Row, key: string): Value
  {
    if key in row then row[key] else Undef
  }

  /** JavaScript's `Number(v)`. */
  function ToNumber(h: Host, v: Value): JsNumber
  {
    match v
    case Num(n) => n
    case Undef => NaN
    case Null => Finite(0.0)
    case Bool(b) => if b then Finite(1.0) else Finite(0.0)
    case Str(s) => h.stringToNumber(s)
    case Arr(_) => h.stringToNumber(ToStr(h, v))
    case Obj => NaN
  }

  /** JavaScript's `String(v)`, also what a template literal `${v}` produces. */
  function ToStr(h: Host, v: Value): string
  {
    match v
    case Str(s) => s
    case Num(n) => h.numberToString(n)
    case Bool(b) => if b then "true" else "false"
    case Null => "null"
    case Undef => "undefined"
    case Arr(e) => JoinValues(h, e, ",")
    case Obj => "[object Object]"
  }

  /** `Array.prototype.join(sep)`: null and undefined elements print as the empty string. */
  function JoinValues(h: Host, e: seq<Value>, sep: string): string
  {
    if |e| == 0 then ""
    else
      var first := if e[0].Null? || e[0].Undef? then "" else ToStr(h, e[0]);
      if |e| == 1 then first else first + sep + JoinValues(h, e[1..], sep)
  }

  /** JavaScript's `!!v`. */
  predicate Truthy(v: Value)
  {
    match v
    case Str(s) => s != ""
    case Num(n) => n != NaN && n != Finite(0.0)
    case Bool(b) => b
    case Null => false
    case Undef => false
    case Arr(_) => true
    case Obj => true
  }

  /** `Number.isInteger(n)`. */
  predicate IsInteger(n: JsNumber)
  {
    n.Finite? && n.r.Floor as real == n.r
  }

  /** `n < k` for a JavaScript number and a finite bound (false for NaN). */
  predicate Below(n: JsNumber, k: real)
  {
    match n
    case Finite(r) => r < k
    case NaN => false
    case PosInf => false
    case NegInf => true
  }

  /** `n > k` for a JavaScript number and a finite bound (false for NaN). */
  predicate Above(n: JsNumber, k: real)
  {
    match n
    case Finite(r) => r > k
    case NaN => false
    case PosInf => true
    case NegInf => false
  }

  /** The characters `String.prototype.trim` removes: WhiteSpace and LineTerminator. */
  const WhitespaceChars: set<char> := {
    '\t', '\n', '\U{000B}', '\U{000C}', '\r', ' ', '\U{00A0}', '\U{1680}',
    '\U{2000}', '\U{2001}', '\U{2002}', '\U{2003}', '\U{2004}', '\U{2005}',
    '\U{2006}', '\U{2007}', '\U{2008}', '\U{2009}', '\U{200A}',
    '\U{2028}', '\U{2029}', '\U{202F}', '\U{205F}', '\U{3000}', '\U{FEFF}'
  }

  predicate IsWhitespace(c: char)
  {
    c in WhitespaceChars
  }

  /** `s.trimStart()`. */
  function TrimStart(s: string): string
  {
    if |s| > 0 && IsWhitespace(s[0]) then TrimStart(s[1..]) else s
  }

  /** `s.trimEnd()`. */
  function TrimEnd(s: string): string
  {
    if |s| > 0 && IsWhitespace(s[|s| - 1]) then TrimEnd(s[..|s| - 1]) else s
  }

  /** `s.trim()`. */
  function Trim(s: string): string
  {
    TrimEnd(TrimStart(s))
  }

  /** `trimStart` keeps a suffix and removes exactly the leading run of whitespace. */
  lemma {:induction false} TrimStartSpec(s: string)
    ensures |TrimStart(s)| <= |s| && TrimStart(s) == s[|s| - |TrimStart(s)|..]
    ensures TrimStart(s) != [] ==> !IsWhitespace(TrimStart(s)[0])
    ensures forall i :: 0 <= i < |s| - |TrimStart(s)| ==> IsWhitespace(s[i])
  {
    if |s| > 0 && IsWhitespace(s[0]) {
      var r := TrimStart(s[1..]);
      TrimStartSpec(s[1..]);
      assert s[1..][|s| - 1 - |r|..] == s[|s| - |r|..];
      forall i | 1 <= i < |s| - |r| ensures IsWhitespace(s[i]) {
        assert s[i] == s[1..][i - 1];
      }
    }
  }

  /** A string of whitespace only trims to nothing from the start. */
  lemma {:induction false} TrimStartBlank(s: string)
    requires forall i :: 0 <= i < |s| ==> IsWhitespace(s[i])
    ensures TrimStart(s) == []
  {
    if |s| > 0 {
      assert IsWhitespace(s[0]);
      forall i | 0 <= i < |s| - 1 ensures IsWhitespace(s[1..][i]) {
        assert s[1..][i] == s[i + 1];
      }
      TrimStartBlank(s[1..]);
    }
  }

  /** `trimEnd` keeps a prefix and removes exactly the trailing run of whitespace. */
  lemma {:induction false} TrimEndSpec(s: string)
    ensures |TrimEnd(s)| <= |s| && TrimEnd(s) == s[..|TrimEnd(s)|]
    ensures TrimEnd(s) != [] ==> !IsWhitespace(TrimEnd(s)[|TrimEnd(s)| - 1])
    ensures forall i :: |TrimEnd(s)| <= i < |s| ==> IsWhitespace(s[i])
  {
    if |s| > 0 && IsWhitespace(s[|s| - 1]) {
      var r := TrimEnd(s[..|s| - 1]);
      TrimEndSpec(s[..|s| - 1]);
      assert s[..|s| - 1][..|r|] == s[..|r|];
      forall i | |r| <= i < |s| - 1 ensures IsWhitespace(s[i]) {
        assert s[i] == s[..|s| - 1][i];
      }
    }
  }

  /** A string trims to nothing exactly when every character of it is whitespace. */
  lemma TrimEmptyIff(s: string)
    ensures Trim(s) == "" <==> forall i :: 0 <= i < |s| ==> IsWhitespace(s[i])
  {
    var t := TrimStart(s);
    TrimStartSpec(s);
    TrimEndSpec(t);
    if Trim(s) == "" {
      assert t == [];
    }
    if forall i :: 0 <= i < |s| ==> IsWhitespace(s[i]) {
      TrimStartBlank(s);
    }
  }

  /** A trimmed string neither starts nor ends with whitespace. */
  lemma TrimEnds(s: string)
    ensures var r := Trim(s); r != [] ==> !IsWhitespace(r[0]) && !IsWhitespace(r[|r| - 1])
  {
    var t := TrimStart(s);
    var r := TrimEnd(t);
    TrimStartSpec(s);
    TrimEndSpec(t);
    if r != [] {
      assert r[0] == t[0] && !IsWhitespace(t[0]);
      assert !IsWhitespace(r[|r| - 1]);
    }
  }

  /** Trimming keeps the run of characters between the stripped ends. */
  lemma TrimSlice(s: string)
    ensures var start := |s| - |TrimStart(s)|;
      0 <= start && start + |Trim(s)| <= |s| && Trim(s) == s[start..start + |Trim(s)|]
  {
    var t := TrimStart(s);
    var r := TrimEnd(t);
    var start := |s| - |t|;
    TrimStartSpec(s);
    TrimEndSpec(t);
    SliceOfSlice(s, start, |r|);
  }

  lemma SliceOfSlice<T>(s: seq<T>, a: int, b: int)
    requires 0 <= a <= a + b <= |s|
    ensures s[a..][..b] == s[a..a + b]
  {
  }

  /** The decimal digits of a natural number, as `String(n)` prints it. */
  function NatToString(n: nat): (s: string)
    ensures |s| >= 1
    ensures forall i :: 0 <= i < |s| ==> '0' <= s[i] <= '9'
    decreases n
  {
    if n < 10 then [Digit(n)] else NatToString(n / 10) + [Digit(n % 10)]
  }

  function Digit(d: nat): (c: char)
    requires d < 10
    ensures '0' <= c <= '9'
  {
    "0123456789"[d]
  }

  /** Distinct numbers print differently. */
  lemma {:induction false} NatToStringInjective(a: nat, b: nat)
    requires NatToString(a) == NatToString(b)
    ensures a == b
  {
    var s := NatToString(a);
    if a < 10 && b < 10 {
      DigitInjective(a, b);
    } else if a >= 10 && b >= 10 {
      assert NatToString(a / 10) == s[..|s| - 1] == NatToString(b / 10);
      NatToStringInjective(a / 10, b / 10);
      DigitInjective(a % 10, b % 10);
    }
  }

  lemma DigitInjective(a: nat, b: nat)
    requires a < 10 && b < 10 && Digit(a) == Digit(b)
    ensures a == b
  {
  }
}
