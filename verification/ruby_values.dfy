/** Ruby's run-time values, as far as the client library looks at them, and the
    few core-library operations it applies to them: `to_s` (string
    interpolation), `Array#join`, `Integer#to_s`, `String#downcase` and
    `#upcase`, `#[]`, `#length` and `Array#first`. The library type-checks its
    arguments at run time with `instance_of?`, so its inputs are modelled as
    values of this one type. */
module RubyValues {
  import opened Wrappers

  /** A Ruby object. `Opaque` stands for an object of a class the library never
      looks inside (a Float such as a latitude, say); `text` is what its
      `to_s` returns. A `Hash` is a map from keys to values. */
  datatype Value =
    | Nil
    | Bool(b: bool)
    | Int(i: int)
    | Str(s: string)
    | Sym(name: string)
    | Arr(elems: seq<Value>)
    | Hash(m: map<Value, Value>)
    | Opaque(text: string)

  /** The exceptions the modelled code raises itself (`OptionsError`) or that
      Ruby raises when a value of the wrong class reaches a method call. */
  datatype Error =
    | OptionsError(message: string)
    | NoMethodError(name: string)
    | TypeError(message: string)
    | ParseError

  /** The body of an HTTP response as `FastJsonparser.parse` sees it: either a
      JSON text, standing for the value it parses to (object keys become
      Symbols), or a text that is not JSON. */
  datatype Body = Json(value: Value) | NotJson

  /** `FastJsonparser.parse(body)`. */
  function ParseJson(body: Body): (r: Result<Value, Error>)
    ensures r.Success? <==> body.Json?
    ensures r.Failure? ==> r.error == ParseError
  {
    match body
    case Json(value) => Success(value)
    case NotJson => Failure(ParseError)
  }

  const NO_SYMBOL_CONVERSION := "no implicit conversion of Symbol into Integer"

  /** Everything but `nil` and `false` counts as true in a condition, in `||`
      and in `||=`. */
  predicate Truthy(v: Value) {
    v != Nil && v != Bool(false)
  }

  /** `Hash#[]`: the value stored under `key`, or nil. */
  function Get(m: map<Value, Value>, key: Value): Value {
    if key in m then m[key] else Nil
  }

  // ---------------------------------------------------------------------------
  // Integer#to_s and reading a decimal back

  predicate IsDigit(c: char) {
    '0' <= c <= '9'
  }

  predicate AllDigits(s: string) {
    forall k :: 0 <= k < |s| ==> IsDigit(s[k])
  }

  function DigitChar(d: nat): char
    requires d < 10
  {
    ('0' as int + d) as char
  }

  /** The decimal digits of `n`, most significant first, without leading zeros. */
  function NatToDecimal(n: nat): (r: string)
    ensures |r| > 0 && AllDigits(r)
    decreases n
  {
    if n < 10 then [DigitChar(n)] else NatToDecimal(n / 10) + [DigitChar(n % 10)]
  }

  /** `Integer#to_s`: a minus sign for a negative number, then the digits of
      its magnitude. */
  function IntToDecimal(i: int): (r: string)
    ensures |r| > 0
    ensures forall k :: 0 <= k < |r| ==> IsDigit(r[k]) || (k == 0 && r[k] == '-' && i < 0)
  {
    if i < 0 then "-" + NatToDecimal(-i) else NatToDecimal(i)
  }

  /** The number a string of digits denotes. */
  function DigitsValue(s: string): nat
    requires AllDigits(s)
    decreases |s|
  {
    if |s| == 0 then 0 else DigitsValue(s[..|s| - 1]) * 10 + (s[|s| - 1] as int - '0' as int)
  }

  /** Reads a decimal integer: an optional minus sign and one or more digits. */
  function ParseDecimal(s: string): Option<int> {
    if |s| > 1 && s[0] == '-' && AllDigits(s[1..]) then Some(-(DigitsValue(s[1..]) as int))
    else if |s| > 0 && AllDigits(s) then Some(DigitsValue(s))
    else None
  }

  lemma {:induction false} NatDecimalRoundTrip(n: nat)
    ensures DigitsValue(NatToDecimal(n)) == n
  {
    if n >= 10 {
      var s := NatToDecimal(n);
      assert s[..|s| - 1] == NatToDecimal(n / 10);
      NatDecimalRoundTrip(n / 10);
    }
  }

  /** Reading back what `Integer#to_s` wrote gives the integer again. */
  lemma {:induction false} DecimalRoundTrip(i: int)
    ensures ParseDecimal(IntToDecimal(i)) == Some(i)
  {
    if i < 0 {
      NatDecimalRoundTrip(-i);
      assert IntToDecimal(i)[1..] == NatToDecimal(-i);
    } else {
      NatDecimalRoundTrip(i);
    }
  }

  /** The text `Integer#to_s` writes: digits without a leading zero (a lone
      "0" aside), after a minus sign only when a non-zero digit follows. */
  predicate CanonicalDecimal(s: string) {
    if |s| > 0 && s[0] == '-' then |s| > 1 && AllDigits(s[1..]) && s[1] != '0'
    else |s| > 0 && AllDigits(s) && (|s| == 1 || s[0] != '0')
  }

  /** The first digit of `n` is a zero exactly when `n` is zero. */
  lemma {:induction false} NatDecimalLeadingDigit(n: nat)
    ensures NatToDecimal(n)[0] == '0' <==> n == 0
  {
    if n >= 10 {
      assert NatToDecimal(n)[0] == NatToDecimal(n / 10)[0];
      NatDecimalLeadingDigit(n / 10);
    }
  }

  /** `Integer#to_s` writes no leading zero and never "-0". */
  lemma DecimalCanonical(i: int)
    ensures CanonicalDecimal(IntToDecimal(i))
  {
    if i < 0 {
      NatDecimalLeadingDigit(-i);
      assert IntToDecimal(i)[1..] == NatToDecimal(-i);
    } else {
      NatDecimalLeadingDigit(i);
    }
  }

  // ---------------------------------------------------------------------------
  // String#downcase and String#upcase (ASCII letters)

  function DowncaseChar(c: char): char {
    if 'A' <= c <= 'Z' then (c as int + 32) as char else c
  }

  function UpcaseChar(c: char): char {
    if 'a' <= c <= 'z' then (c as int - 32) as char else c
  }

  function Downcase(s: string): string {
    seq(|s|, k requires 0 <= k < |s| => DowncaseChar(s[k]))
  }

  function Upcase(s: string): string {
    seq(|s|, k requires 0 <= k < |s| => UpcaseChar(s[k]))
  }

  /** Lower-casing leaves a text without capital letters as it is. */
  lemma DowncaseOfLower(s: string)
    requires forall k :: 0 <= k < |s| ==> !('A' <= s[k] <= 'Z')
    ensures Downcase(s) == s
  {
  }

  /** `recv.downcase`: Strings and Symbols have it, nothing else does. */
  function DowncaseValue(recv: Value): Result<Value, Error> {
    match recv
    case Str(s) => Success(Str(Downcase(s)))
    case Sym(name) => Success(Sym(Downcase(name)))
    case _ => Failure(NoMethodError("downcase"))
  }

  // ---------------------------------------------------------------------------
  // to_s, inspect and Array#join

  /** What the model renders for `Hash#inspect`, whose real text depends on the
      insertion order of the keys. */
  const HASH_INSPECT := "{...}"

  /** `to_s`, which string interpolation `"#{v}"` applies. */
  function ToS(v: Value): string {
    match v
    case Nil => ""
    case Bool(b) => if b then "true" else "false"
    case Int(i) => IntToDecimal(i)
    case Str(s) => s
    case Sym(name) => name
    case Opaque(text) => text
    case Arr(_) => Inspect(v)
    case Hash(_) => Inspect(v)
  }

  /** `inspect`, which `Array#to_s` applies to the elements. */
  function Inspect(v: Value): string
    decreases v, 1
  {
    match v
    case Nil => "nil"
    case Bool(b) => if b then "true" else "false"
    case Int(i) => IntToDecimal(i)
    case Str(s) => "\"" + s + "\""
    case Sym(name) => ":" + name
    case Opaque(text) => text
    case Arr(elems) => "[" + InspectAll(elems) + "]"
    case Hash(_) => HASH_INSPECT
  }

  function InspectAll(elems: seq<Value>): string
    decreases elems, 0
  {
    if |elems| == 0 then ""
    else if |elems| == 1 then Inspect(elems[0])
    else Inspect(elems[0]) + ", " + InspectAll(elems[1..])
  }

  /** How `Array#join` renders one element: a nested Array is joined with the
      same separator, anything else by its `to_s`. */
  function JoinText(v: Value, sep: string): string
    decreases v, 1
  {
    match v
    case Arr(elems) => Join(elems, sep)
    case _ => ToS(v)
  }

  /** `Array#join(sep)`. */
  function Join(elems: seq<Value>, sep: string): string
    decreases elems, 0
  {
    if |elems| == 0 then ""
    else if |elems| == 1 then JoinText(elems[0], sep)
    else JoinText(elems[0], sep) + sep + Join(elems[1..], sep)
  }

  /** Ruby Strings holding `names`. */
  function Strs(names: seq<string>): (r: seq<Value>)
    ensures |r| == |names|
    ensures forall k :: 0 <= k < |names| ==> r[k] == Str(names[k])
  {
    seq(|names|, k requires 0 <= k < |names| => Str(names[k]))
  }

  /** `names` concatenated with `sep` between neighbours. */
  function JoinNames(names: seq<string>, sep: string): string {
    if |names| == 0 then ""
    else if |names| == 1 then names[0]
    else names[0] + sep + JoinNames(names[1..], sep)
  }

  /** Joining an Array of Strings concatenates their texts with the separator
      between neighbours. */
  lemma {:induction false} JoinStrs(names: seq<string>, sep: string)
    ensures Join(Strs(names), sep) == JoinNames(names, sep)
  {
    if |names| > 1 {
      assert Strs(names)[1..] == Strs(names[1..]);
      JoinStrs(names[1..], sep);
    }
  }

  /** `Array#compact`: the elements that are not nil. */
  function Compact(elems: seq<Value>): (r: seq<Value>)
    ensures forall k :: 0 <= k < |r| ==> r[k] != Nil
    ensures forall v :: v in elems && v != Nil ==> v in r
  {
    if |elems| == 0 then []
    else if elems[0] == Nil then Compact(elems[1..])
    else [elems[0]] + Compact(elems[1..])
  }

  // ---------------------------------------------------------------------------
  // Reading a comma-joined list back

  /** `s` cut at every `sep`, empty pieces kept: how the receiving end reads a
      list that was sent joined by `sep`. */
  function Split(s: string, sep: char): (r: seq<string>)
    ensures |r| > 0
    decreases |s|
  {
    if |s| == 0 then [""]
    else
      var rest := Split(s[1..], sep);
      if s[0] == sep then [""] + rest else [[s[0]] + rest[0]] + rest[1..]
  }

  /** The `to_s` of each element. */
  function Texts(elems: seq<Value>): (r: seq<string>)
    ensures |r| == |elems|
    ensures forall k :: 0 <= k < |elems| ==> r[k] == ToS(elems[k])
  {
    seq(|elems|, k requires 0 <= k < |elems| => ToS(elems[k]))
  }

  /** No element is an Array or a Hash (whose real text is not modelled) and
      no element's text contains `sep`, so the joined text can be cut back
      into the elements' texts. */
  predicate JoinsBack(elems: seq<Value>, sep: char) {
    forall k :: 0 <= k < |elems| ==> !elems[k].Arr? && !elems[k].Hash? && sep !in ToS(elems[k])
  }

  lemma {:induction false} SplitWithoutSeparator(a: string, sep: char)
    requires sep !in a
    ensures Split(a, sep) == [a]
  {
    if |a| > 0 {
      SplitWithoutSeparator(a[1..], sep);
      assert [a[0]] + a[1..] == a;
    }
  }

  lemma {:induction false} SplitAfterPiece(a: string, b: string, sep: char)
    requires sep !in a
    ensures Split(a + [sep] + b, sep) == [a] + Split(b, sep)
  {
    var s := a + [sep] + b;
    if |a| == 0 {
      assert s[1..] == b;
    } else {
      assert s[1..] == a[1..] + [sep] + b;
      SplitAfterPiece(a[1..], b, sep);
      assert [a[0]] + a[1..] == a;
    }
  }

  /** Joining with a one-character separator and splitting at it again gives
      back the elements' texts, when no text contains the separator. */
  lemma {:induction false} SplitJoin(elems: seq<Value>, sep: char)
    requires |elems| > 0 && JoinsBack(elems, sep)
    ensures Split(Join(elems, [sep]), sep) == Texts(elems)
  {
    if |elems| == 1 {
      SplitWithoutSeparator(ToS(elems[0]), sep);
    } else {
      SplitAfterPiece(ToS(elems[0]), Join(elems[1..], [sep]), sep);
      assert JoinsBack(elems[1..], sep) by {
        forall k | 0 <= k < |elems[1..]|
          ensures !elems[1..][k].Arr? && sep !in ToS(elems[1..][k])
        {
          assert elems[1..][k] == elems[k + 1];
        }
      }
      SplitJoin(elems[1..], sep);
      assert Texts(elems) == [ToS(elems[0])] + Texts(elems[1..]);
    }
  }

  // ---------------------------------------------------------------------------
  // Element access

  function Pow2(n: nat): (r: nat)
    ensures r > 0
  {
    if n == 0 then 1 else 2 * Pow2(n - 1)
  }

  /** `recv.length`. */
  function Length(recv: Value): Result<int, Error> {
    match recv
    case Arr(elems) => Success(|elems|)
    case Str(s) => Success(|s|)
    case Sym(name) => Success(|name|)
    case Hash(m) => Success(|m|)
    case _ => Failure(NoMethodError("length"))
  }

  /** Receivers that answer `recv[i]` for an Integer `i`. */
  predicate Indexable(recv: Value) {
    recv.Arr? || recv.Str? || recv.Sym? || recv.Hash? || recv.Int?
  }

  /** `recv[i]` for a non-negative Integer `i`: an element (nil past the end),
      a one-character String, the value stored under the key `i`, or bit `i`
      of an Integer. */
  function Index(recv: Value, i: nat): (r: Result<Value, Error>)
    ensures r.Success? <==> Indexable(recv)
  {
    match recv
    case Arr(elems) => Success(if i < |elems| then elems[i] else Nil)
    case Str(s) => Success(if i < |s| then Str([s[i]]) else Nil)
    case Sym(name) => Success(if i < |name| then Str([name[i]]) else Nil)
    case Hash(m) => Success(Get(m, Int(i)))
    case Int(n) => Success(Int(n / Pow2(i) % 2))
    case _ => Failure(NoMethodError("[]"))
  }

  /** `recv[:key]`: only a Hash answers with a value (nil when the key is
      missing); Arrays, Strings, Symbols and Integers reject a Symbol index. */
  function Fetch(recv: Value, key: string): (r: Result<Value, Error>)
    ensures r.Success? <==> recv.Hash?
  {
    match recv
    case Hash(m) => Success(Get(m, Sym(key)))
    case Arr(_) => Failure(TypeError(NO_SYMBOL_CONVERSION))
    case Str(_) => Failure(TypeError(NO_SYMBOL_CONVERSION))
    case Sym(_) => Failure(TypeError(NO_SYMBOL_CONVERSION))
    case Int(_) => Failure(TypeError(NO_SYMBOL_CONVERSION))
    case _ => Failure(NoMethodError("[]"))
  }

  /** `Array#first`: the first element, or nil for an empty Array. */
  function First(elems: seq<Value>): Value {
    if |elems| == 0 then Nil else elems[0]
  }
}
