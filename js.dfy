/** The fragment of JavaScript's value semantics the bot's code relies on:
    truthiness, property access, strict equality and conversion to string. */
module Js {

  /** A JavaScript value. Numbers are restricted to integers (the source only
      ever handles ids, counts and scores); objects are property maps. */
  datatype Value =
    | Undefined
    | Null
    | Bool(b: bool)
    | Num(n: int)
    | Str(s: string)
    | Obj(fields: map<string, Value>)

  /** A plain object, as a map from property name to value. */
  type Record = map<string, Value>

  /** Why a computation threw (or why an Rx stream ended in an error). */
  datatype Fault =
    | TypeError                  // property of undefined/null, or a non-observable
    | AssertionError             // a `code` expectation in dispatcher.js failed
    | InvalidVoteInformation     // commander.js `_parseVote`
    | InvalidScoreInformation    // commander.js `_updateUserScore`
    | InvalidUser                // score-keeper.js `updateScore`
    | EmptyBatch                 // a cache batch-save of an empty list

  /** A computation that either yields a value or throws. Usable with `:-`. */
  datatype Outcome<+T> = Ok(value: T) | Throws(fault: Fault) {
    predicate IsFailure() { Throws? }
    function PropagateFailure<U>(): Outcome<U> requires Throws? { Throws(fault) }
    function Extract(): T requires Ok? { value }
  }

  /** `!!v` in JavaScript. */
  predicate Truthy(v: Value) {
    match v
    case Undefined => false
    case Null => false
    case Bool(b) => b
    case Num(n) => n != 0
    case Str(s) => s != ""
    case Obj(_) => true
  }

  /** Reading a property that may be missing from a record. */
  function Prop(r: Record, key: string): (v: Value)
    ensures key !in r ==> v == Undefined
  {
    if key in r then r[key] else Undefined
  }

  /** `v.key`: throws on `undefined` and `null`; primitives have none of the
      properties the bot reads, so they yield `undefined`. */
  function Get(v: Value, key: string): (r: Outcome<Value>)
    ensures r.Throws? <==> v.Undefined? || v.Null?
    ensures r.Ok? && !v.Obj? ==> r.value == Undefined
    ensures v.Obj? ==> r == Ok(Prop(v.fields, key))
  {
    match v
    case Undefined => Throws(TypeError)
    case Null => Throws(TypeError)
    case Obj(m) => Ok(Prop(m, key))
    case _ => Ok(Undefined)
  }

  /** `v.key` on a value already known to be neither `undefined` nor `null`. */
  function Field(v: Value, key: string): (r: Value)
    ensures !v.Undefined? && !v.Null? ==> Get(v, key) == Ok(r)
  {
    match v
    case Obj(m) => Prop(m, key)
    case _ => Undefined
  }

  /** `a === b`. Two object values are never the same reference here. */
  predicate StrictEquals(a: Value, b: Value) {
    a == b && !a.Obj?
  }

  /** The decimal digit character of `d`. */
  function Digit(d: int): (c: char)
    requires 0 <= d < 10
    ensures '0' <= c <= '9'
  {
    "0123456789"[d]
  }

  /** `String(n)` for an integer. */
  function Decimal(n: int): (s: string)
    ensures |s| > 0
    ensures n >= 0 ==> '0' <= s[0] <= '9'
    ensures n < 0 ==> s[0] == '-'
    decreases if n < 0 then 1 - n else n
  {
    if n < 0 then "-" + Decimal(-n)
    else if n < 10 then [Digit(n)]
    else Decimal(n / 10) + [Digit(n % 10)]
  }

  /** Value of a digit character. */
  function DigitValue(c: char): int
    requires '0' <= c <= '9'
  {
    c as int - '0' as int
  }

  predicate AllDigits(s: string) {
    forall i :: 0 <= i < |s| ==> '0' <= s[i] <= '9'
  }

  /** `parseInt(s, 10)` for a string made of decimal digits only. */
  function ParseDigits(s: string): (n: nat)
    requires AllDigits(s)
  {
    if s == [] then 0 else 10 * ParseDigits(s[..|s| - 1]) + DigitValue(s[|s| - 1])
  }

  /** `parseInt(s, 10)` for an optionally signed digit string. */
  function ParseDecimal(s: string): int
    requires s != [] && (AllDigits(s) || (s[0] == '-' && AllDigits(s[1..])))
  {
    if s[0] == '-' then 0 - ParseDigits(s[1..]) as int else ParseDigits(s) as int
  }

  lemma {:induction false} DecimalOfNatIsDigits(n: nat)
    ensures AllDigits(Decimal(n))
    decreases n
  {
    if n >= 10 {
      DecimalOfNatIsDigits(n / 10);
    }
  }

  /** Reading back a number written by `Decimal` gives the number. */
  lemma {:induction false} ParseDecimalOfDecimal(n: int)
    ensures var s := Decimal(n); s != [] && (AllDigits(s) || (s[0] == '-' && AllDigits(s[1..])))
    ensures ParseDecimal(Decimal(n)) == n
    decreases if n < 0 then 1 - n else n
  {
    if n < 0 {
      var d := Decimal(-n);
      ParseDigitsOfDecimal(-n);
      assert Decimal(n) == "-" + d;
      assert ("-" + d)[1..] == d;
    } else {
      DecimalOfNatIsDigits(n);
      ParseDigitsOfDecimal(n);
    }
  }

  lemma {:induction false} ParseDigitsOfDecimal(n: nat)
    ensures AllDigits(Decimal(n)) && ParseDigits(Decimal(n)) == n
    decreases n
  {
    DecimalOfNatIsDigits(n);
    if n >= 10 {
      ParseDigitsOfDecimal(n / 10);
      var s := Decimal(n);
      assert s[..|s| - 1] == Decimal(n / 10);
    }
  }

  /** `Decimal` never writes two numbers the same way. */
  lemma DecimalInjective(a: int, b: int)
    requires Decimal(a) == Decimal(b)
    ensures a == b
  {
    ParseDecimalOfDecimal(a);
    ParseDecimalOfDecimal(b);
  }

  /** `String(v)`, as template literals and string concatenation apply it. */
  function ToStr(v: Value): (s: string)
    ensures v.Str? ==> s == v.s
    ensures v.Undefined? ==> s == "undefined"
  {
    match v
    case Undefined => "undefined"
    case Null => "null"
    case Bool(b) => if b then "true" else "false"
    case Num(n) => Decimal(n)
    case Str(s) => s
    case Obj(_) => "[object Object]"
  }
}
