/**
 * Ruby values as the library sees them: the decoded JSON of a webhook, the
 * symbol-keyed option hashes callers pass in, and the few conversions
 * (`to_s`, `to_i`, truthiness, `hash[key]`) the library applies to them.
 */
module Values {

  datatype Option<+T> = None | Some(value: T)

  /** The exceptions the library raises or lets through. */
  datatype Error =
    | NoMethodError(name: string)      // a method called on nil or on a receiver without it
    | TypeError(message: string)
    | ArgumentError(message: string)   // `raise ArgumentError.new(...)`
    | RuntimeError(message: string)    // bare `raise` or `raise "..."`
    | LocalJumpError(reason: string)
    | External(name: string)           // raised by a collaborator: HTTP, OAuth2, JSON, a handler
    | Unsupported(what: string)        // a Ruby behaviour this model does not cover

  datatype Result<+T> = Ok(value: T) | Err(error: Error) {
    predicate IsFailure() { Err? }

    function PropagateFailure<U>(): Result<U>
      requires Err?
    {
      Err(error)
    }

    function Extract(): T
      requires Ok?
    {
      value
    }
  }

  function MapResult<T, U>(r: Result<T>, f: T -> U): Result<U>
  {
    match r
    case Ok(v) => Ok(f(v))
    case Err(e) => Err(e)
  }

  /** A hash key: Ruby tells `'name'` and `:name` apart. */
  datatype Key = StrKey(name: string) | SymKey(name: string)

  /** A Ruby value of the shapes JSON decoding and callers produce (no floats). */
  datatype Value =
    | Nil
    | Bool(b: bool)
    | Int(i: int)
    | Str(s: string)
    | List(items: seq<Value>)
    | Hash(entries: map<Key, Value>)

  /** Ruby truthiness: only `nil` and `false` are false. */
  predicate Truthy(v: Value)
  {
    !(v.Nil? || v == Bool(false))
  }

  /** `a || b` on Ruby values. */
  function Or(a: Value, b: Value): (r: Value)
    ensures Truthy(a) ==> r == a
    ensures !Truthy(a) ==> r == b
  {
    if Truthy(a) then a else b
  }

  predicate IsSubstring(t: string, s: string)
  {
    exists i, j :: 0 <= i <= j <= |s| && s[i..j] == t
  }

  /**
   * `v[k]` for a string or symbol `k`: a hash lookup answers nil for a
   * missing key; a string answers the substring when it occurs; nil and
   * booleans have no `[]`; integers and arrays refuse a non-integer index.
   */
  function Index(v: Value, k: Key): Result<Value>
  {
    match v
    case Hash(m) => Ok(if k in m then m[k] else Nil)
    case Str(s) =>
      if k.SymKey? then Err(TypeError("no implicit conversion of Symbol into Integer"))
      else if IsSubstring(k.name, s) then Ok(Str(k.name)) else Ok(Nil)
    case Nil => Err(NoMethodError("[]"))
    case Bool(_) => Err(NoMethodError("[]"))
    case Int(_) => Err(TypeError("no implicit conversion into Integer"))
    case List(_) => Err(TypeError("no implicit conversion into Integer"))
  }

  /** `v[k1][k2]`: the second lookup is made on whatever the first answered. */
  function Index2(v: Value, k1: Key, k2: Key): (r: Result<Value>)
    ensures v.Hash? && k1 in v.entries && v.entries[k1].Hash? ==>
              r == Ok(if k2 in v.entries[k1].entries then v.entries[k1].entries[k2] else Nil)
    ensures v.Hash? && k1 !in v.entries ==> r == Err(NoMethodError("[]"))
  {
    match Index(v, k1)
    case Ok(w) => Index(w, k2)
    case Err(e) => Err(e)
  }

  // ---------------------------------------------------------------------
  // Decimal numerals: Integer#to_s and String#to_i

  predicate IsDigit(c: char)
  {
    '0' <= c <= '9'
  }

  function DigitChar(d: nat): (c: char)
    requires d < 10
    ensures IsDigit(c) && c as int - '0' as int == d
  {
    ('0' as int + d) as char
  }

  function DigitValue(c: char): nat
    requires IsDigit(c)
  {
    c as int - '0' as int
  }

  /** The decimal numeral of `n`, without leading zeros. */
  function NatToString(n: nat): (s: string)
    ensures |s| > 0
    ensures forall i :: 0 <= i < |s| ==> IsDigit(s[i])
  {
    if n < 10 then [DigitChar(n)] else NatToString(n / 10) + [DigitChar(n % 10)]
  }

  /** Integer#to_s. */
  function IntToString(i: int): string
  {
    if i < 0 then "-" + NatToString(-i) else NatToString(i)
  }

  predicate IsRubySpace(c: char)
  {
    c == ' ' || c == '\t' || c == '\n' || c == '\r' || c == 12 as char || c == 11 as char
  }

  function SkipSpace(s: string): (t: string)
    ensures |t| <= |s| && t == s[|s| - |t|..]
    ensures |t| > 0 ==> !IsRubySpace(t[0])
  {
    if |s| > 0 && IsRubySpace(s[0]) then SkipSpace(s[1..]) else s
  }

  /**
   * The digits of the numeral at the front of `s`: a digit, then digits each
   * optionally preceded by a single underscore.
   */
  function LeadingDigits(s: string): seq<nat>
  {
    if |s| == 0 || !IsDigit(s[0]) then []
    else if |s| >= 3 && s[1] == '_' && IsDigit(s[2]) then [DigitValue(s[0])] + LeadingDigits(s[2..])
    else [DigitValue(s[0])] + LeadingDigits(s[1..])
  }

  function DigitsToNat(ds: seq<nat>): nat
  {
    if ds == [] then 0 else DigitsToNat(ds[..|ds| - 1]) * 10 + ds[|ds| - 1]
  }

  /** Base 10 accepts the radix prefix `0d`/`0D` after the sign. */
  function SkipRadixPrefix(s: string): (t: string)
    ensures t == s || (|s| >= 2 && s[0] == '0' && (s[1] == 'd' || s[1] == 'D') && t == s[2..])
  {
    if |s| >= 2 && s[0] == '0' && (s[1] == 'd' || s[1] == 'D') then s[2..] else s
  }

  /** The value of the unsigned numeral at the front of `s`, after an optional radix prefix. */
  function Numeral(s: string): nat
  {
    DigitsToNat(LeadingDigits(SkipRadixPrefix(s)))
  }

  /**
   * String#to_i (base 10): leading white space is skipped, a sign is read,
   * then an optional `0d` prefix and the leading numeral; a string without
   * one converts to 0.
   */
  function StrToI(s: string): int
  {
    var t := SkipSpace(s);
    if |t| > 0 && t[0] == '-' then -(Numeral(t[1..]) as int)
    else if |t| > 0 && t[0] == '+' then Numeral(t[1..])
    else Numeral(t)
  }

  function DigitValues(s: string): (ds: seq<nat>)
    requires forall i :: 0 <= i < |s| ==> IsDigit(s[i])
    ensures |ds| == |s|
  {
    if s == [] then [] else [DigitValue(s[0])] + DigitValues(s[1..])
  }

  lemma {:induction false} DigitValuesAppend(a: string, c: char)
    requires forall i :: 0 <= i < |a| ==> IsDigit(a[i])
    requires IsDigit(c)
    ensures forall i :: 0 <= i < |a + [c]| ==> IsDigit((a + [c])[i])
    ensures DigitValues(a + [c]) == DigitValues(a) + [DigitValue(c)]
  {
    if a != [] {
      assert (a + [c])[1..] == a[1..] + [c];
      DigitValuesAppend(a[1..], c);
    }
  }

  /** On an all-digit string the leading numeral is the whole string. */
  lemma {:induction false} LeadingDigitsOfDigits(s: string)
    requires forall i :: 0 <= i < |s| ==> IsDigit(s[i])
    ensures LeadingDigits(s) == DigitValues(s)
  {
    if |s| > 0 {
      LeadingDigitsOfDigits(s[1..]);
    }
  }

  lemma {:induction false} NatToStringValue(n: nat)
    ensures DigitsToNat(DigitValues(NatToString(n))) == n
  {
    if n >= 10 {
      var a := NatToString(n / 10);
      DigitValuesAppend(a, DigitChar(n % 10));
      NatToStringValue(n / 10);
      var ds := DigitValues(a) + [n % 10];
      assert ds[..|ds| - 1] == DigitValues(a);
    }
  }

  /** `i.to_s.to_i == i` for every integer. */
  lemma {:induction false} ToSToIRoundTrip(i: int)
    ensures StrToI(IntToString(i)) == i
  {
    var n: nat := if i < 0 then -i else i;
    var digits := NatToString(n);
    assert IsDigit(digits[0]);
    LeadingDigitsOfDigits(digits);
    NatToStringValue(n);
    if i < 0 {
      var s := "-" + digits;
      assert s[0] == '-' && !IsRubySpace(s[0]);
      assert SkipSpace(s) == s;
      assert s[1..] == digits;
      assert SkipRadixPrefix(digits) == digits;
      assert StrToI(s) == -(DigitsToNat(LeadingDigits(digits)) as int);
    } else {
      assert !IsRubySpace(digits[0]);
      assert SkipSpace(digits) == digits;
      assert SkipRadixPrefix(digits) == digits;
      assert StrToI(digits) == DigitsToNat(LeadingDigits(digits));
    }
  }

  /** The `0d` spelling of an integer (`"0d12"`, `"-0D7"`) reads back as that integer too. */
  lemma {:induction false} RadixPrefixRoundTrip(i: int, upper: bool)
    ensures var prefix := if upper then "0D" else "0d";
            StrToI(if i < 0 then "-" + prefix + NatToString(-i) else prefix + NatToString(i)) == i
  {
    var n: nat := if i < 0 then -i else i;
    var digits := NatToString(n);
    var p := (if upper then "0D" else "0d") + digits;
    LeadingDigitsOfDigits(digits);
    NatToStringValue(n);
    assert p[2..] == digits;
    assert SkipRadixPrefix(p) == digits;
    if i < 0 {
      var s := "-" + p;
      assert s == "-" + (if upper then "0D" else "0d") + digits;
      assert SkipSpace(s) == s;
      assert s[1..] == p;
    } else {
      assert SkipSpace(p) == p;
    }
  }

  /** `v.to_s`; arrays and hashes (Ruby's inspect form) are not modelled. */
  function ToS(v: Value): (r: Result<string>)
    ensures v.Str? ==> r == Ok(v.s)
    ensures v.Int? ==> r.Ok? && StrToI(r.value) == v.i
    ensures v.Nil? ==> r == Ok("")
    ensures r.Err? <==> v.List? || v.Hash?
  {
    match v
    case Nil => Ok("")
    case Bool(b) => Ok(if b then "true" else "false")
    case Int(i) => ToSToIRoundTrip(i); Ok(IntToString(i))
    case Str(s) => Ok(s)
    case List(_) => Err(Unsupported("Array#to_s"))
    case Hash(_) => Err(Unsupported("Hash#to_s"))
  }

  /** `v.to_i`: nil gives 0, strings are parsed, booleans and collections have no `to_i`. */
  function ToI(v: Value): (r: Result<int>)
    ensures v.Int? ==> r == Ok(v.i)
    ensures v.Str? ==> r == Ok(StrToI(v.s))
    ensures r.Err? <==> v.Bool? || v.List? || v.Hash?
  {
    match v
    case Nil => Ok(0)
    case Int(i) => Ok(i)
    case Str(s) => Ok(StrToI(s))
    case Bool(_) => Err(NoMethodError("to_i"))
    case List(_) => Err(NoMethodError("to_i"))
    case Hash(_) => Err(NoMethodError("to_i"))
  }
}
