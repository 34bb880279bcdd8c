/**
 * PHP values as the client sees them: the scalars, ordered arrays with
 * integer or string keys (what `json_decode($body, true)` returns and what
 * the client passes around as queries, bodies and results), record objects,
 * backed-enum cases and date-time objects. Also the few PHP conversions the
 * client relies on: `isset`/`??`, truthiness, and the int and string casts.
 */
module PhpValues {
  import opened Wrappers
  import opened DtoSchemas

  /** A PHP array key. */
  datatype Key = IntKey(i: int) | StrKey(s: string)

  /**
   * A float, carried opaquely as PHP's own decimal rendering of it
   * (`(string)$f`); the client does no arithmetic on floats.
   */
  datatype FloatRep = FloatRep(text: string)

  datatype Value =
    | Null
    | Bool(b: bool)
    | Int(i: int)
    | Float(f: FloatRep)
    | Str(s: string)
    | Arr(entries: seq<Entry>)       // an ordered PHP array
    | Obj(rec: Record)               // an instance of one of the record classes
    | EnumCase(backing: string)      // a case of a string-backed enum
    | DateTime(iso: string)          // a DateTimeInterface, by its 'c' format
    | Resource(handle: nat)          // an open stream, as `fopen` returns it

  datatype Entry = Entry(key: Key, val: Value)

  /** A record object: its class and the current value of each property. */
  datatype Record = Record(cls: DtoClass, props: map<string, Value>)

  /**
   * `$a[$k]`: the value stored under `k`, if any. A PHP array holds each key
   * once; on a sequence that repeats a key the last entry wins, as it does
   * when such a sequence is written into an array entry by entry.
   */
  function Lookup(es: seq<Entry>, k: Key): (r: Option<Value>)
    ensures r.Some? <==> exists i :: 0 <= i < |es| && es[i].key == k
    ensures r.Some? ==> exists i :: 0 <= i < |es| && es[i] == Entry(k, r.value) &&
                                    forall j :: i < j < |es| ==> es[j].key != k
  {
    if es == [] then None
    else if es[|es| - 1].key == k then Some(es[|es| - 1].val)
    else Lookup(es[..|es| - 1], k)
  }

  /** `$a[$k] = $v`: overwrite the value in place when `k` is present, else append. */
  function Put(es: seq<Entry>, k: Key, v: Value): (r: seq<Entry>)
    ensures Lookup(r, k) == Some(v)
    ensures forall k' :: k' != k ==> Lookup(r, k') == Lookup(es, k')
    ensures Keys(r) == if k in Keys(es) then Keys(es) else Keys(es) + [k]
  {
    if k in Keys(es) then Replace(es, k, v) else
      var r := es + [Entry(k, v)];
      assert r[..|r| - 1] == es;
      r
  }

  /** Every entry under `k` now holds `v`; the keys and all other entries are untouched. */
  function Replace(es: seq<Entry>, k: Key, v: Value): (r: seq<Entry>)
    ensures Keys(r) == Keys(es)
    ensures k in Keys(es) ==> Lookup(r, k) == Some(v)
    ensures forall k' :: k' != k ==> Lookup(r, k') == Lookup(es, k')
  {
    if es == [] then []
    else
      var init := es[..|es| - 1];
      var last := es[|es| - 1];
      var r := Replace(init, k, v) + [if last.key == k then Entry(k, v) else last];
      assert r[..|r| - 1] == Replace(init, k, v);
      assert Keys(es) == Keys(init) + [last.key];
      r
  }

  /** `isset($a[$k])`: the key is present and its value is not null. */
  predicate IsSet(es: seq<Entry>, k: Key)
  {
    Lookup(es, k).Some? && Lookup(es, k).value != Null
  }

  /** `$a[$k] ?? $default`. */
  function Coalesce(es: seq<Entry>, k: Key, default: Value): (r: Value)
    ensures IsSet(es, k) ==> r == Lookup(es, k).value
    ensures !IsSet(es, k) ==> r == default
  {
    if IsSet(es, k) then Lookup(es, k).value else default
  }

  /** The keys of an array, in order. */
  function Keys(es: seq<Entry>): (ks: seq<Key>)
    ensures |ks| == |es| && forall i :: 0 <= i < |es| ==> ks[i] == es[i].key
  {
    if es == [] then [] else Keys(es[..|es| - 1]) + [es[|es| - 1].key]
  }

  /** A one-entry array `[$k => $v]` with a string key. */
  function Single(k: string, v: Value): seq<Entry>
  {
    [Entry(StrKey(k), v)]
  }

  /** PHP's falsy strings: '' and '0' (what `?:` and `empty()` treat as false). */
  predicate TruthyString(s: string)
  {
    s != "" && s != "0"
  }

  /** PHP's conversion to bool. */
  predicate Truthy(v: Value)
  {
    match v
    case Null => false
    case Bool(b) => b
    case Int(i) => i != 0
    case Float(f) => f.text != "0" && f.text != "-0"
    case Str(s) => TruthyString(s)
    case Arr(es) => es != []
    case _ => true
  }

  /** The decimal digit for 0 <= d < 10. */
  function Digit(d: int): char
    requires 0 <= d < 10
  {
    "0123456789"[d]
  }

  predicate AllDigits(s: string)
  {
    forall i :: 0 <= i < |s| ==> '0' <= s[i] <= '9'
  }

  /** The decimal rendering of a natural number, without sign or leading zeros. */
  function NatText(n: nat): (s: string)
    ensures |s| > 0 && AllDigits(s)
    decreases n
  {
    if n < 10 then [Digit(n)] else NatText(n / 10) + [Digit(n % 10)]
  }

  /** `(string)$i` for an int. */
  function IntText(i: int): string
  {
    if i < 0 then "-" + NatText(-i) else NatText(i)
  }

  /** The float that strict typing produces from an int assigned to a `?float` property. */
  function Widen(i: int): FloatRep
  {
    FloatRep(IntText(i))
  }

  /** The value of the decimal digits `s`, most significant first. */
  function DigitsValue(s: string): nat
    requires AllDigits(s)
  {
    if s == [] then 0 else DigitsValue(s[..|s| - 1]) * 10 + ((s[|s| - 1] as int - '0' as int) as nat)
  }

  /** The longest prefix of `s` made of decimal digits. */
  function LeadingDigits(s: string): (d: string)
    ensures |d| <= |s| && d == s[..|d|]
    ensures AllDigits(d)
    ensures |d| < |s| ==> !('0' <= s[|d|] <= '9')
  {
    if s != [] && '0' <= s[0] <= '9' then [s[0]] + LeadingDigits(s[1..]) else []
  }

  predicate IsSpace(c: char)
  {
    c == ' ' || c == '\t' || c == '\n' || c == '\r' || c == '\U{B}' || c == '\U{C}'
  }

  function SkipSpace(s: string): (t: string)
    ensures |t| <= |s| && t == s[|s| - |t|..]
    ensures t != [] ==> !IsSpace(t[0])
  {
    if s != [] && IsSpace(s[0]) then SkipSpace(s[1..]) else s
  }

  /** The bounds of PHP's 64-bit `int`. */
  const IntMin: int := -0x8000_0000_0000_0000
  const IntMax: int := 0x7FFF_FFFF_FFFF_FFFF

  /** `d` times ten to the `k`. */
  function TimesTenTo(d: nat, k: nat): nat
  {
    if k == 0 then d else TimesTenTo(d, k - 1) * 10
  }

  /** `d` divided by ten to the `k`, rounded down: one digit dropped per step. */
  function OverTenTo(d: nat, k: nat): nat
  {
    if k == 0 then d else OverTenTo(d, k - 1) / 10
  }

  /**
   * A decimal numeral as a numeric prefix reads it: its sign, the digits of
   * its integer and fractional parts run together, how many of those are
   * fractional, and its exponent.
   */
  datatype Numeral = Numeral(negative: bool, digits: string, fraction: nat, exponent: int)

  /** An exponent `e`/`E`, an optional sign and at least one digit at the start of `s`. */
  function ExponentOf(s: string): Option<int>
  {
    if s != [] && (s[0] == 'e' || s[0] == 'E') then SignedDigits(s[1..]) else None
  }

  /** The exponent at the start of `s`, 0 when there is none. */
  function ExponentIn(s: string): int
  {
    if ExponentOf(s).Some? then ExponentOf(s).value else 0
  }

  /** An optional sign and at least one digit at the start of `s`, as an integer. */
  function SignedDigits(s: string): Option<int>
  {
    if s != [] && s[0] == '-' then
      var ds := LeadingDigits(s[1..]);
      if ds == [] then None else Some(0 - DigitsValue(ds))
    else
      var ds := LeadingDigits(if s != [] && s[0] == '+' then s[1..] else s);
      if ds == [] then None else Some(DigitsValue(ds))
  }

  /**
   * The numeric prefix PHP reads from a string: leading whitespace, an
   * optional sign, digits with an optional fractional part (at least one
   * digit in all), then an optional exponent. None when the string does
   * not start with a number.
   */
  function NumericPrefix(s: string): (n: Option<Numeral>)
    ensures n.Some? ==> AllDigits(n.value.digits) && |n.value.digits| > 0
  {
    var t := SkipSpace(s);
    var negative := t != [] && t[0] == '-';
    UnsignedPrefix(negative, if t != [] && (t[0] == '-' || t[0] == '+') then t[1..] else t)
  }

  /** The numeral at the start of `u`, past its sign. */
  function UnsignedPrefix(negative: bool, u: string): (n: Option<Numeral>)
    ensures n.Some? ==> AllDigits(n.value.digits) && |n.value.digits| > 0
  {
    var whole := LeadingDigits(u);
    var rest := u[|whole|..];
    var fraction := if rest != [] && rest[0] == '.' then LeadingDigits(rest[1..]) else [];
    var after := if rest != [] && rest[0] == '.' then rest[1 + |fraction|..] else rest;
    if whole == [] && fraction == [] then None
    else
      assert AllDigits(whole + fraction);
      Some(Numeral(negative, whole + fraction, |fraction|, ExponentIn(after)))
  }

  /** d * 10^scale, truncated toward zero. */
  function Scaled(d: nat, scale: int): int
  {
    if scale >= 0 then TimesTenTo(d, scale) else OverTenTo(d, 0 - scale)
  }

  /** The value of a numeral, truncated toward zero. */
  function Truncated(n: Numeral): int
    requires AllDigits(n.digits)
  {
    var magnitude := Scaled(DigitsValue(n.digits), n.exponent - n.fraction);
    if n.negative then 0 - magnitude else magnitude
  }

  /** An integer held within the 64-bit bounds, as PHP saturates an out-of-range cast. */
  function Saturate(v: int): (r: int)
    ensures IntMin <= r <= IntMax
    ensures IntMin <= v <= IntMax ==> r == v
    ensures v > IntMax ==> r == IntMax
    ensures v < IntMin ==> r == IntMin
  {
    if v > IntMax then IntMax else if v < IntMin then IntMin else v
  }

  /**
   * `(int)$s` for a string: the numeric prefix truncated toward zero,
   * saturating at the 64-bit bounds; 0 when the string does not start with
   * a number.
   */
  function StringToInt(s: string): (r: int)
    ensures IntMin <= r <= IntMax
    ensures NumericPrefix(s).None? ==> r == 0
    ensures NumericPrefix(s).Some? ==> r == Saturate(Truncated(NumericPrefix(s).value))
  {
    match NumericPrefix(s)
    case None => 0
    case Some(n) => Saturate(Truncated(n))
  }

  /** `(int)$f` for a float, truncated toward zero through its decimal rendering; INF and NAN give 0. */
  function FloatToInt(f: FloatRep): int
  {
    match NumericPrefix(f.text)
    case None => 0
    case Some(n) => Truncated(n)
  }

  /** `(int)$v`. */
  function IntCast(v: Value): int
  {
    match v
    case Null => 0
    case Bool(b) => if b then 1 else 0
    case Int(i) => i
    case Float(f) => FloatToInt(f)
    case Str(s) => StringToInt(s)
    case Arr(es) => if es == [] then 0 else 1
    case _ => 1
  }

  /** The text after the exponent at the start of `s`; all of `s` when there is none. */
  function ExponentRest(s: string): string
  {
    if ExponentOf(s).Some? then
      var t := s[1..];
      var signed := if t != [] && (t[0] == '-' || t[0] == '+') then t[1..] else t;
      signed[|LeadingDigits(signed)|..]
    else s
  }

  /** The text after the numeral at the start of `u`, past its sign. */
  function UnsignedRest(u: string): string
  {
    var whole := LeadingDigits(u);
    var rest := u[|whole|..];
    var fraction := if rest != [] && rest[0] == '.' then LeadingDigits(rest[1..]) else [];
    var after := if rest != [] && rest[0] == '.' then rest[1 + |fraction|..] else rest;
    ExponentRest(after)
  }

  predicate AllSpace(s: string)
  {
    forall i :: 0 <= i < |s| ==> IsSpace(s[i])
  }

  /**
   * A numeric string as PHP 8 reads one in a comparison: whitespace, an
   * optional sign, a numeral, and nothing after it but whitespace.
   */
  predicate IsNumericString(s: string)
  {
    var t := SkipSpace(s);
    var u := if t != [] && (t[0] == '-' || t[0] == '+') then t[1..] else t;
    UnsignedPrefix(false, u).Some? && AllSpace(UnsignedRest(u))
  }

  /** A numeral whose value is above zero. */
  predicate Positive(n: Numeral)
    requires AllDigits(n.digits)
  {
    !n.negative && DigitsValue(n.digits) > 0
  }

  /** A float above zero, read from its decimal rendering (INF included, NAN not). */
  predicate FloatAboveZero(f: FloatRep)
  {
    f.text == "INF" || (NumericPrefix(f.text).Some? && Positive(NumericPrefix(f.text).value))
  }

  /** A string that orders after "0" byte by byte (a longer string after its own prefix). */
  predicate TextAfterZero(s: string)
  {
    s != [] && (s[0] > '0' || (s[0] == '0' && |s| > 1))
  }

  /**
   * `$v > 0` under PHP 8's loose comparison: null and false are not above
   * zero and true is; numbers and numeric strings compare by value; any
   * other string compares with "0" as text; an array is greater than any
   * number, and so is an object that does not convert to one (it counts as
   * 1); an enum case does not compare with a number, which makes `>`
   * false; a stream compares by its resource id.
   */
  predicate AboveZero(v: Value)
  {
    match v
    case Null => false
    case Bool(b) => b
    case Int(i) => i > 0
    case Float(f) => FloatAboveZero(f)
    case Str(s) =>
      if IsNumericString(s) then NumericPrefix(s).Some? && Positive(NumericPrefix(s).value)
      else TextAfterZero(s)
    case Arr(_) => true
    case Obj(_) => true
    case EnumCase(_) => false
    case DateTime(_) => true
    case Resource(h) => h > 0
  }

  /**
   * A number written out in decimal, as an environment variable gives it
   * (an optional minus sign, then digits), is above zero exactly when the
   * number is.
   */
  lemma DecimalTextAboveZero(negative: bool, d: string, s: string)
    requires AllDigits(d) && |d| > 0
    requires s == (if negative then "-" else "") + d
    ensures AboveZero(Str(s)) == (!negative && DigitsValue(d) > 0)
  {
    NumericPrefixOfDigits(negative, d);
    SignedDigitsNumeric(negative, d);
  }

  /** An optional minus sign followed by digits is a numeric string. */
  lemma SignedDigitsNumeric(negative: bool, d: string)
    requires AllDigits(d) && |d| > 0
    ensures IsNumericString((if negative then "-" else "") + d)
  {
    var t := (if negative then "-" else "") + d;
    assert t[0] == '-' || '0' <= t[0] <= '9';
    NoLeadingSpace(t);
    assert (if t[0] == '-' || t[0] == '+' then t[1..] else t) == d;
    DigitsNumeric(d);
  }

  /** Digits alone are a numeral with nothing after it. */
  lemma DigitsNumeric(d: string)
    requires AllDigits(d) && |d| > 0
    ensures UnsignedPrefix(false, d).Some? && UnsignedRest(d) == []
  {
    UnsignedPrefixOfDigits(false, d);
    LeadingDigitsOf(d, []);
    assert d + [] == d;
  }

  /** `(string)$i` is the sign, if any, and the digits of the magnitude. */
  lemma SignedText(i: int, m: nat)
    requires m == if i < 0 then 0 - i else i
    ensures IntText(i) == (if i < 0 then "-" else "") + NatText(m)
  {
  }

  /** `(int)(string)$i == $i`: the string cast reads back every 64-bit integer. */
  lemma StringToIntOfIntText(i: int)
    requires IntMin <= i <= IntMax
    ensures StringToInt(IntText(i)) == i
  {
    var m: nat := if i < 0 then 0 - i else i;
    NatTextValue(m);
    SignedText(i, m);
    CastOfSignedDigits(i < 0, NatText(m), IntText(i));
  }

  /** An optional minus sign followed by digits casts to their value, signed and saturated. */
  lemma CastOfSignedDigits(negative: bool, d: string, t: string)
    requires AllDigits(d) && |d| > 0
    requires t == (if negative then "-" else "") + d
    ensures StringToInt(t) == Saturate(if negative then 0 - DigitsValue(d) else DigitsValue(d))
  {
    var n := Numeral(negative, d, 0, 0);
    NumericPrefixOfDigits(negative, d);
    assert NumericPrefix(t) == Some(n);
    WholeValue(n);
    var v := Truncated(n);
    assert v == if negative then 0 - DigitsValue(d) else DigitsValue(d);
    assert StringToInt(t) == Saturate(v);
  }

  /** A numeral without fraction or exponent is its digits' value, signed. */
  lemma WholeValue(n: Numeral)
    requires AllDigits(n.digits) && n.fraction == 0 && n.exponent == 0
    ensures Truncated(n) == if n.negative then 0 - DigitsValue(n.digits) else DigitsValue(n.digits)
  {
  }

  /** An optional minus sign followed by digits is read as that whole numeral. */
  lemma NumericPrefixOfDigits(negative: bool, d: string)
    requires AllDigits(d) && |d| > 0
    ensures NumericPrefix((if negative then "-" else "") + d) == Some(Numeral(negative, d, 0, 0))
  {
    var t := (if negative then "-" else "") + d;
    assert SkipSpace(t) == t && t[0] == (if negative then '-' else d[0]) by {
      assert t[0] == '-' || '0' <= t[0] <= '9';
    }
    assert (if t[0] == '-' || t[0] == '+' then t[1..] else t) == d;
    UnsignedPrefixOfDigits(negative, d);
  }

  /** Digits alone are a numeral with neither fraction nor exponent. */
  lemma UnsignedPrefixOfDigits(negative: bool, d: string)
    requires AllDigits(d) && |d| > 0
    ensures UnsignedPrefix(negative, d) == Some(Numeral(negative, d, 0, 0))
  {
    assert d[|d|..] == [];
    assert d + [] == d;
  }

  /** The digits of `NatText(n)` read back as `n`. */
  lemma {:induction false} NatTextValue(n: nat)
    ensures DigitsValue(NatText(n)) == n
    decreases n
  {
    if n >= 10 {
      var s := NatText(n);
      assert s[..|s| - 1] == NatText(n / 10);
      NatTextValue(n / 10);
    }
  }

  /** A string that starts with no whitespace is left as it is. */
  lemma NoLeadingSpace(t: string)
    requires t != [] && !IsSpace(t[0])
    ensures SkipSpace(t) == t
  {
  }

  /** The digit prefix of digits followed by anything but a digit is those digits. */
  lemma {:induction false} LeadingDigitsOf(d: string, rest: string)
    requires AllDigits(d)
    requires rest != [] ==> !('0' <= rest[0] <= '9')
    ensures LeadingDigits(d + rest) == d
  {
    if d == [] {
      assert d + rest == rest;
    } else {
      assert (d + rest)[1..] == d[1..] + rest;
      LeadingDigitsOf(d[1..], rest);
      assert [d[0]] + d[1..] == d;
    }
  }

  /** An exponent marker, an optional minus sign and digits give that exponent. */
  lemma ExponentOfDigits(x: char, negative: bool, e: string)
    requires x == 'e' || x == 'E'
    requires AllDigits(e) && |e| > 0
    ensures ExponentOf([x] + (if negative then "-" else "") + e) == Some(if negative then 0 - DigitsValue(e) else DigitsValue(e))
  {
    if negative {
      assert [x] + "-" + e == [x, '-'] + e;
      NegativeExponent(x, e);
    } else {
      assert [x] + "" + e == [x] + e;
      PositiveExponent(x, e);
    }
  }

  lemma NegativeExponent(x: char, e: string)
    requires x == 'e' || x == 'E'
    requires AllDigits(e) && |e| > 0
    ensures ExponentOf([x, '-'] + e) == Some(0 - DigitsValue(e))
  {
    var s := [x, '-'] + e;
    assert s[1..][1..] == e;
    NegativeSigned(e, s[1..]);
  }

  lemma NegativeSigned(e: string, t: string)
    requires AllDigits(e) && |e| > 0
    requires |t| > 1 && t[0] == '-' && t[1..] == e
    ensures SignedDigits(t) == Some(0 - DigitsValue(e))
  {
    DigitsAreLeading(e);
    NegativeDigits(t);
    SameDigits(t[1..], e);
  }

  /** Digits alone are their own digit prefix. */
  lemma DigitsAreLeading(e: string)
    requires AllDigits(e)
    ensures LeadingDigits(e) == e
  {
    LeadingDigitsOf(e, []);
    assert e + [] == e;
  }

  lemma PositiveExponent(x: char, e: string)
    requires x == 'e' || x == 'E'
    requires AllDigits(e) && |e| > 0
    ensures ExponentOf([x] + e) == Some(DigitsValue(e))
  {
    LeadingDigitsOf(e, []);
    assert e + [] == e;
    var t := ([x] + e)[1..];
    assert t == e;
    PlainDigits(t);
    SameDigits(t, e);
  }

  lemma NegativeDigits(t: string)
    requires |t| > 1 && t[0] == '-' && LeadingDigits(t[1..]) == t[1..]
    ensures SignedDigits(t) == Some(0 - DigitsValue(t[1..]))
  {
  }

  lemma PlainDigits(t: string)
    requires |t| > 0 && '0' <= t[0] <= '9' && LeadingDigits(t) == t
    ensures SignedDigits(t) == Some(DigitsValue(t))
  {
  }

  lemma SameDigits(u: string, e: string)
    requires u == e && AllDigits(e)
    ensures DigitsValue(u) == DigitsValue(e)
  {
  }

  /**
   * `(int)` of digits `m` followed by anything but a digit or a point: m
   * scaled by the exponent that follows, if any, saturating at the 64-bit
   * bounds. With no exponent this is m itself, whatever text trails.
   */
  lemma CastWhole(m: string, rest: string)
    requires AllDigits(m) && |m| > 0
    requires rest != [] ==> !('0' <= rest[0] <= '9') && rest[0] != '.'
    ensures StringToInt(m + rest) == Saturate(Scaled(DigitsValue(m), ExponentIn(rest)))
  {
    Unsigned(m + rest);
    UnsignedWhole(m, rest);
  }

  /**
   * `(int)` of `w.f` followed by anything but a digit: the decimal w.f
   * scaled by the exponent that follows, if any, truncated toward zero and
   * saturating at the 64-bit bounds.
   */
  lemma CastFraction(w: string, f: string, rest: string)
    requires AllDigits(w) && AllDigits(f) && |w| + |f| > 0
    requires rest != [] ==> !('0' <= rest[0] <= '9')
    ensures StringToInt(w + ("." + f + rest)) == Saturate(Scaled(DigitsValue(w + f), ExponentIn(rest) - |f|))
  {
    FractionValue(w, f, rest, w + ("." + f + rest), DigitsValue(w + f), ExponentIn(rest) - |f|);
  }

  /** A negative exponent can leave nothing of the number: `(int)"1.0E-5"` is 0. */
  lemma TinyExponentCast(t: string)
    requires t == "1.0E-5"
    ensures StringToInt(t) == 0
  {
    var w, f, rest := "1", "0", "E-5";
    assert w + ("." + f + rest) == t;
    CastFraction(w, f, rest);
    MinusFive(rest);
    Ten(w + f);
    assert ExponentIn(rest) - |f| == -6;
    assert Scaled(10, -6) == 0 by {
      assert OverTenTo(10, 6) == 0;
    }
  }

  lemma MinusFive(rest: string)
    requires rest == "E-5"
    ensures ExponentIn(rest) == -5
  {
    NegativeExponent('E', "5");
    assert ['E', '-'] + "5" == rest;
  }

  lemma Ten(d: string)
    requires d == "10"
    ensures AllDigits(d) && DigitsValue(d) == 10
  {
    var one := d[..1];
    assert one[..0] == [];
    assert DigitsValue(one) == 1;
  }

  lemma FractionValue(w: string, f: string, rest: string, t: string, d: nat, scale: int)
    requires AllDigits(w) && AllDigits(f) && |w| + |f| > 0
    requires rest != [] ==> !('0' <= rest[0] <= '9')
    requires t == w + ("." + f + rest)
    requires AllDigits(w + f) && d == DigitsValue(w + f) && scale == ExponentIn(rest) - |f|
    ensures StringToInt(t) == Saturate(Scaled(d, scale))
  {
    var n := Numeral(false, w + f, |f|, ExponentIn(rest));
    FractionPrefix(w, f, rest, t);
    SameDigits(n.digits, w + f);
    CastOfPrefix(t, n, d, scale);
  }

  /** `w.f` followed by anything but a digit is read as the numeral of digits `w + f` with `|f|` of them after the point. */
  lemma FractionPrefix(w: string, f: string, rest: string, t: string)
    requires AllDigits(w) && AllDigits(f) && |w| + |f| > 0
    requires rest != [] ==> !('0' <= rest[0] <= '9')
    requires t == w + ("." + f + rest)
    ensures NumericPrefix(t) == Some(Numeral(false, w + f, |f|, ExponentIn(rest)))
  {
    Unsigned(t);
    UnsignedFraction(w, f, rest, t);
  }

  /** A string whose numeric prefix is the unsigned numeral `n` casts to its value, saturated. */
  lemma CastOfPrefix(t: string, n: Numeral, d: nat, scale: int)
    requires NumericPrefix(t) == Some(n) && !n.negative
    requires AllDigits(n.digits) && d == DigitsValue(n.digits) && scale == n.exponent - n.fraction
    ensures StringToInt(t) == Saturate(Scaled(d, scale))
  {
    UnsignedValue(n, d, scale);
    assert StringToInt(t) == Saturate(Truncated(n));
  }

  /** An unsigned numeral's value is its digits scaled by its exponent, less its fraction. */
  lemma UnsignedValue(n: Numeral, d: nat, scale: int)
    requires !n.negative && AllDigits(n.digits)
    requires d == DigitsValue(n.digits) && scale == n.exponent - n.fraction
    ensures Truncated(n) == Scaled(d, scale)
  {
  }

  /** A string that starts with neither whitespace nor a sign is read unsigned, as it is. */
  lemma Unsigned(t: string)
    requires t != [] && ('0' <= t[0] <= '9' || t[0] == '.')
    ensures NumericPrefix(t) == UnsignedPrefix(false, t)
  {
    NoLeadingSpace(t);
  }

  /** Digits followed by neither a digit nor a point: no fraction, and the exponent if one follows. */
  lemma UnsignedWhole(m: string, rest: string)
    requires AllDigits(m) && |m| > 0
    requires rest != [] ==> !('0' <= rest[0] <= '9') && rest[0] != '.'
    ensures UnsignedPrefix(false, m + rest) == Some(Numeral(false, m, 0, ExponentIn(rest)))
  {
    LeadingDigitsOf(m, rest);
    assert (m + rest)[|m|..] == rest;
    assert m + [] == m;
  }

  /** Digits, a point and digits: the fraction counted, and the exponent if one follows. */
  lemma UnsignedFraction(w: string, f: string, rest: string, u: string)
    requires AllDigits(w) && AllDigits(f) && |w| + |f| > 0
    requires rest != [] ==> !('0' <= rest[0] <= '9')
    requires u == w + ("." + f + rest)
    ensures UnsignedPrefix(false, u) == Some(Numeral(false, w + f, |f|, ExponentIn(rest)))
  {
    LeadingDigitsOf(w, "." + f + rest);
    var after := u[|w|..];
    assert after == "." + f + rest;
    assert after[1..] == f + rest;
    LeadingDigitsOf(f, rest);
    assert after[1 + |f|..] == rest;
  }

  /**
   * Why `(string)$v` throws. An array becomes "Array" with a warning, and
   * Laravel's error handler rethrows every warning as an `ErrorException`;
   * an object without `__toString` is an `Error`.
   */
  datatype CastFault = ArrayToString | NotStringable

  /** `(string)$v`, as `implode` and the `.` operator apply it under Laravel's error handler. */
  function StringCast(v: Value): Result<string, CastFault>
  {
    match v
    case Null => Ok("")
    case Bool(b) => Ok(if b then "1" else "")
    case Int(i) => Ok(IntText(i))
    case Float(f) => Ok(f.text)
    case Str(s) => Ok(s)
    case Arr(_) => Err(ArrayToString)
    case Resource(h) => Ok("Resource id #" + NatText(h))
    case _ => Err(NotStringable)
  }

  /**
   * What a PHP file function (`fopen`, `file_get_contents`) gave: its
   * value, or `false` after raising a warning, or `false` without one.
   * Laravel's error handler rethrows the warning as an `ErrorException`
   * before the caller can test for `false`.
   */
  datatype FileOutcome<T> = Done(value: T) | Warned(warning: string) | Quiet

  /** In `a + b` an entry of `b` shadows one of `a` under the same key. */
  lemma {:induction false} LookupAppend(a: seq<Entry>, b: seq<Entry>, k: Key)
    ensures Lookup(a + b, k) == if Lookup(b, k).Some? then Lookup(b, k) else Lookup(a, k)
  {
    if b == [] {
      assert a + b == a;
    } else {
      LookupAppend(a, b[..|b| - 1], k);
      assert (a + b)[..|a + b| - 1] == a + b[..|b| - 1];
    }
  }
}
