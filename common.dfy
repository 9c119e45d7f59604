/**
 * Shared vocabulary of the model: optional values, errors thrown by the
 * scripts, JavaScript rounding, the string operations the scripts use,
 * filtering and the stable sort that `Array.prototype.sort` performs.
 */
module Common {

  datatype Option<T> = None | Some(value: T)

  /** `Err(m)` stands for `throw new Error(m)`. */
  datatype Result<T> = Ok(value: T) | Err(error: string)

  /** The JSON values the scripts inspect after `JSON.parse`. */
  datatype Json =
    | JNull
    | JBool(b: bool)
    | JNum(n: int)
    | JStr(s: string)
    | JArr(items: seq<Json>)
    | JObj(fields: seq<(string, Json)>)

  /** JavaScript truthiness of a JSON value. */
  predicate Truthy(j: Json)
  {
    match j
    case JNull => false
    case JBool(b) => b
    case JNum(n) => n != 0
    case JStr(s) => s != ""
    case _ => true
  }

  /** Property lookup `o[key]`: the first binding wins, anything but an object has none. */
  function Get(j: Json, key: string): Json
  {
    match j
    case JObj(fields) => Lookup(fields, key)
    case _ => JNull
  }

  function Lookup(fields: seq<(string, Json)>, key: string): Json
  {
    if |fields| == 0 then JNull
    else if fields[0].0 == key then fields[0].1
    else Lookup(fields[1..], key)
  }

  /** `a || b` on JSON values. */
  function OrElse(a: Json, b: Json): Json
  {
    if Truthy(a) then a else b
  }

  // ---------------------------------------------------------------- numbers

  /** `Math.round` on an exact real: the nearest integer, halves rounded up. */
  function Round(x: real): (r: int)
    ensures x - 0.5 < r as real <= x + 0.5
  {
    (x + 0.5).Floor
  }

  /** Rounding keeps order. */
  lemma RoundMono(x: real, y: real)
    requires x <= y
    ensures Round(x) <= Round(y)
  {
    assert Round(x) as real <= x + 0.5 <= y + 0.5 < Round(y) as real + 1.0;
  }

  function Min(a: int, b: int): int
  {
    if a <= b then a else b
  }

  function Max(a: int, b: int): int
  {
    if a >= b then a else b
  }

  /** `Math.min(hi, Math.max(lo, x))`. */
  function Clamp(lo: int, hi: int, x: int): (r: int)
    requires lo <= hi
    ensures lo <= r <= hi
    ensures lo <= x <= hi ==> r == x
    ensures x < lo ==> r == lo
    ensures x > hi ==> r == hi
  {
    Min(hi, Max(lo, x))
  }

  /** `Math.ceil(a / b)` for a positive divisor. */
  function CeilDiv(a: int, b: int): (r: int)
    requires b > 0
    ensures (r - 1) * b < a <= r * b
  {
    -((-a) / b)
  }

  /** `String(n)` for an integer. */
  function IntToString(n: int): string
  {
    if n < 0 then "-" + NatToString(-n) else NatToString(n)
  }

  function NatToString(n: nat): (s: string)
    ensures |s| >= 1
    ensures forall i :: 0 <= i < |s| ==> '0' <= s[i] <= '9'
  {
    if n < 10 then [DigitChar(n)] else NatToString(n / 10) + [DigitChar(n % 10)]
  }

  function DigitChar(d: nat): (c: char)
    requires d < 10
    ensures '0' <= c <= '9'
  {
    ('0' as int + d) as char
  }

  // ---------------------------------------------------------------- strings

  /** The white space and line terminators `String.prototype.trim` and `\s` recognise. */
  predicate IsSpace(c: char)
  {
    c == ' ' || c == '\t' || c == '\n' || c == '\r' || c == '\U{000B}' || c == '\U{000C}'
    || c == '\U{00A0}' || c == '\U{1680}' || '\U{2000}' <= c <= '\U{200A}' || c == '\U{2028}' || c == '\U{2029}'
    || c == '\U{202F}' || c == '\U{205F}' || c == '\U{3000}' || c == '\U{FEFF}'
  }

  predicate IsDigit(c: char)
  {
    '0' <= c <= '9'
  }

  function TrimStart(s: string): (r: string)
    ensures |r| <= |s| && r == s[|s| - |r|..]
    ensures r == [] || !IsSpace(r[0])
    ensures forall i :: 0 <= i < |s| - |r| ==> IsSpace(s[i])
  {
    if |s| > 0 && IsSpace(s[0]) then TrimStart(s[1..]) else s
  }

  function TrimEnd(s: string): (r: string)
    ensures |r| <= |s| && r == s[..|r|]
    ensures r == [] || !IsSpace(r[|r| - 1])
    ensures forall i :: |r| <= i < |s| ==> IsSpace(s[i])
  {
    if |s| > 0 && IsSpace(s[|s| - 1]) then TrimEnd(s[..|s| - 1]) else s
  }

  /** The length of the run of decimal digits at the start of `s`. */
  function DigitRun(s: string): (n: nat)
    ensures n <= |s|
    ensures forall i :: 0 <= i < n ==> IsDigit(s[i])
    ensures n < |s| ==> !IsDigit(s[n])
  {
    if |s| > 0 && IsDigit(s[0]) then 1 + DigitRun(s[1..]) else 0
  }

  /** The value of a string of decimal digits. */
  function DigitsValue(s: string): nat
    requires forall i :: 0 <= i < |s| ==> IsDigit(s[i])
  {
    if |s| == 0 then 0
    else
      assert IsDigit(s[|s| - 1]);
      DigitsValue(s[..|s| - 1]) * 10 + (s[|s| - 1] as int - '0' as int)
  }

  /**
   * `parseInt(s)` with no radix: leading white space, an optional sign, then
   * either "0x" or "0X" and the longest run of hexadecimal digits, or else the
   * longest run of decimal digits; None (NaN) when that run is empty.
   */
  function ParseInt(s: string): Option<int>
  {
    var t := TrimStart(s);
    if |t| > 0 && t[0] == '-' then Negated(UnsignedInt(t[1..]))
    else if |t| > 0 && t[0] == '+' then UnsignedInt(t[1..])
    else UnsignedInt(t)
  }

  /** "0x" or "0X" at the start: without a radix, `parseInt` reads hexadecimal. */
  predicate HexPrefixed(s: string)
  {
    |s| >= 2 && s[0] == '0' && (s[1] == 'x' || s[1] == 'X')
  }

  /** The number after the sign: hexadecimal behind the prefix, decimal otherwise. */
  function UnsignedInt(s: string): Option<int>
  {
    if HexPrefixed(s) then LeadingHexDigits(s[2..]) else LeadingDigits(s)
  }

  predicate IsHexDigit(c: char)
  {
    IsDigit(c) || 'a' <= c <= 'f' || 'A' <= c <= 'F'
  }

  function HexDigitValue(c: char): (v: nat)
    requires IsHexDigit(c)
    ensures v < 16
  {
    if IsDigit(c) then c as int - '0' as int
    else if 'a' <= c <= 'f' then c as int - 'a' as int + 10
    else c as int - 'A' as int + 10
  }

  /** The length of the run of hexadecimal digits at the start of `s`. */
  function HexRun(s: string): (n: nat)
    ensures n <= |s|
    ensures forall i :: 0 <= i < n ==> IsHexDigit(s[i])
    ensures n < |s| ==> !IsHexDigit(s[n])
  {
    if |s| > 0 && IsHexDigit(s[0]) then 1 + HexRun(s[1..]) else 0
  }

  /** The value of a string of hexadecimal digits. */
  function HexValue(s: string): nat
    requires forall i :: 0 <= i < |s| ==> IsHexDigit(s[i])
  {
    if |s| == 0 then 0
    else
      assert IsHexDigit(s[|s| - 1]);
      HexValue(s[..|s| - 1]) * 16 + HexDigitValue(s[|s| - 1])
  }

  /** The value of the run of hexadecimal digits `s` starts with; None when it starts with none. */
  function LeadingHexDigits(s: string): Option<int>
  {
    var n := HexRun(s);
    if n == 0 then None else Some(HexValue(s[..n]))
  }

  /** `parseInt(s) || 0`: an unparsable string counts as 0. */
  function IntOrZero(s: string): int
  {
    if ParseInt(s).Some? then ParseInt(s).value else 0
  }

  function Negated(v: Option<int>): Option<int>
  {
    if v.Some? then Some(-v.value) else None
  }

  /** The value of the run of digits `s` starts with; None when it starts with none. */
  function LeadingDigits(s: string): Option<int>
  {
    var n := DigitRun(s);
    if n == 0 then None else Some(DigitsValue(s[..n]))
  }

  lemma {:induction false} NatToStringValue(n: nat)
    ensures DigitsValue(NatToString(n)) == n
  {
    if n >= 10 {
      NatToStringValue(n / 10);
    }
  }

  lemma DigitRunAll(s: string)
    requires forall i :: 0 <= i < |s| ==> IsDigit(s[i])
    ensures DigitRun(s) == |s|
  {
  }

  /** Digits followed by something that is not a digit: the digits are read. */
  lemma LeadingDigitsThen(d: string, rest: string)
    requires |d| > 0 && forall i :: 0 <= i < |d| ==> IsDigit(d[i])
    requires rest == [] || !IsDigit(rest[0])
    ensures LeadingDigits(d + rest) == Some(DigitsValue(d))
  {
    DigitRunPrefix(d, rest);
    assert (d + rest)[..|d|] == d;
  }

  /** A string starting with a digit, and not with "0x", is read as decimal without a sign. */
  lemma ParseIntUnsigned(s: string)
    requires |s| > 0 && IsDigit(s[0]) && !HexPrefixed(s)
    ensures ParseInt(s) == LeadingDigits(s)
  {
    assert !IsSpace(s[0]);
    TrimStartFixed(s);
  }

  /** `parseInt` of a digit string reads its value. */
  lemma ParseIntOfDigits(s: string)
    requires |s| > 0 && forall i :: 0 <= i < |s| ==> IsDigit(s[i])
    ensures ParseInt(s) == Some(DigitsValue(s))
  {
    assert !HexPrefixed(s) by {
      if |s| >= 2 {
        assert IsDigit(s[1]);
      }
    }
    ParseIntUnsigned(s);
    DigitRunAll(s);
    assert s[..|s|] == s;
  }

  /** `parseInt` stops at the first character after the digits. */
  lemma ParseIntOfDigitsThen(d: string, rest: string)
    requires |d| > 0 && forall i :: 0 <= i < |d| ==> IsDigit(d[i])
    requires rest == [] || (!IsDigit(rest[0]) && rest[0] != 'x' && rest[0] != 'X')
    ensures ParseInt(d + rest) == Some(DigitsValue(d))
  {
    assert (d + rest)[0] == d[0];
    assert |d| > 1 ==> (d + rest)[1] == d[1];
    assert |d| == 1 && rest != [] ==> (d + rest)[1] == rest[0];
    ParseIntUnsigned(d + rest);
    LeadingDigitsThen(d, rest);
  }

  lemma {:induction false} DigitRunPrefix(d: string, rest: string)
    requires forall i :: 0 <= i < |d| ==> IsDigit(d[i])
    requires rest == [] || !IsDigit(rest[0])
    ensures DigitRun(d + rest) == |d|
  {
    if |d| > 0 {
      assert (d + rest)[1..] == d[1..] + rest;
      DigitRunPrefix(d[1..], rest);
    } else {
      assert d + rest == rest;
    }
  }

  /** `parseInt` of a minus sign and digits reads the negated value. */
  lemma ParseIntOfNegative(s: string)
    requires |s| > 1 && s[0] == '-'
    requires forall i :: 1 <= i < |s| ==> IsDigit(s[i])
    ensures ParseInt(s) == Negated(LeadingDigits(s[1..]))
    ensures LeadingDigits(s[1..]) == Some(DigitsValue(s[1..]))
  {
    assert TrimStart(s) == s by {
      assert !IsSpace(s[0]);
      TrimStartFixed(s);
    }
    var d := s[1..];
    assert |d| > 1 ==> IsDigit(d[1]);
    assert LeadingDigits(d) == Some(DigitsValue(d)) by {
      LeadingDigitsThen(d, []);
      assert d + [] == d;
    }
  }

  lemma ParseIntOfNatString(n: nat)
    ensures ParseInt(NatToString(n)) == Some(n)
  {
    ParseIntOfDigits(NatToString(n));
    NatToStringValue(n);
  }

  lemma ParseIntOfNegativeString(s: string, m: int)
    requires |s| > 1 && s[0] == '-'
    requires forall i :: 1 <= i < |s| ==> IsDigit(s[i])
    requires DigitsValue(s[1..]) == m
    ensures ParseInt(s) == Some(-m)
  {
    ParseIntOfNegative(s);
  }

  /** `parseInt(String(n))` gives `n` back. */
  lemma ParseIntOfString(n: int)
    ensures ParseInt(IntToString(n)) == Some(n)
  {
    if n < 0 {
      var s := IntToString(n);
      assert s[1..] == NatToString(-n);
      NatToStringValue(-n);
      ParseIntOfNegativeString(s, -n);
    } else {
      ParseIntOfNatString(n);
    }
  }

  lemma {:induction false} HexRunPrefix(d: string, rest: string)
    requires forall i :: 0 <= i < |d| ==> IsHexDigit(d[i])
    requires rest == [] || !IsHexDigit(rest[0])
    ensures HexRun(d + rest) == |d|
  {
    if |d| > 0 {
      assert (d + rest)[1..] == d[1..] + rest;
      HexRunPrefix(d[1..], rest);
    } else {
      assert d + rest == rest;
    }
  }

  /** Behind the prefix, the hexadecimal digits are read up to the first other character. */
  lemma UnsignedOfHex(d: string, rest: string)
    requires |d| > 0 && forall i :: 0 <= i < |d| ==> IsHexDigit(d[i])
    requires rest == [] || !IsHexDigit(rest[0])
    ensures UnsignedInt("0x" + d + rest) == Some(HexValue(d))
  {
    var t := d + rest;
    HexRunPrefix(d, rest);
    assert t[..|d|] == d;
    assert LeadingHexDigits(t) == Some(HexValue(d));
    var u := "0x" + d + rest;
    assert u == "0x" + t;
    assert u[2..] == t;
  }

  /**
   * `parseInt` reads "0x" and hexadecimal digits as their value, and stops at
   * the first character that is not a hexadecimal digit.
   */
  lemma ParseIntOfHex(d: string, rest: string)
    requires |d| > 0 && forall i :: 0 <= i < |d| ==> IsHexDigit(d[i])
    requires rest == [] || !IsHexDigit(rest[0])
    ensures ParseInt("0x" + d + rest) == Some(HexValue(d) as int)
  {
    var u := "0x" + d + rest;
    UnsignedOfHex(d, rest);
    assert u[0] == '0';
    ParseIntUnsignedOf(u);
  }

  /** A string that starts with neither white space nor a sign is read unsigned. */
  lemma ParseIntUnsignedOf(u: string)
    requires u != [] && !IsSpace(u[0]) && u[0] != '-' && u[0] != '+'
    ensures ParseInt(u) == UnsignedInt(u)
  {
    TrimStartFixed(u);
  }

  /** A minus sign negates what follows it. */
  lemma ParseIntNegatedOf(u: string)
    ensures ParseInt("-" + u) == Negated(UnsignedInt(u))
  {
    var v := "-" + u;
    assert v[0] == '-' && v[1..] == u;
    TrimStartFixed(v);
  }

  /** With no hexadecimal digit after "0x", `parseInt` gives NaN, although "0" alone reads as 0. */
  lemma BareHexPrefix(rest: string)
    requires rest == [] || !IsHexDigit(rest[0])
    ensures ParseInt("0x" + rest) == None
    ensures ParseInt("0") == Some(0)
  {
    var u := "0x" + rest;
    assert u[2..] == rest;
    assert TrimStart(u) == u by {
      assert !IsSpace(u[0]);
      TrimStartFixed(u);
    }
    ParseIntOfDigits("0");
  }

  /** `s.trim()`: no white space left at either end. */
  function Trim(s: string): (r: string)
    ensures |r| <= |s|
    ensures r == [] || (!IsSpace(r[0]) && !IsSpace(r[|r| - 1]))
  {
    TrimEnd(TrimStart(s))
  }

  lemma TrimStartFixed(s: string)
    requires s == [] || !IsSpace(s[0])
    ensures TrimStart(s) == s
  {
  }

  lemma TrimEndFixed(s: string)
    requires s == [] || !IsSpace(s[|s| - 1])
    ensures TrimEnd(s) == s
  {
  }

  /** Trimming twice changes nothing more. */
  lemma {:induction false} TrimIdempotent(s: string)
    ensures Trim(Trim(s)) == Trim(s)
  {
    var t := Trim(s);
    TrimStartFixed(t);
    TrimEndFixed(t);
  }

  function LowerChar(c: char): char
  {
    if 'A' <= c <= 'Z' then (c as int + 32) as char else c
  }

  function UpperChar(c: char): char
  {
    if 'a' <= c <= 'z' then (c as int - 32) as char else c
  }

  /** `toLowerCase` (letters A-Z). */
  function ToLower(s: string): (r: string)
    ensures |r| == |s|
    ensures forall i :: 0 <= i < |s| ==> r[i] == LowerChar(s[i])
  {
    if |s| == 0 then [] else [LowerChar(s[0])] + ToLower(s[1..])
  }

  /** `toUpperCase` (letters a-z). */
  function ToUpper(s: string): (r: string)
    ensures |r| == |s|
    ensures forall i :: 0 <= i < |s| ==> r[i] == UpperChar(s[i])
  {
    if |s| == 0 then [] else [UpperChar(s[0])] + ToUpper(s[1..])
  }

  predicate StartsWith(s: string, p: string)
  {
    |p| <= |s| && s[..|p|] == p
  }

  predicate EndsWith(s: string, p: string)
  {
    |p| <= |s| && s[|s| - |p|..] == p
  }

  /** `s.indexOf(p, from)`, or -1. */
  function IndexOfFrom(s: string, p: string, from: nat): (r: int)
    decreases |s| - from
    ensures r == -1 || (from <= r <= |s| && StartsWith(s[r..], p))
    ensures r == -1 ==> forall i :: from <= i <= |s| ==> !StartsWith(s[i..], p)
    ensures r >= 0 ==> forall i :: from <= i < r ==> !StartsWith(s[i..], p)
  {
    if from > |s| then -1
    else if StartsWith(s[from..], p) then from
    else IndexOfFrom(s, p, from + 1)
  }

  /** `s.indexOf(p) !== -1`. */
  predicate Contains(s: string, p: string)
  {
    IndexOfFrom(s, p, 0) >= 0
  }

  /** `s.substring(0, n)`. */
  function Take<T>(s: seq<T>, n: nat): (r: seq<T>)
    ensures |r| == Min(n, |s|)
    ensures r == s[..|r|]
  {
    if n < |s| then s[..n] else s
  }

  /** `s || d` on a string. */
  function OrDefault(s: string, d: string): string
  {
    if s == "" then d else s
  }

  /** `s.replace(/^@/, '')`. */
  function StripAt(s: string): (r: string)
    ensures StartsWith(s, "@") ==> r == s[1..]
    ensures !StartsWith(s, "@") ==> r == s
  {
    if |s| > 0 && s[0] == '@' then s[1..] else s
  }

  // ---------------------------------------------------------------- sequences

  /** The elements of `s` that satisfy `keep`, in their order. */
  function Filter<T>(s: seq<T>, keep: T -> bool): (r: seq<T>)
    ensures |r| <= |s|
    ensures forall i :: 0 <= i < |r| ==> keep(r[i])
  {
    if |s| == 0 then []
    else Filter(s[..|s| - 1], keep) + (if keep(s[|s| - 1]) then [s[|s| - 1]] else [])
  }

  lemma {:induction false} FilterConcat<T>(a: seq<T>, b: seq<T>, keep: T -> bool)
    ensures Filter(a + b, keep) == Filter(a, keep) + Filter(b, keep)
    decreases |b|
  {
    if |b| == 0 {
      assert a + b == a;
    } else {
      var b' := b[..|b| - 1];
      assert (a + b)[..|a + b| - 1] == a + b';
      FilterConcat(a, b', keep);
    }
  }

  lemma FilterSnoc<T>(s: seq<T>, x: T, keep: T -> bool)
    ensures Filter(s + [x], keep) == Filter(s, keep) + (if keep(x) then [x] else [])
  {
    assert (s + [x])[..|s|] == s;
  }

  lemma {:induction false} FilterCons<T>(x: T, rest: seq<T>, keep: T -> bool)
    ensures Filter([x] + rest, keep) == (if keep(x) then [x] else []) + Filter(rest, keep)
  {
    FilterConcat([x], rest, keep);
    assert [x][..0] == [];
  }

  /** Every element that `keep` accepts survives the filter. */
  lemma {:induction false} FilterContains<T>(s: seq<T>, keep: T -> bool, i: nat)
    requires i < |s| && keep(s[i])
    ensures s[i] in Filter(s, keep)
    decreases |s|
  {
    if i < |s| - 1 {
      var init := s[..|s| - 1];
      assert init[i] == s[i];
      FilterContains(init, keep, i);
    }
  }

  /** Every element of the filter comes from the input. */
  lemma {:induction false} FilterMember<T>(s: seq<T>, keep: T -> bool, x: T)
    requires x in Filter(s, keep)
    ensures x in s && keep(x)
    decreases |s|
  {
    var init := s[..|s| - 1];
    if x in Filter(init, keep) {
      FilterMember(init, keep, x);
      assert x in s by {
        var k :| 0 <= k < |init| && init[k] == x;
        assert s[k] == x;
      }
    } else {
      assert x == s[|s| - 1];
    }
  }

  lemma {:induction false} FilterAll<T>(s: seq<T>, keep: T -> bool)
    requires forall i :: 0 <= i < |s| ==> keep(s[i])
    ensures Filter(s, keep) == s
  {
    if |s| > 0 {
      var init := s[..|s| - 1];
      FilterAll(init, keep);
      assert init + [s[|s| - 1]] == s;
    }
  }

  /** A filter that rejects some element is shorter than its input. */
  lemma {:induction false} FilterDrops<T>(s: seq<T>, keep: T -> bool, i: nat)
    requires i < |s| && !keep(s[i])
    ensures |Filter(s, keep)| < |s|
    decreases |s|
  {
    var init := s[..|s| - 1];
    if i < |s| - 1 {
      assert init[i] == s[i];
      FilterDrops(init, keep, i);
    }
  }

  lemma {:induction false} FilterNone<T>(s: seq<T>, keep: T -> bool)
    requires forall i :: 0 <= i < |s| ==> !keep(s[i])
    ensures Filter(s, keep) == []
  {
    if |s| > 0 {
      FilterNone(s[..|s| - 1], keep);
    }
  }

  /** Filtering by a stricter predicate after a weaker one is filtering by the stricter one alone. */
  lemma {:induction false} FilterFilterImplied<T>(s: seq<T>, p: T -> bool, q: T -> bool)
    requires forall x :: q(x) ==> p(x)
    ensures Filter(Filter(s, p), q) == Filter(s, q)
  {
    if |s| > 0 {
      var init := s[..|s| - 1];
      var x := s[|s| - 1];
      assert s == init + [x];
      FilterFilterImplied(init, p, q);
      FilterSnoc(init, x, p);
      FilterSnoc(init, x, q);
      FilterConcat(Filter(init, p), if p(x) then [x] else [], q);
      if p(x) {
        FilterSnoc([], x, q);
      }
    }
  }

  /** Number of elements of `s` that satisfy `p`. */
  function Count<T>(s: seq<T>, p: T -> bool): nat
  {
    |Filter(s, p)|
  }

  /** Replacing an element by one that `p` judges alike leaves the count unchanged. */
  lemma CountUpdate<T>(s: seq<T>, k: nat, x: T, p: T -> bool)
    requires k < |s| && p(s[k]) == p(x)
    ensures Count(s[k := x], p) == Count(s, p)
  {
    var t := s[k := x];
    assert s == s[..k] + [s[k]] + s[k + 1..];
    assert t == s[..k] + [x] + s[k + 1..];
    FilterConcat(s[..k] + [s[k]], s[k + 1..], p);
    FilterConcat(s[..k], [s[k]], p);
    FilterConcat(s[..k] + [x], s[k + 1..], p);
    FilterConcat(s[..k], [x], p);
    assert [s[k]][..0] == [] && [x][..0] == [];
  }

  /** The index of the first element satisfying `p`, if any. */
  function FirstWhere<T>(s: seq<T>, p: T -> bool): (r: Option<nat>)
    ensures r.Some? ==> r.value < |s| && p(s[r.value])
    ensures r.Some? ==> forall j :: 0 <= j < r.value ==> !p(s[j])
    ensures r.None? ==> forall j :: 0 <= j < |s| ==> !p(s[j])
  {
    if |s| == 0 then None
    else if p(s[0]) then Some(0)
    else match FirstWhere(s[1..], p)
      case None => None
      case Some(k) => Some(k + 1)
  }

  /** The first match is the one before which nothing matches. */
  lemma {:induction false} FirstWhereAt<T>(s: seq<T>, p: T -> bool, k: nat)
    requires k < |s| && p(s[k])
    requires forall j :: 0 <= j < k ==> !p(s[j])
    ensures FirstWhere(s, p) == Some(k)
  {
    if k > 0 {
      assert !p(s[0]);
      assert forall j :: 0 <= j < k - 1 ==> !p(s[1..][j]) by {
        forall j | 0 <= j < k - 1 ensures !p(s[1..][j]) {
          assert s[1..][j] == s[j + 1];
        }
      }
      FirstWhereAt(s[1..], p, k - 1);
    }
  }

  /** The forward scan that stops at the first match (`for (...) if (...) { found = r; break; }`). */
  method FindFirst<T>(s: seq<T>, p: T -> bool) returns (r: Option<nat>)
    ensures r == FirstWhere(s, p)
  {
    var i := 0;
    while i < |s|
      invariant 0 <= i <= |s|
      invariant forall j :: 0 <= j < i ==> !p(s[j])
    {
      if p(s[i]) {
        assert FirstWhere(s, p) == Some(i);
        return Some(i);
      }
      i := i + 1;
    }
    return None;
  }

  /** The index of the last element satisfying `p`, if any. */
  function LastWhere<T>(s: seq<T>, p: T -> bool): (r: Option<nat>)
    ensures r.Some? ==> r.value < |s| && p(s[r.value])
    ensures r.Some? ==> forall j :: r.value < j < |s| ==> !p(s[j])
    ensures r.None? ==> forall j :: 0 <= j < |s| ==> !p(s[j])
  {
    if |s| == 0 then None
    else if p(s[|s| - 1]) then Some(|s| - 1)
    else LastWhere(s[..|s| - 1], p)
  }

  /** The backward scan that stops at the last match (`for (r = n - 1; ...; r--) if (...) break;`). */
  method FindLast<T>(s: seq<T>, p: T -> bool) returns (r: Option<nat>)
    ensures r == LastWhere(s, p)
  {
    var i := |s|;
    while i > 0
      invariant 0 <= i <= |s|
      invariant LastWhere(s, p) == LastWhere(s[..i], p)
    {
      assert s[..i][..i - 1] == s[..i - 1];
      if p(s[i - 1]) {
        return Some(i - 1);
      }
      i := i - 1;
    }
    return None;
  }

  /** The first non-zero number, or 0 (`if (!first) first = x;` over a scan). */
  function FirstNonZero(s: seq<int>): (r: int)
    ensures r != 0 ==> exists i :: 0 <= i < |s| && s[i] == r && forall j :: 0 <= j < i ==> s[j] == 0
    ensures r == 0 ==> forall i :: 0 <= i < |s| ==> s[i] == 0
  {
    if |s| == 0 then 0
    else if s[0] != 0 then s[0]
    else
      var r := FirstNonZero(s[1..]);
      assert r != 0 ==> exists i :: 0 <= i < |s| && s[i] == r && forall j :: 0 <= j < i ==> s[j] == 0 by {
        if r != 0 {
          var i :| 0 <= i < |s[1..]| && s[1..][i] == r && forall j :: 0 <= j < i ==> s[1..][j] == 0;
          assert s[i + 1] == r;
          assert forall j :: 0 <= j < i + 1 ==> s[j] == 0 by {
            forall j | 0 <= j < i + 1 ensures s[j] == 0 {
              if j > 0 {
                assert s[j] == s[1..][j - 1];
              }
            }
          }
        }
      }
      assert r == 0 ==> forall i :: 0 <= i < |s| ==> s[i] == 0 by {
        if r == 0 {
          forall i | 0 <= i < |s| ensures s[i] == 0 {
            if i > 0 {
              assert s[i] == s[1..][i - 1];
            }
          }
        }
      }
      r
  }

  /** Extending the scan: the first non-zero number stays, or the new one becomes it. */
  lemma {:induction false} FirstNonZeroSnoc(s: seq<int>, x: int)
    ensures FirstNonZero(s + [x]) == if FirstNonZero(s) != 0 then FirstNonZero(s) else x
  {
    if |s| == 0 {
      assert [x][1..] == [];
    } else if s[0] == 0 {
      assert (s + [x])[1..] == s[1..] + [x];
      FirstNonZeroSnoc(s[1..], x);
    }
  }

  function Reverse<T>(s: seq<T>): (r: seq<T>)
    ensures |r| == |s|
    ensures forall i :: 0 <= i < |s| ==> r[i] == s[|s| - 1 - i]
  {
    if |s| == 0 then [] else [s[|s| - 1]] + Reverse(s[..|s| - 1])
  }

  /** Elements are in non-increasing order of `key`. */
  predicate SortedDesc<T>(s: seq<T>, key: T -> int)
  {
    forall i, j :: 0 <= i < j < |s| ==> key(s[i]) >= key(s[j])
  }

  /** Elements are in non-decreasing order of `key`. */
  predicate SortedAsc<T>(s: seq<T>, key: T -> int)
  {
    forall i, j :: 0 <= i < j < |s| ==> key(s[i]) <= key(s[j])
  }

  /** Inserts `x` before the first element whose key does not exceed its own. */
  function InsertDesc<T>(x: T, s: seq<T>, key: T -> int): (r: seq<T>)
    requires SortedDesc(s, key)
    ensures |r| == |s| + 1
    ensures multiset(r) == multiset(s) + multiset{x}
    ensures SortedDesc(r, key)
    ensures r[0] == x || (|s| > 0 && r[0] == s[0])
  {
    if |s| == 0 || key(x) >= key(s[0]) then [x] + s
    else
      var t := InsertDesc(x, s[1..], key);
      assert key(s[0]) >= key(t[0]);
      ConsSorted(s[0], t, key);
      assert multiset(s) == multiset{s[0]} + multiset(s[1..]) by {
        assert s == [s[0]] + s[1..];
      }
      [s[0]] + t
  }

  /** A head whose key is at least the first key of a sorted tail keeps it sorted. */
  lemma ConsSorted<T>(h: T, t: seq<T>, key: T -> int)
    requires SortedDesc(t, key)
    requires |t| > 0 ==> key(h) >= key(t[0])
    ensures SortedDesc([h] + t, key)
  {
    var r := [h] + t;
    forall i, j | 0 <= i < j < |r|
      ensures key(r[i]) >= key(r[j])
    {
      assert r[j] == t[j - 1];
      if i > 0 {
        assert r[i] == t[i - 1];
      } else if j > 1 {
        assert key(t[0]) >= key(t[j - 1]);
      }
    }
  }

  /**
   * `s.slice().sort(function(a, b) { return key(b) - key(a); })`: a stable
   * sort, highest key first; elements with equal keys keep their order.
   */
  function SortDesc<T>(s: seq<T>, key: T -> int): (r: seq<T>)
    ensures |r| == |s|
    ensures multiset(r) == multiset(s)
    ensures SortedDesc(r, key)
  {
    if |s| == 0 then []
    else
      assert s == [s[0]] + s[1..];
      InsertDesc(s[0], SortDesc(s[1..], key), key)
  }

  /** Sorting neither adds nor drops elements. */
  lemma SortDescMember<T>(s: seq<T>, key: T -> int, x: T)
    ensures x in SortDesc(s, key) <==> x in s
  {
    var r := SortDesc(s, key);
    assert x in r <==> x in multiset(r);
    assert x in s <==> x in multiset(s);
  }

  /** The elements whose key is `k`, in their order. */
  function WithKey<T>(s: seq<T>, key: T -> int, k: int): seq<T>
  {
    if |s| == 0 then []
    else (if key(s[0]) == k then [s[0]] else []) + WithKey(s[1..], key, k)
  }

  lemma WithKeyCons<T>(h: T, t: seq<T>, key: T -> int, k: int)
    ensures WithKey([h] + t, key, k) == (if key(h) == k then [h] else []) + WithKey(t, key, k)
  {
    assert ([h] + t)[1..] == t;
  }

  /** Inserting places the new element before the elements of equal key. */
  lemma {:induction false} InsertWithKey<T>(x: T, s: seq<T>, key: T -> int, k: int)
    requires SortedDesc(s, key)
    ensures WithKey(InsertDesc(x, s, key), key, k) == (if key(x) == k then [x] else []) + WithKey(s, key, k)
  {
    var r := InsertDesc(x, s, key);
    if |s| == 0 || key(x) >= key(s[0]) {
      assert r == [x] + s;
      WithKeyCons(x, s, key, k);
    } else {
      var t := InsertDesc(x, s[1..], key);
      assert r == [s[0]] + t;
      InsertWithKey(x, s[1..], key, k);
      WithKeyCons(s[0], t, key, k);
      var rest := WithKey(s[1..], key, k);
      if key(x) == k {
        assert key(s[0]) != k;
        assert WithKey(r, key, k) == [x] + rest;
      } else {
        assert WithKey(r, key, k) == (if key(s[0]) == k then [s[0]] else []) + rest;
      }
    }
  }

  /** The sort is stable: elements of equal key keep their original order. */
  lemma {:induction false} SortDescStable<T>(s: seq<T>, key: T -> int, k: int)
    ensures WithKey(SortDesc(s, key), key, k) == WithKey(s, key, k)
  {
    if |s| > 0 {
      SortDescStable(s[1..], key, k);
      InsertWithKey(s[0], SortDesc(s[1..], key), key, k);
    }
  }

  /** The stable ascending sort: descending on the negated key. */
  function SortAsc<T>(s: seq<T>, key: T -> int): (r: seq<T>)
    ensures |r| == |s|
    ensures multiset(r) == multiset(s)
    ensures SortedAsc(r, key)
  {
    var r := SortDesc(s, x => -key(x));
    assert forall i, j :: 0 <= i < j < |r| ==> -key(r[i]) >= -key(r[j]);
    r
  }

}
