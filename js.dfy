/** The pieces of JavaScript runtime behaviour the backend relies on: JSON values,
    query-string values, `Number(...)` on strings, `Array.prototype.slice` and
    `String.prototype.slice`, `Math.ceil` of a quotient, the global `escape`,
    `String(...)` coercion, `includes`, `startsWith`, and the `filter` /
    `replace(/x/g, '')` idiom that removes every occurrence of one value.
    Numbers are restricted to integers (with NaN and the infinities kept apart). */
module Js {
  import opened Wrappers

  /** A JSON value as a request body or a response carries it. */
  datatype Json =
    | JNull
    | JBool(b: bool)
    | JNum(n: int)
    | JStr(s: string)
    | JArr(items: seq<Json>)
    | JObj(fields: map<string, Json>)

  /** A query-string value as Express's parser delivers it: one string, or a list
      when the key is repeated. */
  datatype QueryValue = QStr(s: string) | QList(items: seq<string>)

  /** JavaScript truthiness of a query value: only the empty string is falsy. */
  predicate QueryTruthy(q: QueryValue)
  {
    q.QStr? ==> q.s != ""
  }

  /** An integer JavaScript number, NaN or an infinity. */
  datatype Number = Finite(n: int) | NaN | PosInfinity | NegInfinity

  predicate IsDigit(c: char)
  {
    '0' <= c <= '9'
  }

  /** The value of a hexadecimal digit, in either case. */
  function HexValue(c: char): (r: Option<nat>)
    ensures r.Some? ==> r.value < 16
  {
    if '0' <= c <= '9' then Some(c as int - '0' as int)
    else if 'a' <= c <= 'f' then Some(c as int - 'a' as int + 10)
    else if 'A' <= c <= 'F' then Some(c as int - 'A' as int + 10)
    else None
  }

  predicate IsHexDigit(c: char)
  {
    HexValue(c).Some?
  }

  predicate AllDigits(s: string)
  {
    forall i :: 0 <= i < |s| ==> IsDigit(s[i])
  }

  /** The value of a string of decimal digits. */
  function DigitsValue(s: string): nat
    requires AllDigits(s)
  {
    if s == [] then 0
    else
      assert IsDigit(s[|s| - 1]);
      DigitsValue(s[..|s| - 1]) * 10 + (s[|s| - 1] as int - '0' as int)
  }

  /** `Number(s)` for the integer literals the model covers: the empty string is 0,
      an optional sign followed by decimal digits is that integer, anything else NaN. */
  function ParseNumber(s: string): Number
  {
    if s == "" then Finite(0)
    else if s[0] == '-' && |s| > 1 && AllDigits(s[1..]) then Finite(-(DigitsValue(s[1..]) as int))
    else if s[0] == '+' && |s| > 1 && AllDigits(s[1..]) then Finite(DigitsValue(s[1..]))
    else if AllDigits(s) then Finite(DigitsValue(s))
    else NaN
  }

  /** `Number(q)`: a list converts through its comma-joined string form. */
  function NumberOfQuery(q: QueryValue): Number
  {
    match q
    case QStr(s) => ParseNumber(s)
    case QList(items) =>
      if |items| == 0 then Finite(0)
      else if |items| == 1 then ParseNumber(items[0])
      else NaN
  }

  function DigitChar(d: nat): (c: char)
    requires d < 10
    ensures IsDigit(c) && c as int - '0' as int == d
  {
    ('0' as int + d) as char
  }

  /** Decimal digits of a natural number, most significant first. */
  function NatDigits(n: nat): (s: string)
    ensures |s| > 0 && AllDigits(s)
  {
    if n < 10 then [DigitChar(n)] else NatDigits(n / 10) + [DigitChar(n % 10)]
  }

  /** `String(n)` for an integer. */
  function Decimal(n: int): string
  {
    if n < 0 then "-" + NatDigits(-n) else NatDigits(n)
  }

  lemma {:induction false} NatDigitsValue(n: nat)
    ensures DigitsValue(NatDigits(n)) == n
  {
    var s := NatDigits(n);
    if n >= 10 {
      NatDigitsValue(n / 10);
      assert s[..|s| - 1] == NatDigits(n / 10);
    }
  }

  /** `Number(String(n)) === n`: the parser and the printer agree on integers. */
  lemma ParseDecimal(n: int)
    ensures ParseNumber(Decimal(n)) == Finite(n)
  {
    if n < 0 {
      NatDigitsValue(-n);
      var s := Decimal(n);
      assert s[1..] == NatDigits(-n);
    } else {
      NatDigitsValue(n);
    }
  }

  /** `Number(s)` is NaN whenever the string holds a character that is neither a
      digit nor a leading sign. */
  lemma ParseNumberNaN(s: string, i: int)
    requires 0 <= i < |s| && !IsDigit(s[i]) && (i > 0 || (s[0] != '-' && s[0] != '+'))
    ensures ParseNumber(s) == NaN
  {
    if i > 0 {
      assert !AllDigits(s[1..]) by { assert s[1..][i - 1] == s[i]; }
    }
  }

  /** The index a relative `slice` argument denotes in a sequence of length `len`. */
  function SliceIndex(i: int, len: nat): (k: nat)
    ensures k <= len
  {
    if i < 0 then (if len + i < 0 then 0 else len + i) else if i > len then len else i
  }

  /** `s.slice(start, end)`, with JavaScript's treatment of negative and
      out-of-range arguments. */
  function Slice<T>(s: seq<T>, start: int, end: int): (r: seq<T>)
    ensures |r| <= |s|
    ensures 0 <= start <= end ==>
      r == s[(if start < |s| then start else |s|)..(if end < |s| then end else |s|)]
    ensures 0 <= end <= start ==> r == []
  {
    var a, b := SliceIndex(start, |s|), SliceIndex(end, |s|);
    if a < b then s[a..b] else []
  }

  /** `s.slice(0, n)`: the longest prefix of `s` that has at most `n` elements. */
  function Truncate<T>(s: seq<T>, n: nat): (r: seq<T>)
    ensures r <= s && |r| <= n
    ensures |s| <= n ==> r == s
    ensures n <= |s| ==> |r| == n
  {
    Slice(s, 0, n)
  }

  /** `Math.ceil(n / d)` for integers. */
  function CeilDiv(n: int, d: int): (r: Number)
    ensures d > 0 ==> r.Finite? && (r.n - 1) * d < n <= r.n * d
    ensures d == 0 ==> r == (if n > 0 then PosInfinity else if n < 0 then NegInfinity else NaN)
  {
    if d > 0 then Finite(if n % d == 0 then n / d else n / d + 1)
    else if d < 0 then Finite(-(n / -d))
    else if n > 0 then PosInfinity
    else if n < 0 then NegInfinity
    else NaN
  }

  /** The characters the global `escape` leaves as they are. */
  predicate EscapeSafe(c: char)
  {
    ('A' <= c <= 'Z') || ('a' <= c <= 'z') || ('0' <= c <= '9') ||
    c == '@' || c == '*' || c == '_' || c == '+' || c == '-' || c == '.' || c == '/'
  }

  function HexDigit(d: nat): char
    requires d < 16
  {
    if d < 10 then ('0' as int + d) as char else ('A' as int + d - 10) as char
  }

  function Hex2(n: nat): string
    requires n < 0x100
  {
    [HexDigit(n / 16), HexDigit(n % 16)]
  }

  function Hex4(n: nat): string
    requires n < 0x10000
  {
    Hex2(n / 0x100) + Hex2(n % 0x100)
  }

  /** `escape` of one character; a character outside the basic plane is escaped as
      its two UTF-16 surrogates, as JavaScript strings hold it. */
  function EscapeChar(c: char): string
  {
    var code := c as int;
    if EscapeSafe(c) then [c]
    else if code < 0x100 then "%" + Hex2(code)
    else if code < 0x10000 then "%u" + Hex4(code)
    else
      var v := code - 0x10000;
      "%u" + Hex4(0xD800 + v / 0x400) + "%u" + Hex4(0xDC00 + v % 0x400)
  }

  /** The global `escape` function (no import shadows it where the backend calls it). */
  function Escape(s: string): (r: string)
    ensures |r| >= |s|
  {
    if s == [] then [] else EscapeChar(s[0]) + Escape(s[1..])
  }

  lemma {:induction false} EscapeConcat(a: string, b: string)
    ensures Escape(a + b) == Escape(a) + Escape(b)
  {
    if a != [] {
      assert (a + b)[0] == a[0];
      assert (a + b)[1..] == a[1..] + b;
      EscapeConcat(a[1..], b);
      calc {
        Escape(a + b);
        EscapeChar(a[0]) + Escape(a[1..] + b);
        EscapeChar(a[0]) + (Escape(a[1..]) + Escape(b));
        (EscapeChar(a[0]) + Escape(a[1..])) + Escape(b);
      }
    } else {
      assert a + b == b;
    }
  }

  /** A string made only of `escape`-safe characters is left as it is. */
  lemma {:induction false} EscapeSafeIdentity(s: string)
    requires forall i :: 0 <= i < |s| ==> EscapeSafe(s[i])
    ensures Escape(s) == s
  {
    if s != [] {
      EscapeSafeIdentity(s[1..]);
    }
  }

  /** Every character of `t` is an `escape`-safe character or '%'. */
  predicate Escaped(t: string)
  {
    forall i :: 0 <= i < |t| ==> EscapeSafe(t[i]) || t[i] == '%'
  }

  lemma EscapedConcat(a: string, b: string)
    requires Escaped(a) && Escaped(b)
    ensures Escaped(a + b)
  {
    forall i | 0 <= i < |a + b|
      ensures EscapeSafe((a + b)[i]) || (a + b)[i] == '%'
    {
      if i < |a| {
        assert (a + b)[i] == a[i];
      } else {
        assert (a + b)[i] == b[i - |a|];
      }
    }
  }

  lemma Hex2Escaped(n: nat)
    requires n < 0x100
    ensures Escaped(Hex2(n))
  {
    var h, l := HexDigit(n / 16), HexDigit(n % 16);
    assert EscapeSafe(h) && EscapeSafe(l);
    assert Hex2(n) == [h, l];
  }

  lemma Hex4Escaped(n: nat)
    requires n < 0x10000
    ensures Escaped(Hex4(n))
  {
    Hex2Escaped(n / 0x100);
    Hex2Escaped(n % 0x100);
    EscapedConcat(Hex2(n / 0x100), Hex2(n % 0x100));
  }

  /** The escape sequence of one character is made of safe characters and '%'. */
  lemma EscapeCharOutput(c: char)
    ensures Escaped(EscapeChar(c))
  {
    var code := c as int;
    assert Escaped("%") && Escaped("%u");
    if EscapeSafe(c) {
      assert EscapeChar(c) == [c];
    } else if code < 0x100 {
      Hex2Escaped(code);
      EscapedConcat("%", Hex2(code));
    } else if code < 0x10000 {
      Hex4Escaped(code);
      EscapedConcat("%u", Hex4(code));
    } else {
      var v := code - 0x10000;
      var hi, lo := Hex4(0xD800 + v / 0x400), Hex4(0xDC00 + v % 0x400);
      Hex4Escaped(0xD800 + v / 0x400);
      Hex4Escaped(0xDC00 + v % 0x400);
      EscapedConcat("%u", hi);
      EscapedConcat("%u", lo);
      EscapedConcat("%u" + hi, "%u" + lo);
      assert EscapeChar(c) == ("%u" + hi) + ("%u" + lo);
    }
  }

  /** Every character `escape` produces is an `escape`-safe character or '%'. */
  lemma {:induction false} EscapeOutput(s: string)
    ensures Escaped(Escape(s))
  {
    if s == [] {
      assert Escape(s) == [];
    } else {
      EscapeOutput(s[1..]);
      EscapeCharOutput(s[0]);
      EscapedConcat(EscapeChar(s[0]), Escape(s[1..]));
    }
  }

  /** `sub` occurs in `s` starting at index `i`. */
  predicate OccursAt(s: string, sub: string, i: int)
  {
    0 <= i <= |s| - |sub| && s[i..i + |sub|] == sub
  }

  /** `s.includes(sub)`. */
  function Includes(s: string, sub: string): (r: bool)
    ensures r <==> exists i :: OccursAt(s, sub, i)
    decreases |s|
  {
    if sub <= s then (assert OccursAt(s, sub, 0); true)
    else if s == [] then false
    else
      IncludesStep(s, sub);
      Includes(s[1..], sub)
  }

  /** Past a non-match at index 0, `sub` occurs in `s` just when it occurs in `s[1..]`. */
  lemma IncludesStep(s: string, sub: string)
    requires s != [] && !(sub <= s)
    ensures (exists i :: OccursAt(s, sub, i)) <==> (exists i :: OccursAt(s[1..], sub, i))
  {
    if exists i :: OccursAt(s[1..], sub, i) {
      var i :| OccursAt(s[1..], sub, i);
      assert s[i + 1..i + 1 + |sub|] == s[1..][i..i + |sub|];
      assert OccursAt(s, sub, i + 1);
    }
    if exists i :: OccursAt(s, sub, i) {
      var i :| OccursAt(s, sub, i);
      assert i != 0;
      assert s[1..][i - 1..i - 1 + |sub|] == s[i..i + |sub|];
      assert OccursAt(s[1..], sub, i - 1);
    }
  }

  /** `s.startsWith(p)`. */
  predicate StartsWith(s: string, p: string)
  {
    p <= s
  }

  /** Every element but `x`, in order: `s.filter(y => y !== x)`, and for strings
      `s.replace(/x/g, '')`. */
  function RemoveAll<T(==)>(s: seq<T>, x: T): (r: seq<T>)
    ensures x !in r
    ensures forall y :: y in s && y != x ==> y in r
    ensures forall y :: y in r ==> y in s
    ensures multiset(r) == multiset(s)[x := 0]
    ensures x !in s ==> r == s
  {
    if s == [] then []
    else if s[0] == x then (assert s == [s[0]] + s[1..]; RemoveAll(s[1..], x))
    else (assert s == [s[0]] + s[1..]; [s[0]] + RemoveAll(s[1..], x))
  }

  /** Removal works element by element, so it keeps the survivors' order. */
  lemma {:induction false} RemoveAllConcat<T>(a: seq<T>, b: seq<T>, x: T)
    ensures RemoveAll(a + b, x) == RemoveAll(a, x) + RemoveAll(b, x)
  {
    if a != [] {
      assert (a + b)[0] == a[0];
      assert (a + b)[1..] == a[1..] + b;
      RemoveAllConcat(a[1..], b, x);
      assert RemoveAll(a + b, x) == (if a[0] == x then [] else [a[0]]) + RemoveAll(a[1..] + b, x);
      assert RemoveAll(a, x) == (if a[0] == x then [] else [a[0]]) + RemoveAll(a[1..], x);
    } else {
      assert a + b == b;
    }
  }

  /** Removal leaves exactly as many elements as were different from `x`. */
  lemma RemoveAllLength<T>(s: seq<T>, x: T)
    ensures |RemoveAll(s, x)| == |s| - multiset(s)[x]
  {
    var r := RemoveAll(s, x);
    assert |multiset(r)| == |r|;
    assert |multiset(s)| == |s|;
    assert multiset(s) == multiset(r) + multiset{}[x := multiset(s)[x]];
  }

  /** `s.replace(/\D/g, '')`: the decimal digits of `s`, in order. */
  function DigitsOnly(s: string): (r: string)
    ensures AllDigits(r)
    ensures |r| <= |s|
  {
    if s == [] then []
    else if IsDigit(s[0]) then [s[0]] + DigitsOnly(s[1..]) else DigitsOnly(s[1..])
  }

  /** Every digit of `s` survives, as often as it occurs, and nothing else does. */
  lemma {:induction false} DigitsOnlyKeepsDigits(s: string)
    ensures forall c :: IsDigit(c) ==> multiset(DigitsOnly(s))[c] == multiset(s)[c]
    ensures forall c :: !IsDigit(c) ==> multiset(DigitsOnly(s))[c] == 0
  {
    if s != [] {
      DigitsOnlyKeepsDigits(s[1..]);
      assert s == [s[0]] + s[1..];
      assert multiset(s) == multiset{s[0]} + multiset(s[1..]);
    }
  }

  lemma {:induction false} DigitsOnlyConcat(a: string, b: string)
    ensures DigitsOnly(a + b) == DigitsOnly(a) + DigitsOnly(b)
  {
    if a != [] {
      assert (a + b)[0] == a[0];
      assert (a + b)[1..] == a[1..] + b;
      DigitsOnlyConcat(a[1..], b);
      if IsDigit(a[0]) {
        assert DigitsOnly(a + b) == [a[0]] + DigitsOnly(a[1..] + b);
        assert DigitsOnly(a) == [a[0]] + DigitsOnly(a[1..]);
      } else {
        assert DigitsOnly(a + b) == DigitsOnly(a[1..] + b);
        assert DigitsOnly(a) == DigitsOnly(a[1..]);
      }
    } else {
      assert a + b == b;
    }
  }

  /** A string that is all digits is its own normalisation. */
  lemma {:induction false} DigitsOnlyIdentity(s: string)
    requires AllDigits(s)
    ensures DigitsOnly(s) == s
  {
    if s != [] {
      DigitsOnlyIdentity(s[1..]);
    }
  }

  /** `xs.join(sep)` of strings. */
  function Join(xs: seq<string>, sep: string): string
  {
    if xs == [] then "" else if |xs| == 1 then xs[0] else xs[0] + sep + Join(xs[1..], sep)
  }

  /** `String(v)`: how a JSON value prints inside a template literal. */
  function JsString(v: Json): string
    decreases v, 0
  {
    match v
    case JNull => "null"
    case JBool(b) => if b then "true" else "false"
    case JNum(n) => Decimal(n)
    case JStr(s) => s
    case JArr(items) => Join(seq(|items|, i requires 0 <= i < |items| => ArrayElementString(items[i])), ",")
    case JObj(_) => "[object Object]"
  }

  /** `Array.prototype.join` prints a null element as the empty string. */
  function ArrayElementString(v: Json): string
    decreases v, 1
  {
    if v.JNull? then "" else JsString(v)
  }

  function AsciiLowerChar(c: char): char
  {
    if 'A' <= c <= 'Z' then (c as int + 32) as char else c
  }

  /** `s.toLowerCase()` on the ASCII letters. */
  function AsciiLower(s: string): (r: string)
    ensures |r| == |s|
    ensures forall i :: 0 <= i < |s| ==> r[i] == AsciiLowerChar(s[i])
  {
    if s == [] then [] else [AsciiLowerChar(s[0])] + AsciiLower(s[1..])
  }
  /** `String(q)` of a query value: a list prints comma-joined. */
  function QueryText(q: QueryValue): string
  {
    match q
    case QStr(s) => s
    case QList(items) => Join(items, ",")
  }

  /** `a - b`, `a + b` and `a * b` on finite values and NaN. */
  function Sub(a: Number, b: Number): (r: Number)
    ensures r.Finite? <==> a.Finite? && b.Finite?
  {
    if a.Finite? && b.Finite? then Finite(a.n - b.n) else NaN
  }

  function Add(a: Number, b: Number): (r: Number)
    ensures r.Finite? <==> a.Finite? && b.Finite?
  {
    if a.Finite? && b.Finite? then Finite(a.n + b.n) else NaN
  }

  function Mul(a: Number, b: Number): (r: Number)
    ensures r.Finite? <==> a.Finite? && b.Finite?
  {
    if a.Finite? && b.Finite? then Finite(a.n * b.n) else NaN
  }

  /** The integer a `slice` argument converts to in a sequence of length `len`:
      NaN counts as 0, and an infinity clamps to the end (`+Infinity`) or the
      start (`-Infinity`), as `ToIntegerOrInfinity` and the relative-index rule do. */
  function SliceArgument(n: Number, len: nat): (k: int)
    ensures n.NaN? ==> k == 0
    ensures n.PosInfinity? ==> SliceIndex(k, len) == len
    ensures n.NegInfinity? ==> SliceIndex(k, len) == 0
  {
    match n
    case Finite(i) => i
    case NaN => 0
    case PosInfinity => len
    case NegInfinity => -(len as int)
  }

  /** `s.slice(start, end)` with number arguments. */
  function SliceNumbers<T>(s: seq<T>, start: Number, end: Number): (r: seq<T>)
    ensures |r| <= |s|
    ensures start.PosInfinity? || end.NegInfinity? || end.NaN? ==> r == []
    ensures (start.NegInfinity? || start.NaN?) && end.PosInfinity? ==> r == s
  {
    Slice(s, SliceArgument(start, |s|), SliceArgument(end, |s|))
  }

  /** `Math.ceil(n / d)` for a divisor that is a number value. */
  function CeilDivNumber(n: int, d: Number): (r: Number)
    ensures d.NaN? ==> r.NaN?
  {
    if d.Finite? then CeilDiv(n, d.n) else if d.NaN? then NaN else Finite(0)
  }
}
