/** Python-level values and errors, and the few built-in string operations the
    extractor relies on: f-string rendering, truthiness, `str.strip`,
    `str.rsplit(sep, 1)`, `str.replace(c, "")` and `str.endswith`. */
module PyValues {

  datatype Option<+T> = None | Some(value: T)

  /** The exceptions the modelled code raises or lets through. A failing call
      into the search backend is `TransportError`. */
  datatype Error =
    | KeyError(arg: string)
    | TypeError(reason: string)
    | ValueError(reason: string)
    | AttributeError(name: string)
    | IndexError
    | NotImplementedError(reason: string)
    | TransportError

  datatype Result<+T> = Ok(value: T) | Err(error: Error)

  /** A value loaded from JSON/YAML or returned by the search backend. */
  datatype Value =
    | Null
    | Bool(b: bool)
    | Int(i: int)
    | Str(s: string)
    | List(items: seq<Value>)
    | Obj(fields: map<string, Value>)

  /** A dictionary with string keys: a config, a search-parameter set or a hit. */
  type Record = map<string, Value>

  /** Python truthiness (`if v:`). */
  predicate Truthy(v: Value) {
    match v
    case Null => false
    case Bool(b) => b
    case Int(i) => i != 0
    case Str(s) => s != []
    case List(xs) => xs != []
    case Obj(m) => m != map[]
  }

  /** `m.get(key, default)` */
  function Get(m: Record, key: string, default: Value): Value {
    if key in m then m[key] else default
  }

  // ---------------------------------------------------------------------
  // Decimal rendering of integers

  predicate IsDigit(c: char) {
    '0' <= c <= '9'
  }

  function DigitChar(d: nat): (c: char)
    requires d < 10
    ensures IsDigit(c) && DigitValue(c) == d
  {
    (48 + d) as char
  }

  function DigitValue(c: char): nat
    requires IsDigit(c)
  {
    c as int - 48
  }

  /** `str(n)` for a non-negative integer: its decimal digits, without
      leading zeros. */
  function Decimal(n: nat): (s: string)
    ensures |s| >= 1
    ensures forall i :: 0 <= i < |s| ==> IsDigit(s[i])
    ensures s[0] == '0' ==> n == 0
    decreases n
  {
    if n < 10 then [DigitChar(n)] else Decimal(n / 10) + [DigitChar(n % 10)]
  }

  /** The number a string of decimal digits denotes (`int(s)`). */
  function ParseDecimal(s: string): nat
    requires forall i :: 0 <= i < |s| ==> IsDigit(s[i])
  {
    if s == [] then 0 else ParseDecimal(s[..|s| - 1]) * 10 + DigitValue(s[|s| - 1])
  }

  /** `int(str(n)) == n`: decimal rendering loses nothing. */
  lemma {:induction false} DecimalRoundTrip(n: nat)
    ensures ParseDecimal(Decimal(n)) == n
    decreases n
  {
    if n >= 10 {
      var s := Decimal(n);
      assert s[..|s| - 1] == Decimal(n / 10);
      DecimalRoundTrip(n / 10);
    }
  }

  /** What an f-string substitutes for a value: `f"{v}"`. Containers are
      rendered as a placeholder rather than Python's repr of their elements. */
  function Render(v: Value): (r: string)
    ensures v.Str? ==> r == v.s
    ensures r == [] <==> v == Str([])
    ensures v.Int? && v.i >= 0 ==> r == Decimal(v.i) && ParseDecimal(r) == v.i
    ensures v.Int? && v.i < 0 ==> r[0] == '-' && r[1..] == Decimal(-v.i) && ParseDecimal(r[1..]) == -v.i
  {
    match v
    case Null => "None"
    case Bool(b) => if b then "True" else "False"
    case Int(i) =>
      if i < 0 then DecimalRoundTrip(-i); "-" + Decimal(-i)
      else DecimalRoundTrip(i); Decimal(i)
    case Str(s) => s
    case List(_) => "[...]"
    case Obj(_) => "{...}"
  }

  // ---------------------------------------------------------------------
  // str.strip()

  /** The characters `str.isspace()` accepts, hence those `str.strip()` removes. */
  predicate IsSpace(c: char) {
    var k := c as int;
    (9 <= k <= 13) || (28 <= k <= 32) || k == 0x85 || k == 0xA0 || k == 0x1680
    || (0x2000 <= k <= 0x200A) || k == 0x2028 || k == 0x2029 || k == 0x202F
    || k == 0x205F || k == 0x3000
  }

  function TrimStart(s: string): (r: string)
    ensures |r| <= |s| && r == s[|s| - |r|..]
    ensures r == [] || !IsSpace(r[0])
    ensures forall i :: 0 <= i < |s| - |r| ==> IsSpace(s[i])
  {
    if s != [] && IsSpace(s[0]) then TrimStart(s[1..]) else s
  }

  function TrimEnd(s: string): (r: string)
    ensures |r| <= |s| && r == s[..|r|]
    ensures r == [] || !IsSpace(r[|r| - 1])
    ensures forall i :: |r| <= i < |s| ==> IsSpace(s[i])
  {
    if s != [] && IsSpace(s[|s| - 1]) then TrimEnd(s[..|s| - 1]) else s
  }

  /** `s.strip()` */
  function Strip(s: string): (r: string)
    ensures r == [] || (!IsSpace(r[0]) && !IsSpace(r[|r| - 1]))
    ensures var k := |s| - |TrimStart(s)|;
      && k + |r| <= |s|
      && r == s[k..k + |r|]
      && (forall i :: 0 <= i < k ==> IsSpace(s[i]))
      && (forall i :: k + |r| <= i < |s| ==> IsSpace(s[i]))
  {
    TrimEnd(TrimStart(s))
  }

  /** `s.strip() == ""` exactly when every character of `s` is whitespace. */
  lemma StripEmptyIffAllSpace(s: string)
    ensures Strip(s) == [] <==> forall i :: 0 <= i < |s| ==> IsSpace(s[i])
  {
    var t := TrimStart(s);
    if Strip(s) != [] {
      var r := Strip(s);
      assert t[0] == r[0];
      assert s[|s| - |t|] == t[0];
    }
  }

  /** A string with no whitespace at either end is its own `strip()`. */
  lemma StripKeeps(s: string)
    requires s != [] && !IsSpace(s[0]) && !IsSpace(s[|s| - 1])
    ensures Strip(s) == s
  {
    assert TrimStart(s) == s;
  }

  // ---------------------------------------------------------------------
  // str.rsplit(sep, maxsplit=1), str.replace(c, ""), str.endswith

  /** The position of the last occurrence of `c` in `s`, if any. */
  function LastIndexOf(s: string, c: char): (r: Option<nat>)
    ensures r.None? <==> c !in s
    ensures r.Some? ==> r.value < |s| && s[r.value] == c && c !in s[r.value + 1..]
  {
    if s == [] then None
    else if s[|s| - 1] == c then Some(|s| - 1)
    else
      var r := LastIndexOf(s[..|s| - 1], c);
      assert r.Some? ==> s[r.value + 1..] == s[..|s| - 1][r.value + 1..] + [s[|s| - 1]];
      assert s == s[..|s| - 1] + [s[|s| - 1]];
      r
  }

  /** `s.rsplit(c, maxsplit=1)[0]`: what precedes the last `c`, or all of `s`. */
  function RSplitHead(s: string, c: char): (r: string)
    ensures c !in s ==> r == s
    ensures c in s ==> |r| < |s| && r == s[..|r|] && s[|r|] == c
  {
    match LastIndexOf(s, c)
    case None => s
    case Some(i) => s[..i]
  }

  /** `s.rsplit(c, maxsplit=1)[-1]`: what follows the last `c`, or all of `s`. */
  function RSplitLast(s: string, c: char): (r: string)
    ensures c !in r
    ensures c !in s ==> r == s
    ensures c in s ==> s == RSplitHead(s, c) + [c] + r
  {
    match LastIndexOf(s, c)
    case None => s
    case Some(i) => s[i + 1..]
  }

  /** Splitting a string built as `head + c + tail`, where `tail` holds no
      `c`, at its last `c` gives back `head` and `tail`. */
  lemma {:induction false} RSplitJoin(head: string, c: char, tail: string)
    requires c !in tail
    ensures RSplitHead(head + [c] + tail, c) == head
    ensures RSplitLast(head + [c] + tail, c) == tail
  {
    var s := head + [c] + tail;
    var r := LastIndexOf(s, c);
    assert s[|head|] == c;
    assert r.Some? && r.value == |head|;
    assert s[..|head|] == head;
    assert s[|head| + 1..] == tail;
  }

  /** `RSplitLast` returns a suffix of its input. */
  lemma RSplitLastIsSuffix(s: string, c: char)
    ensures |RSplitLast(s, c)| <= |s|
    ensures RSplitLast(s, c) == s[|s| - |RSplitLast(s, c)|..]
  {
  }

  /** `s.replace(c, "")`, for a single character `c`. */
  function RemoveAll(s: string, c: char): (r: string)
    ensures c !in r
    ensures |r| <= |s|
    ensures forall x :: x in r ==> x in s
  {
    if s == [] then [] else (if s[0] == c then [] else [s[0]]) + RemoveAll(s[1..], c)
  }

  lemma {:induction false} RemoveAllConcat(a: string, b: string, c: char)
    ensures RemoveAll(a + b, c) == RemoveAll(a, c) + RemoveAll(b, c)
    decreases |a|
  {
    if a != [] {
      assert (a + b)[0] == a[0] && (a + b)[1..] == a[1..] + b;
      RemoveAllConcat(a[1..], b, c);
    } else {
      assert a + b == b;
    }
  }

  lemma {:induction false} RemoveAllAbsent(s: string, c: char)
    requires c !in s
    ensures RemoveAll(s, c) == s
    decreases |s|
  {
    if s != [] {
      RemoveAllAbsent(s[1..], c);
    }
  }

  /** `s.endswith(suffix)` */
  predicate EndsWith(s: string, suffix: string) {
    |suffix| <= |s| && s[|s| - |suffix|..] == suffix
  }

  /** A mutable Python dictionary, for the places where the source changes a
      caller's dictionary in place (`pop`, `del`, item assignment). */
  class Dict {
    var entries: Record

    constructor (initial: Record)
      ensures entries == initial
    {
      entries := initial;
    }

    /** `d.pop(key)`, which raises KeyError when `key` is absent. */
    method Pop(key: string) returns (r: Result<Value>)
      modifies this
      ensures key in old(entries) ==> r == Ok(old(entries)[key])
      ensures key !in old(entries) ==> r == Err(KeyError(key))
      ensures entries == old(entries) - {key}
    {
      if key in entries {
        r := Ok(entries[key]);
        entries := entries - {key};
      } else {
        r := Err(KeyError(key));
      }
    }

    /** `d[key] = v` */
    method Set(key: string, v: Value)
      modifies this
      ensures entries == old(entries)[key := v]
    {
      entries := entries[key := v];
    }
  }
}
