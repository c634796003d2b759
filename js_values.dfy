/**
  The fragment of JavaScript semantics that the tooltip builder relies on: the
  values it inspects, truthiness, the `x || x === 0` presence test, the 32-bit
  conversion behind the bitwise `|` operator, `Array.prototype.join`,
  `Array.prototype.filter(d => d !== null)` and `String.prototype.split`.
 */
module JsValues {

  /** A JavaScript value as the tooltip code observes it. Numbers are integers. */
  datatype JsValue = Undefined | Null | Bool(b: bool) | Num(n: int) | NaN | Str(s: string)

  /** JavaScript truthiness: exactly six values are falsy. */
  predicate Truthy(v: JsValue)
    ensures Truthy(v) <==> v !in {Undefined, Null, Bool(false), Num(0), NaN, Str("")}
  {
    match v
    case Undefined => false
    case Null => false
    case Bool(b) => b
    case Num(n) => n != 0
    case NaN => false
    case Str(s) => s != ""
  }

  /** The test `v || v === 0`: every value except the falsy ones other than zero. */
  predicate Present(v: JsValue)
    ensures Present(v) <==> v !in {Undefined, Null, Bool(false), NaN, Str("")}
    ensures Truthy(v) ==> Present(v)
  {
    Truthy(v) || v == Num(0)
  }

  const TwoTo31: int := 0x8000_0000
  const TwoTo32: int := 0x1_0000_0000

  /** ECMAScript ToUint32 on an integer: reduction modulo 2^32. */
  function ToUint32(n: int): (r: int)
    ensures 0 <= r < TwoTo32
    ensures (n - r) % TwoTo32 == 0
  {
    n % TwoTo32
  }

  /** ECMAScript ToInt32 on an integer: the two's-complement reading of ToUint32. */
  function ToInt32(n: int): (r: int)
    ensures -TwoTo31 <= r < TwoTo31
    ensures (n - r) % TwoTo32 == 0
  {
    var m := ToUint32(n);
    if m >= TwoTo31 then m - TwoTo32 else m
  }

  /** Bitwise or of two non-negative integers, one binary digit at a time from the lowest. */
  function OrBits(a: nat, b: nat): nat
    decreases a + b
  {
    if a == 0 && b == 0 then 0
    else 2 * OrBits(a / 2, b / 2) + (if a % 2 == 1 || b % 2 == 1 then 1 else 0)
  }

  /** Or with zero changes no digit. */
  lemma {:induction false} OrBitsZero(a: nat)
    ensures OrBits(a, 0) == a
    decreases a
  {
    if a != 0 {
      OrBitsZero(a / 2);
    }
  }

  /** A bitwise or is at least each operand and at most their sum. */
  lemma {:induction false} OrBitsBounds(a: nat, b: nat)
    ensures a <= OrBits(a, b) && b <= OrBits(a, b)
    ensures OrBits(a, b) <= a + b
    decreases a + b
  {
    if a != 0 || b != 0 {
      OrBitsBounds(a / 2, b / 2);
    }
  }

  /** The operator `a | b` on two integer numbers: both are read as 32-bit words. */
  function BitOr(a: int, b: int): (r: int)
    ensures -TwoTo31 <= r < TwoTo31
  {
    ToInt32(OrBits(ToUint32(a), ToUint32(b)))
  }

  /** A 32-bit word converts to itself. */
  lemma ToUint32OfWord(u: int)
    requires 0 <= u < TwoTo32
    ensures ToUint32(u) == u
  {
  }

  /** `a | 0` is the 32-bit truncation of `a`; in particular it leaves every int32 unchanged. */
  lemma BitOrZero(a: int)
    ensures BitOr(a, 0) == ToInt32(a)
    ensures -TwoTo31 <= a < TwoTo31 ==> BitOr(a, 0) == a
  {
    var u := ToUint32(a);
    assert ToUint32(0) == 0;
    OrBitsZero(u);
    ToUint32OfWord(u);
    assert ToUint32(u) == ToUint32(a);
  }

  /** The string `Array.prototype.join` uses for one element: empty for null and undefined. */
  function ElementText(numberToString: int -> string, v: JsValue): string
  {
    match v
    case Undefined => ""
    case Null => ""
    case Bool(b) => if b then "true" else "false"
    case Num(n) => numberToString(n)
    case NaN => "NaN"
    case Str(s) => s
  }

  /** The element strings of a sequence, in order. */
  function Texts(numberToString: int -> string, xs: seq<JsValue>): seq<string>
  {
    if xs == [] then [] else Texts(numberToString, xs[..|xs| - 1]) + [ElementText(numberToString, xs[|xs| - 1])]
  }

  /** `xs.join(sep)`. */
  function Join(numberToString: int -> string, xs: seq<JsValue>, sep: string): string
  {
    if |xs| == 0 then ""
    else if |xs| == 1 then ElementText(numberToString, xs[0])
    else Join(numberToString, xs[..|xs| - 1], sep) + sep + ElementText(numberToString, xs[|xs| - 1])
  }

  lemma StringConcatAssociative(x: string, y: string, z: string)
    ensures (x + y) + z == x + (y + z)
  {
  }

  /** Joining one more element appends the separator and that element's text. */
  lemma JoinSnoc(numberToString: int -> string, xs: seq<JsValue>, x: JsValue, sep: string)
    requires |xs| > 0
    ensures Join(numberToString, xs + [x], sep) == Join(numberToString, xs, sep) + sep + ElementText(numberToString, x)
  {
    var ys := xs + [x];
    assert ys[..|ys| - 1] == xs;
    assert ys[|ys| - 1] == x;
  }

  /** The separator stands exactly between the joined texts of two non-empty parts. */
  lemma {:induction false} JoinAppend(numberToString: int -> string, a: seq<JsValue>, b: seq<JsValue>, sep: string)
    requires |a| > 0 && |b| > 0
    ensures Join(numberToString, a + b, sep) == Join(numberToString, a, sep) + sep + Join(numberToString, b, sep)
    decreases |b|
  {
    var b', x := b[..|b| - 1], b[|b| - 1];
    assert b == b' + [x];
    assert a + b == (a + b') + [x];
    if b' == [] {
      assert a + b == a + [x];
      JoinSnoc(numberToString, a, x, sep);
    } else {
      JoinSnoc(numberToString, a + b', x, sep);
      JoinAppend(numberToString, a, b', sep);
      JoinSnoc(numberToString, b', x, sep);
      var ja, jb, t := Join(numberToString, a, sep), Join(numberToString, b', sep), ElementText(numberToString, x);
      StringConcatAssociative(ja + sep, jb, sep);
      StringConcatAssociative(ja + sep, jb + sep, t);
    }
  }

  /** `s.split(c)` for a one-character separator; it always yields at least one piece. */
  function Split(s: string, c: char): (r: seq<string>)
    ensures |r| > 0
  {
    if s == [] then [[]]
    else
      var pieces := Split(s[..|s| - 1], c);
      if s[|s| - 1] == c then pieces + [[]]
      else pieces[..|pieces| - 1] + [pieces[|pieces| - 1] + [s[|s| - 1]]]
  }

  /** `xs.filter(d => d === null ? false : true)`: only null is dropped, undefined stays. */
  function WithoutNulls(xs: seq<JsValue>): (r: seq<JsValue>)
    ensures Null !in r
    ensures |r| <= |xs|
    ensures multiset(r) == multiset(xs)[Null := 0]
  {
    if xs == [] then []
    else
      var rest := WithoutNulls(xs[..|xs| - 1]);
      assert xs == xs[..|xs| - 1] + [xs[|xs| - 1]];
      if xs[|xs| - 1] == Null then rest else rest + [xs[|xs| - 1]]
  }

  /** Filtering keeps the relative order of what it keeps. */
  lemma {:induction false} WithoutNullsAppend(a: seq<JsValue>, b: seq<JsValue>)
    ensures WithoutNulls(a + b) == WithoutNulls(a) + WithoutNulls(b)
    decreases |b|
  {
    if b == [] {
      assert a + b == a;
    } else {
      var b' := b[..|b| - 1];
      assert (a + b)[..|a + b| - 1] == a + b';
      assert (a + b)[|a + b| - 1] == b[|b| - 1];
      WithoutNullsAppend(a, b');
    }
  }

  /** A sequence without nulls passes the filter unchanged. */
  lemma {:induction false} WithoutNullsIdentity(xs: seq<JsValue>)
    requires Null !in xs
    ensures WithoutNulls(xs) == xs
  {
    if xs != [] {
      var init := xs[..|xs| - 1];
      assert Null !in init by {
        forall k | 0 <= k < |init| ensures init[k] != Null { assert init[k] == xs[k]; }
      }
      WithoutNullsIdentity(init);
      assert WithoutNulls(xs) == WithoutNulls(init) + [xs[|xs| - 1]];
      assert init + [xs[|xs| - 1]] == xs;
    }
  }

  /** A string without the separator splits into itself alone. */
  lemma {:induction false} SplitWithoutSeparator(t: string, c: char)
    requires c !in t
    ensures Split(t, c) == [t]
  {
    if t != [] {
      var init := t[..|t| - 1];
      assert c !in init by {
        forall k | 0 <= k < |init| ensures init[k] != c { assert init[k] == t[k]; }
      }
      SplitWithoutSeparator(init, c);
      assert init + [t[|t| - 1]] == t;
    }
  }

  /** Splitting after one more separator adds exactly the separator-free tail as a piece. */
  lemma {:induction false} SplitAfterSeparator(a: string, c: char, t: string)
    requires c !in t
    ensures Split(a + [c] + t, c) == Split(a, c) + [t]
    decreases |t|
  {
    if t == [] {
      assert a + [c] + t == a + [c];
      assert (a + [c])[..|a + [c]| - 1] == a;
    } else {
      var init := t[..|t| - 1];
      assert c !in init by {
        forall k | 0 <= k < |init| ensures init[k] != c { assert init[k] == t[k]; }
      }
      var s := a + [c] + t;
      assert s[..|s| - 1] == a + [c] + init;
      assert s[|s| - 1] == t[|t| - 1];
      SplitAfterSeparator(a, c, init);
      assert init + [t[|t| - 1]] == t;
    }
  }

  /**
    Joining with a one-character separator loses nothing: when no element's text
    contains the separator, splitting the joined string gives back every element's
    text, in order.
   */
  lemma {:induction false} SplitJoin(numberToString: int -> string, xs: seq<JsValue>, c: char)
    requires |xs| > 0
    requires forall k :: 0 <= k < |xs| ==> c !in ElementText(numberToString, xs[k])
    ensures Split(Join(numberToString, xs, [c]), c) == Texts(numberToString, xs)
    decreases |xs|
  {
    var last := ElementText(numberToString, xs[|xs| - 1]);
    assert c !in last;
    if |xs| == 1 {
      SplitWithoutSeparator(last, c);
      assert xs[..0] == [];
    } else {
      var init := xs[..|xs| - 1];
      forall k | 0 <= k < |init| ensures c !in ElementText(numberToString, init[k]) {
        assert init[k] == xs[k];
      }
      SplitJoin(numberToString, init, c);
      var j := Join(numberToString, init, [c]);
      assert Join(numberToString, xs, [c]) == j + [c] + last;
      SplitAfterSeparator(j, c, last);
    }
  }
}
