/**
 * JavaScript primitives that the application code relies on, stated
 * explicitly: 32-bit bitwise operators (ToInt32 semantics), the falsy
 * test on strings, String.prototype.trim, ASCII case mapping and
 * substring search.
 */
module Js {

  datatype Option<T> = None | Some(value: T)

  /** An unsigned 16-bit register word. */
  newtype u16 = x: int | 0 <= x < 0x1_0000

  const TwoTo32: int := 0x1_0000_0000
  const TwoTo31: int := 0x8000_0000

  /** ECMAScript ToInt32: reduce modulo 2^32 into the signed range. */
  function ToInt32(x: int): (r: int)
    ensures -TwoTo31 <= r < TwoTo31
    ensures (x - r) % TwoTo32 == 0
    ensures -TwoTo31 <= x < TwoTo31 ==> r == x
  {
    var m := x % TwoTo32;
    if m >= TwoTo31 then m - TwoTo32 else m
  }

  /** ECMAScript ToUint32: the 32-bit pattern of x, read as unsigned. */
  function ToUint32(x: int): (r: nat)
    ensures r < TwoTo32
  {
    x % TwoTo32
  }

  /** The low n bits of `a | b`, built one bit at a time. */
  function OrBits(a: nat, b: nat, n: nat): (r: nat)
    ensures r < Pow2(n)
  {
    if n == 0 then 0
    else 2 * OrBits(a / 2, b / 2, n - 1) + (if a % 2 == 1 || b % 2 == 1 then 1 else 0)
  }

  /** The low n bits of `a & b`, built one bit at a time. */
  function AndBits(a: nat, b: nat, n: nat): (r: nat)
    ensures r < Pow2(n)
  {
    if n == 0 then 0
    else 2 * AndBits(a / 2, b / 2, n - 1) + (if a % 2 == 1 && b % 2 == 1 then 1 else 0)
  }

  /** `a << n` for 0 <= n < 32: the operand is shifted and the result wrapped to int32. */
  function ShiftLeft(a: int, n: nat): int
    requires n < 32
  {
    ToInt32(ToInt32(a) * Pow2(n))
  }

  /** `a >> n` (sign-propagating) for 0 <= n < 32. */
  function ShiftRight(a: int, n: nat): int
    requires n < 32
  {
    ToInt32(a) / Pow2(n)
  }

  /** `a & b`. */
  function BitAnd(a: int, b: int): int
  {
    ToInt32(AndBits(ToUint32(a), ToUint32(b), 32))
  }

  /** `a | b`. */
  function BitOr(a: int, b: int): int
  {
    ToInt32(OrBits(ToUint32(a), ToUint32(b), 32))
  }

  function Pow2(n: nat): (r: nat)
    ensures r >= 1
  {
    if n == 0 then 1 else 2 * Pow2(n - 1)
  }

  lemma {:induction false} Pow2Add(a: nat, b: nat)
    ensures Pow2(a + b) == Pow2(a) * Pow2(b)
  {
    if a > 0 {
      Pow2Add(a - 1, b);
    }
  }

  lemma Pow2Constants()
    ensures Pow2(16) == 0x1_0000 && Pow2(32) == TwoTo32
  {
    assert Pow2(4) == 16;
    Pow2Add(4, 4);
    Pow2Add(8, 8);
    Pow2Add(16, 16);
  }

  /** Splitting off the lowest bit: the remainder modulo 2p in terms of the remainder of a / 2 modulo p. */
  lemma ModDouble(a: nat, p: nat)
    requires p >= 1
    ensures a % (2 * p) == 2 * ((a / 2) % p) + a % 2
  {
    var q, r := a / 2, a % 2;
    var s, t := q / p, q % p;
    assert a == (2 * p) * s + (2 * t + r);
    ModUnique(a, 2 * p, s, 2 * t + r);
  }

  /** Euclidean division is unique. */
  lemma ModUnique(a: int, m: int, q: int, r: int)
    requires m > 0 && 0 <= r < m && a == m * q + r
    ensures a % m == r && a / m == q
  {
    var q0, r0 := a / m, a % m;
    var d := q - q0;
    assert m * d == r0 - r;
    if d >= 1 {
      MulNonneg(m, d - 1);
      assert false;
    } else if d <= -1 {
      MulNonneg(m, -d - 1);
      assert false;
    }
  }

  lemma MulNonneg(x: int, y: int)
    requires x >= 0 && y >= 0
    ensures x * y >= 0
  {
  }

  lemma {:induction false} OrZero(a: nat, n: nat)
    ensures OrBits(a, 0, n) == a % Pow2(n)
  {
    if n > 0 {
      OrZero(a / 2, n - 1);
      ModDouble(a, Pow2(n - 1));
    }
  }

  /**
   * Or-ing a value whose low k bits are clear with a value below 2^k is
   * addition (within n >= k bits).
   */
  lemma {:induction false} OrDisjoint(a: nat, b: nat, k: nat, n: nat)
    requires k <= n && a % Pow2(k) == 0 && b < Pow2(k)
    ensures OrBits(a, b, n) == a % Pow2(n) + b
  {
    if k == 0 {
      OrZero(a, n);
    } else {
      assert a % 2 == 0 by { ModDouble(a, Pow2(k - 1)); }
      assert (a / 2) % Pow2(k - 1) == 0 by { ModDouble(a, Pow2(k - 1)); }
      OrDisjoint(a / 2, b / 2, k - 1, n - 1);
      ModDouble(a, Pow2(n - 1));
    }
  }

  lemma {:induction false} AndZero(a: nat, n: nat)
    ensures AndBits(a, 0, n) == 0
  {
    if n > 0 {
      AndZero(a / 2, n - 1);
    }
  }

  /** The mask of k one bits, 2^k - 1. */
  function Ones(k: nat): nat
  {
    if k == 0 then 0 else 2 * Ones(k - 1) + 1
  }

  lemma {:induction false} OnesValue(k: nat)
    ensures Ones(k) == Pow2(k) - 1
  {
    if k > 0 {
      OnesValue(k - 1);
    }
  }

  /** Masking with k one bits keeps the low k bits. */
  lemma {:induction false} AndMask(a: nat, k: nat, n: nat)
    requires k <= n
    ensures AndBits(a, Ones(k), n) == a % Pow2(k)
  {
    if k == 0 {
      AndZero(a, n);
    } else {
      AndMask(a / 2, k - 1, n - 1);
      AndLowBit(a, Ones(k), n);
      ModDouble(a, Pow2(k - 1));
    }
  }

  /** With the mask's low bit set, the low bit of `a & mask` is that of `a`. */
  lemma AndLowBit(a: nat, mask: nat, n: nat)
    requires n > 0 && mask % 2 == 1
    ensures AndBits(a, mask, n) == 2 * AndBits(a / 2, mask / 2, n - 1) + a % 2
  {
  }

  /**
   * A subset of the characters String.prototype.trim removes: the ASCII
   * whitespace and the no-break spaces U+00A0 and U+FEFF. The other Unicode
   * space separators and U+2028/U+2029 are not included.
   */
  predicate IsSpace(c: char)
  {
    c == ' ' || c == '\t' || c == '\n' || c == '\r' || c == '\U{000B}' || c == '\U{000C}'
    || c == '\U{00A0}' || c == '\U{FEFF}'
  }

  function TrimStart(s: string): (r: string)
    ensures |r| <= |s| && r == s[|s| - |r|..]
    ensures r == [] || !IsSpace(r[0])
    ensures forall i :: 0 <= i < |s| - |r| ==> IsSpace(s[i])
  {
    if s != [] && IsSpace(s[0]) then TrimStart(s[1..]) else s
  }

  function TrimEnd(s: string): (r: string)
    ensures |r| <= |s| && r == s[..|r|]
    ensures r == [] || !IsSpace(r[|r| - 1])
    ensures forall i :: |r| <= i < |s| ==> IsSpace(s[i])
  {
    if s != [] && IsSpace(s[|s| - 1]) then TrimEnd(s[..|s| - 1]) else s
  }

  /** String.prototype.trim. */
  function Trim(s: string): string
  {
    TrimEnd(TrimStart(s))
  }

  /** A trimmed string is empty exactly when the string is all whitespace. */
  lemma TrimEmptyIff(s: string)
    ensures Trim(s) == [] <==> forall i :: 0 <= i < |s| ==> IsSpace(s[i])
  {
    var t := TrimStart(s);
    var u := TrimEnd(t);
    // t, when non-empty, starts with a non-space character of s, which TrimEnd keeps
    assert t != [] ==> t[0] == s[|s| - |t|];
  }

  /** Trimming twice is trimming once. */
  lemma TrimIdempotent(s: string)
    ensures Trim(Trim(s)) == Trim(s)
  {
    var t := TrimStart(s);
    var u := TrimEnd(t);
    if u != [] {
      assert u[0] == t[0];
      assert TrimStart(u) == u;
    }
  }

  /** Trimming strips whitespace from both ends and nothing else. */
  lemma TrimIsInfix(s: string)
    ensures exists i, j :: 0 <= i <= j <= |s| && Trim(s) == s[i..j]
  {
    var t := TrimStart(s);
    var u := TrimEnd(t);
    var i := |s| - |t|;
    assert t == s[i..] && u == t[..|u|];
    assert s[i..][..|u|] == s[i..i + |u|];
    assert Trim(s) == s[i..i + |u|];
  }

  /**
   * The value is missing for a JavaScript required-field check written as
   * `!v || v.trim() === ''`: absent, the empty string, or only whitespace.
   */
  predicate Blank(m: map<string, string>, key: string)
  {
    key !in m || Trim(m[key]) == ""
  }

  /** A string is truthy when it is not the empty string. */
  predicate Truthy(v: Option<string>)
  {
    v.Some? && v.value != ""
  }

  function LowerChar(c: char): char
  {
    if 'A' <= c <= 'Z' then (c as int + 32) as char else c
  }

  function UpperChar(c: char): char
  {
    if 'a' <= c <= 'z' then (c as int - 32) as char else c
  }

  predicate IsUpper(c: char) { 'A' <= c <= 'Z' }

  /** String.prototype.toLowerCase on the ASCII letters. */
  function Lower(s: string): (r: string)
    ensures |r| == |s|
    ensures forall i :: 0 <= i < |s| ==> r[i] == LowerChar(s[i])
  {
    if s == [] then [] else [LowerChar(s[0])] + Lower(s[1..])
  }

  /** String.prototype.toUpperCase on the ASCII letters. */
  function Upper(s: string): (r: string)
    ensures |r| == |s|
    ensures forall i :: 0 <= i < |s| ==> r[i] == UpperChar(s[i])
  {
    if s == [] then [] else [UpperChar(s[0])] + Upper(s[1..])
  }

  /**
   * The first character upper-cased and the rest kept, as in
   * `s.charAt(0).toUpperCase() + s.slice(1)` and `s.replace(/^./, c => c.toUpperCase())`.
   */
  function UpperFirst(s: string): (r: string)
    ensures |r| == |s|
    ensures s != [] ==> r[0] == UpperChar(s[0]) && r[1..] == s[1..]
  {
    if s == [] then [] else [UpperChar(s[0])] + s[1..]
  }

  /** `s.includes(t)`: t occurs in s as a contiguous run. */
  predicate Contains(s: string, t: string)
  {
    |t| <= |s| && (s[..|t|] == t || Contains(s[1..], t))
  }
}
