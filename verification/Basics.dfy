/** Vocabulary shared by the whole model: options, results and the 64-bit
    saturating arithmetic that every fee computation of the relayer uses. */
module Basics {
  datatype Option<+T> = None | Some(value: T) {
    function GetOr(default: T): T {
      if Some? then value else default
    }
  }

  datatype Result<+T> = Ok(value: T) | Err {
    function GetOr(default: T): T {
      if Ok? then value else default
    }
  }

  const U64_MAX: nat := 0xFFFF_FFFF_FFFF_FFFF

  type u64 = x: nat | x <= U64_MAX

  type byte = x: nat | x < 256

  /** The value of an unbounded amount after it went through saturating operations. */
  function Clamp(x: nat): (r: u64)
    ensures r == U64_MAX || r == x
  {
    if x > U64_MAX then U64_MAX else x
  }

  function SaturatingAdd(a: u64, b: u64): u64 {
    Clamp(a + b)
  }

  /** Used on u64 and on usize operands, which are both 64 bits wide. */
  function SaturatingMul(a: nat, b: nat): u64 {
    Clamp(a * b)
  }

  lemma ClampSmall(x: u64)
    ensures Clamp(x) == x
  {
  }

  lemma ClampAdds(x: nat, y: u64)
    ensures SaturatingAdd(Clamp(x), y) == Clamp(x + y)
  {
  }

  lemma MulMonotone(a: nat, b: nat, c: nat, d: nat)
    requires a <= c && b <= d
    ensures a * b <= c * d
  {
    assert c * d == a * b + a * (d - b) + (c - a) * d;
  }

  lemma DivFloor(a: nat, b: nat)
    requires b != 0
    ensures a / b * b <= a < a / b * b + b
    ensures 0 <= a / b <= a
  {
    var q := a / b;
    assert a == b * q + a % b;
    if q > a {
      MulMonotone(1, q, b, q);
    }
  }

  /** Rust's `checked_div(..).unwrap_or(0)`. */
  function DivOrZero(a: nat, b: nat): (r: nat)
    ensures if b == 0 then r == 0 else r * b <= a < r * b + b
    ensures r <= a
  {
    if b == 0 then 0 else (DivFloor(a, b); a / b)
  }

  lemma Associate<T>(a: seq<T>, b: seq<T>, c: seq<T>)
    ensures a + (b + c) == (a + b) + c
  {
  }

  lemma PrefixKept<T>(a: seq<T>, b: seq<T>, c: seq<T>)
    requires b <= c
    ensures a + b <= a + c
  {
    assert c == b + c[|b|..];
    Associate(a, b, c[|b|..]);
  }

  function RemoveAt<T>(s: seq<T>, i: nat): seq<T>
    requires i < |s|
  {
    s[..i] + s[i + 1..]
  }

  lemma RemoveAtMultiset<T>(s: seq<T>, i: nat)
    requires i < |s|
    ensures s[i] in multiset(s) && multiset(RemoveAt(s, i)) == multiset(s) - multiset{s[i]}
  {
    assert s == s[..i] + [s[i]] + s[i + 1..];
  }

  function Reverse<T>(s: seq<T>): (r: seq<T>)
    ensures |r| == |s|
    ensures forall i :: 0 <= i < |s| ==> r[i] == s[|s| - 1 - i]
  {
    seq(|s|, i requires 0 <= i < |s| => s[|s| - 1 - i])
  }

  lemma {:induction false} ReverseMultiset<T>(s: seq<T>)
    ensures multiset(Reverse(s)) == multiset(s)
  {
    if s == [] {
      assert Reverse(s) == s;
    } else {
      ReverseMultiset(s[1..]);
      assert Reverse(s) == Reverse(s[1..]) + [s[0]];
      assert s == [s[0]] + s[1..];
    }
  }
}
