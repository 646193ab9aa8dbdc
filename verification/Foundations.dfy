/** What several parts of the model share: optional values, searching a string, and integers of
    32 bits. */
module Foundations {

  datatype Option<+T> = None | Some(value: T)

  /** The position of the first c, or the length of s. */
  function IndexOf(s: string, c: char): (i: nat)
    ensures i <= |s|
    ensures forall j :: 0 <= j < i ==> s[j] != c
    ensures i < |s| ==> s[i] == c
  {
    if s == "" || s[0] == c then 0 else 1 + IndexOf(s[1..], c)
  }

  const MAX_INT32 := 0x7fff_ffff

  predicate Int32(n: int) {
    -0x8000_0000 <= n <= MAX_INT32
  }

  /** The int32 that an integer wraps around to. */
  function Wrap32(x: int): (r: int)
    ensures Int32(r)
    ensures Int32(x) ==> r == x
    decreases if x < 0 then -2 * x else 2 * x + 1
  {
    if x >= 0x8000_0000 then Wrap32(x - 0x1_0000_0000)
    else if x < -0x8000_0000 then Wrap32(x + 0x1_0000_0000)
    else x
  }

  lemma {:induction false} WrapAdd(a: int, b: int)
    ensures Wrap32(Wrap32(a) + b) == Wrap32(a + b)
    decreases if a < 0 then -2 * a else 2 * a + 1
  {
    if a >= 0x8000_0000 {
      WrapAdd(a - 0x1_0000_0000, b);
      WrapShift(a + b - 0x1_0000_0000);
    } else if a < -0x8000_0000 {
      WrapAdd(a + 0x1_0000_0000, b);
      WrapShift(a + b);
    }
  }

  lemma {:induction false} WrapShift(x: int)
    ensures Wrap32(x + 0x1_0000_0000) == Wrap32(x)
    decreases if x < 0 then -2 * x else 2 * x + 1
  {
    if x >= 0x8000_0000 {
      WrapShift(x - 0x1_0000_0000);
    } else if x < -0x1_8000_0000 {
      WrapShift(x + 0x1_0000_0000);
    }
  }
}
