/** Primitive types of the host runtime that the four pallets share: the
    unsigned machine integers, the account and block-number types of the test
    runtime, and the result a dispatchable call returns. */
module Frame {

  const U32_MAX: int := 0xFFFF_FFFF
  const U64_MAX: int := 0xFFFF_FFFF_FFFF_FFFF

  /** Rust's `u32` and `u64`. Values never wrap: every addition that could
      leave the range goes through a checked form. */
  type U32 = x: int | 0 <= x <= U32_MAX
  type U64 = x: int | 0 <= x <= U64_MAX

  /** The test runtime declares both `AccountId` and `BlockNumber` as `u64`. */
  type AccountId = U64
  type BlockNumber = U64

  datatype Option<+T> = None | Some(value: T)

  datatype Result<+T, +E> = Ok(value: T) | Err(error: E)

  /** What a dispatchable call returns: `Ok(())` or a typed error. */
  type DispatchResult<+E> = Result<(), E>

  /** Rust's `u32::checked_add`: `None` exactly when the true sum leaves `u32`. */
  function CheckedAdd(a: U32, b: U32): (r: Option<U32>)
    ensures r.None? <==> a + b > U32_MAX
    ensures r.Some? ==> r.value == a + b
  {
    if a + b <= U32_MAX then Some(a + b) else None
  }

  /** No value occurs twice in `s`. */
  predicate NoDuplicates<T(==)>(s: seq<T>)
  {
    forall i, j :: 0 <= i < j < |s| ==> s[i] != s[j]
  }

  /** `s` with every occurrence of `x` taken out, the others kept in order. */
  function Without<T(==,!new)>(s: seq<T>, x: T): (r: seq<T>)
    ensures forall y :: y in r <==> y in s && y != x
    ensures |r| <= |s|
    ensures x in s ==> |r| < |s|
    ensures NoDuplicates(s) ==> NoDuplicates(r)
    ensures x !in s ==> r == s
  {
    if s == [] then []
    else if s[0] == x then Without(s[1..], x)
    else
      var rest := Without(s[1..], x);
      assert NoDuplicates(s) ==> s[0] !in s[1..] && NoDuplicates(s[1..]);
      assert s == [s[0]] + s[1..];
      [s[0]] + rest
  }

  /** `b` is `a` with exactly one position, one that holds `x`, cut out. */
  ghost predicate CutOnce<T>(a: seq<T>, x: T, b: seq<T>)
  {
    exists i :: 0 <= i < |a| && a[i] == x && b == a[..i] + a[i+1..]
  }

  /** Cutting a position out of a tail cuts the next one out of the whole list. */
  lemma CutOnceCons<T>(h: T, tail: seq<T>, x: T, w: seq<T>)
    requires CutOnce(tail, x, w)
    ensures CutOnce([h] + tail, x, [h] + w)
  {
    var j :| 0 <= j < |tail| && tail[j] == x && w == tail[..j] + tail[j+1..];
    var s := [h] + tail;
    assert s[..j+1] == [h] + tail[..j];
    assert s[j+2..] == tail[j+1..];
    assert s[j+1] == x && [h] + w == s[..j+1] + s[j+2..];
  }

  /** In a list without duplicates, taking out an entry that is on it cuts
      out exactly its one position and keeps the others in their order. */
  lemma {:induction false} WithoutCutsOnePosition<T(!new)>(s: seq<T>, x: T)
    requires x in s
    ensures NoDuplicates(s) ==> CutOnce(s, x, Without(s, x))
  {
    if NoDuplicates(s) {
      var tail := s[1..];
      assert s == [s[0]] + tail;
      if s[0] == x {
        assert x !in tail;
        assert s[..0] + s[1..] == Without(s, x);
      } else {
        assert x in tail && NoDuplicates(tail);
        WithoutCutsOnePosition(tail, x);
        CutOnceCons(s[0], tail, x, Without(tail, x));
      }
    }
  }
}
