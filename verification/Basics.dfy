// Shared value types.
module Basics {

  datatype Option<+T> = None | Some(value: T)

  datatype Result<+T, +E> = Ok(value: T) | Err(error: E)

  newtype Byte = x: int | 0 <= x < 256

  /** Public keys are byte strings; the server and the clients use them as addresses. */
  type Key = seq<Byte>

  /** Sixteen-byte identifiers, generated fresh by the server. */
  type Id = b: seq<Byte> | |b| == 16 witness seq<Byte>(16, _ => 0)

  /** Meeting participants are named by 32-byte identifiers. */
  type UserId = b: seq<Byte> | |b| == 32 witness seq<Byte>(32, _ => 0)

  ghost predicate Distinct<T>(s: seq<T>) {
    forall i, j :: 0 <= i < j < |s| ==> s[i] != s[j]
  }

  lemma Regroup<T>(a: seq<T>, b: seq<T>, c: seq<T>)
    ensures a + (b + c) == (a + b) + c
  {}

  /** The first index holding x, or |s| when there is none. */
  function IndexOf<T(==)>(s: seq<T>, x: T): (i: nat)
    ensures i <= |s|
    ensures i < |s| ==> s[i] == x
    ensures x !in s[..i]
  {
    if s == [] then 0
    else if s[0] == x then 0
    else
      var i := IndexOf(s[1..], x) + 1;
      assert s[..i] == [s[0]] + s[1..][..i - 1];
      i
  }

  lemma {:induction false} IndexOfDistinct<T>(s: seq<T>, i: nat)
    requires Distinct(s) && i < |s|
    ensures IndexOf(s, s[i]) == i
  {
    if i > 0 {
      assert s[1..][i - 1] == s[i];
      assert s[0] != s[i];
      IndexOfDistinct(s[1..], i - 1);
    }
  }

  function Members(order: seq<UserId>): set<UserId> {
    set u <- order
  }

  lemma MembersStep(order: seq<UserId>)
    requires order != []
    ensures Members(order) == {order[0]} + Members(order[1..])
  {
    assert order == [order[0]] + order[1..];
  }

  lemma {:induction false} MembersCount(order: seq<UserId>)
    requires Distinct(order)
    ensures |Members(order)| == |order|
  {
    if order != [] {
      var tail := order[1..];
      assert Distinct(tail) by {
        assert forall i, j :: 0 <= i < j < |tail| ==> tail[i] == order[i + 1] && tail[j] == order[j + 1];
      }
      MembersCount(tail);
      MembersStep(order);
      assert order[0] !in Members(tail) by {
        assert forall j :: 0 <= j < |tail| ==> tail[j] == order[j + 1];
      }
    }
  }

  lemma {:induction false} BelowCount(s: set<nat>, n: nat)
    requires forall i <- s :: i < n
    ensures |s| <= n
  {
    if n == 0 {
      assert s == {};
    } else {
      var t := s - {n - 1};
      BelowCount(t, n - 1);
      assert s <= t + {n - 1};
      assert |s| <= |t| + 1;
    }
  }
}
