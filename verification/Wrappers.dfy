// Small result types and sequence lemmas shared by the other modules.
module Wrappers {

  datatype Option<+T> = None | Some(value: T) {
    function GetOr(default: T): T {
      if Some? then value else default
    }
  }

  // Which statement met the foreign key of an unknown lot.
  datatype Stage = AtLotImages | AtSingleUpload | AtMultiUpload

  // The ways a request fails.  Every fault is a client error of internal/apperror;
  // module Interceptor gives the error tree and the gRPC status of each.
  datatype Fault =
    | Internal
    | UnknownLot(stage: Stage)
    | BadLotId
    | NotFound
    | PartsMissing

  // The end of a call that may also dereference a nil pointer.
  datatype Outcome<+T> = Ok(value: T) | Err(fault: Fault) | Panic

  function Map<A, B>(f: A -> B, s: seq<A>): (r: seq<B>)
    ensures |r| == |s| && forall i :: 0 <= i < |s| ==> r[i] == f(s[i])
  {
    seq(|s|, i requires 0 <= i < |s| => f(s[i]))
  }

  function Filter<A>(p: A -> bool, s: seq<A>): seq<A> {
    if s == [] then []
    else if p(s[|s| - 1]) then Filter(p, s[..|s| - 1]) + [s[|s| - 1]]
    else Filter(p, s[..|s| - 1])
  }

  lemma {:induction false} FilterMember<A>(p: A -> bool, s: seq<A>, x: A)
    ensures x in Filter(p, s) <==> x in s && p(x)
    ensures |Filter(p, s)| <= |s|
  {
    if s != [] {
      FilterMember(p, s[..|s| - 1], x);
      assert s == s[..|s| - 1] + [s[|s| - 1]];
    }
  }

  lemma FilterMembers<A>(p: A -> bool, s: seq<A>)
    ensures forall x | x in Filter(p, s) :: x in s && p(x)
    ensures |Filter(p, s)| <= |s|
  {
    forall x | x in Filter(p, s)
      ensures x in s && p(x)
    {
      FilterMember(p, s, x);
    }
    if s != [] {
      FilterMember(p, s, s[0]);
    }
  }

  // Splitting a sequence by a test and its negation loses nothing.
  lemma {:induction false} FilterSplits<A>(p: A -> bool, q: A -> bool, s: seq<A>)
    requires forall x | x in s :: q(x) == !p(x)
    ensures multiset(s) == multiset(Filter(p, s)) + multiset(Filter(q, s))
  {
    if s != [] {
      var front, last := s[..|s| - 1], s[|s| - 1];
      FilterSplits(p, q, front);
      assert s == front + [last] && last in s;
      assert multiset(s) == multiset(front) + multiset{last};
    }
  }

  lemma {:induction false} SamePermutationLength<A>(s: seq<A>, t: seq<A>)
    requires multiset(s) == multiset(t)
    ensures |s| == |t|
  {
    assert |multiset(s)| == |s| && |multiset(t)| == |t|;
  }

  lemma PermutationMember<A>(s: seq<A>, t: seq<A>, x: A)
    requires multiset(s) == multiset(t)
    ensures x in s <==> x in t
  {
    assert x in multiset(s) <==> x in multiset(t);
  }

  // A sequence without its k-th element.
  function RemoveAt<A>(s: seq<A>, k: nat): (r: seq<A>)
    requires k < |s|
  {
    s[..k] + s[k + 1..]
  }

  lemma RemoveAtMultiset<A>(s: seq<A>, k: nat)
    requires k < |s|
    ensures multiset(s) == multiset(RemoveAt(s, k)) + multiset{s[k]}
  {
    assert s == s[..k] + [s[k]] + s[k + 1..];
  }

  lemma MapRemoveAt<A, B>(f: A -> B, s: seq<A>, k: nat)
    requires k < |s|
    ensures Map(f, RemoveAt(s, k)) == RemoveAt(Map(f, s), k)
  {
  }

  // Mapping commutes with reordering.
  lemma {:induction false} MapPermutation<A, B>(f: A -> B, s: seq<A>, t: seq<A>)
    requires multiset(s) == multiset(t)
    ensures multiset(Map(f, s)) == multiset(Map(f, t))
    decreases |s|
  {
    SamePermutationLength(s, t);
    if s != [] {
      PermutationMember(s, t, s[0]);
      var k :| 0 <= k < |t| && t[k] == s[0];
      RemoveAtMultiset(s, 0);
      RemoveAtMultiset(t, k);
      assert multiset(RemoveAt(s, 0)) == multiset(s) - multiset{s[0]} == multiset(RemoveAt(t, k));
      MapPermutation(f, RemoveAt(s, 0), RemoveAt(t, k));
      MapRemoveAt(f, s, 0);
      MapRemoveAt(f, t, k);
      RemoveAtMultiset(Map(f, s), 0);
      RemoveAtMultiset(Map(f, t), k);
    }
  }

  // How many of the numbers below n pass the test.
  ghost function CountBelow(p: int -> bool, n: nat): (r: nat)
    ensures r <= n
  {
    if n == 0 then 0 else CountBelow(p, n - 1) + if p(n - 1) then 1 else 0
  }

  // Tests that agree below n count the same.
  lemma {:induction false} CountSame(p: int -> bool, q: int -> bool, n: nat)
    requires forall i :: 0 <= i < n ==> p(i) == q(i)
    ensures CountBelow(p, n) == CountBelow(q, n)
  {
    if n > 0 {
      CountSame(p, q, n - 1);
    }
  }

  // The elements below n whose positions pass the test, in order.
  ghost function Select<A>(p: int -> bool, s: seq<A>, n: nat): seq<A>
    requires n <= |s|
  {
    if n == 0 then [] else if p(n - 1) then Select(p, s, n - 1) + [s[n - 1]] else Select(p, s, n - 1)
  }

  lemma {:induction false} SelectCount<A>(p: int -> bool, s: seq<A>, n: nat)
    requires n <= |s|
    ensures |Select(p, s, n)| == CountBelow(p, n)
  {
    if n > 0 {
      SelectCount(p, s, n - 1);
    }
  }

  // An element stands after all those before it.
  lemma {:induction false} SelectPlace<A>(p: int -> bool, s: seq<A>, i: nat, n: nat)
    requires i < n <= |s| && p(i)
    ensures CountBelow(p, i) < |Select(p, s, n)| && Select(p, s, n)[CountBelow(p, i)] == s[i]
    decreases n
  {
    SelectCount(p, s, n - 1);
    if i < n - 1 {
      SelectPlace(p, s, i, n - 1);
    }
  }
}
