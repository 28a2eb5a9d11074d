/** Address lists kept by push and by swap-and-pop, and sums over them. */
module Lists {
  import opened Evm

  ghost predicate NoDup<T>(s: seq<T>) {
    forall i, j :: 0 <= i < j < |s| ==> s[i] != s[j]
  }

  ghost function Elems<T>(s: seq<T>): set<T> {
    set x | x in s
  }

  /** The first position of x. */
  function IndexOf(s: seq<Address>, x: Address): (i: nat)
    requires x in s
    ensures i < |s| && s[i] == x && x !in s[..i]
  {
    if s[0] == x then 0 else 1 + IndexOf(s[1..], x)
  }

  /** Solidity's removal: the last element takes the place of the one at i. */
  function SwapPop(s: seq<Address>, i: nat): seq<Address>
    requires i < |s|
  {
    s[i := s[|s| - 1]][..|s| - 1]
  }

  function RemoveOne(s: seq<Address>, x: Address): seq<Address>
    requires x in s
  {
    SwapPop(s, IndexOf(s, x))
  }

  /** The two shapes of a removal: in the middle, and of the last element. */
  lemma SwapPopShape(s: seq<Address>, i: nat)
    requires i < |s|
    ensures i < |s| - 1 ==>
              && s == s[..i] + [s[i]] + s[i + 1..|s| - 1] + [s[|s| - 1]]
              && SwapPop(s, i) == s[..i] + [s[|s| - 1]] + s[i + 1..|s| - 1]
    ensures i == |s| - 1 ==> s == SwapPop(s, i) + [s[i]]
  {
  }

  lemma SwapInMultiset(a: seq<Address>, x: Address, b: seq<Address>, y: Address)
    ensures multiset(a + [y] + b) + multiset{x} == multiset(a + [x] + b + [y])
  {
  }

  /** Swap-and-pop takes exactly one occurrence of the element at i ... */
  lemma SwapPopTakesOne(s: seq<Address>, i: nat)
    requires i < |s|
    ensures multiset(SwapPop(s, i)) + multiset{s[i]} == multiset(s)
  {
    SwapPopShape(s, i);
    if i < |s| - 1 {
      SwapInMultiset(s[..i], s[i], s[i + 1..|s| - 1], s[|s| - 1]);
    } else {
      assert multiset(SwapPop(s, i) + [s[i]]) == multiset(SwapPop(s, i)) + multiset([s[i]]);
    }
  }

  /** ... and moves nothing but the last element, which fills the gap. */
  lemma SwapPopMoves(s: seq<Address>, i: nat)
    requires i < |s|
    ensures |SwapPop(s, i)| == |s| - 1
    ensures forall k :: 0 <= k < |s| - 1 ==> SwapPop(s, i)[k] == if k == i then s[|s| - 1] else s[k]
  {
  }

  lemma RemoveOneTakesOne(s: seq<Address>, x: Address)
    requires x in s
    ensures multiset(RemoveOne(s, x)) == multiset(s) - multiset{x}
  {
    SwapPopTakesOne(s, IndexOf(s, x));
  }

  lemma NoDupMultiset<T>(s: seq<T>)
    ensures NoDup(s) <==> forall x :: multiset(s)[x] <= 1
  {
    if s != [] {
      var n := |s| - 1;
      NoDupMultiset(s[..n]);
      assert s == s[..n] + [s[n]];
      if NoDup(s) {
        assert s[n] !in s[..n];
      } else if i, j :| 0 <= i < j < |s| && s[i] == s[j] {
        if j == n {
          assert s[n] == s[..n][i];
          assert multiset(s)[s[n]] == multiset(s[..n])[s[n]] + 1;
        } else {
          assert s[..n][i] == s[..n][j];
          var x :| multiset(s[..n])[x] > 1;
          assert multiset(s)[x] > 1;
        }
      }
    }
  }

  /** In a list without repetition, removal is set difference. */
  lemma RemoveOneNoDup(s: seq<Address>, x: Address)
    requires x in s && NoDup(s)
    ensures NoDup(RemoveOne(s, x))
    ensures forall y :: y in RemoveOne(s, x) <==> y in s && y != x
  {
    RemoveOneTakesOne(s, x);
    NoDupMultiset(s);
    NoDupMultiset(RemoveOne(s, x));
    forall y ensures y in RemoveOne(s, x) <==> y in s && y != x {
      assert y in RemoveOne(s, x) <==> multiset(RemoveOne(s, x))[y] > 0;
      assert y in s <==> multiset(s)[y] > 0;
    }
  }

  /** Removal never loses or invents another element, repeated or not. */
  lemma RemoveOneKeepsOthers(s: seq<Address>, x: Address, y: Address)
    requires x in s && y != x
    ensures y in RemoveOne(s, x) <==> y in s
  {
    RemoveOneTakesOne(s, x);
    assert y in RemoveOne(s, x) <==> multiset(RemoveOne(s, x))[y] > 0;
    assert y in s <==> multiset(s)[y] > 0;
  }

  /** A push undone: removing the only occurrence, at the end, gives the list back. */
  lemma RemovePushed(s: seq<Address>, x: Address)
    requires x !in s
    ensures RemoveOne(s + [x], x) == s
  {
    var t := s + [x];
    assert t[..|s|] == s;
    assert IndexOf(t, x) >= |s| by {
      assert forall i :: 0 <= i < |s| ==> t[i] == s[i] != x;
    }
    assert t[|s| := t[|t| - 1]] == t;
  }

  lemma PushNoDup<T>(s: seq<T>, x: T)
    requires NoDup(s) && x !in s
    ensures NoDup(s + [x])
    ensures forall y :: y in s + [x] <==> y in s || y == x
  {
  }

  lemma PushNoDupExactly(s: seq<Address>, x: Address)
    ensures NoDup(s + [x]) <==> NoDup(s) && x !in s
  {
    var t := s + [x];
    if !NoDup(s) {
      var i, j :| 0 <= i < j < |s| && s[i] == s[j];
      assert t[i] == t[j];
    } else if x in s {
      assert t[IndexOf(s, x)] == t[|s|];
    }
  }

  /** The elements of a list that are in a set, in list order. */
  function Keep(s: seq<Address>, keep: set<Address>): (t: seq<Address>)
    ensures forall x :: x in t <==> x in s && x in keep
    ensures |t| <= |s|
  {
    if s == [] then []
    else
      var rest := Keep(s[..|s| - 1], keep);
      var x := s[|s| - 1];
      assert s == s[..|s| - 1] + [x];
      if x in keep then rest + [x] else rest
  }

  lemma KeepPush(s: seq<Address>, x: Address, keep: set<Address>)
    ensures Keep(s + [x], keep) == if x in keep then Keep(s, keep) + [x] else Keep(s, keep)
  {
    assert (s + [x])[..|s|] == s;
  }

  lemma {:induction false} KeepNoDup(s: seq<Address>, keep: set<Address>)
    requires NoDup(s)
    ensures NoDup(Keep(s, keep))
  {
    if s != [] {
      KeepNoDup(s[..|s| - 1], keep);
    }
  }

  /** The values of the listed addresses, added up in list order. */
  function ListSum(s: seq<Address>, v: map<Address, nat>): nat
    requires forall x :: x in s ==> x in v
  {
    if s == [] then 0 else ListSum(s[..|s| - 1], v) + v[s[|s| - 1]]
  }

  lemma ListSumPush(s: seq<Address>, x: Address, v: map<Address, nat>)
    requires x in v && forall y :: y in s ==> y in v
    ensures ListSum(s + [x], v) == ListSum(s, v) + v[x]
  {
    assert (s + [x])[..|s|] == s;
  }

  lemma {:induction false} KeepMultiset(s: seq<Address>, keep: set<Address>)
    ensures forall y :: multiset(Keep(s, keep))[y] == if y in keep then multiset(s)[y] else 0
  {
    if s != [] {
      KeepMultiset(s[..|s| - 1], keep);
      assert s == s[..|s| - 1] + [s[|s| - 1]];
    }
  }

  lemma {:induction false} ListSumAgree(s: seq<Address>, v: map<Address, nat>, w: map<Address, nat>)
    requires forall x :: x in s ==> x in v && x in w && v[x] == w[x]
    ensures ListSum(s, v) == ListSum(s, w)
  {
    if s != [] {
      ListSumAgree(s[..|s| - 1], v, w);
    }
  }

  lemma {:induction false} ListSumZero(s: seq<Address>, v: map<Address, nat>)
    requires forall x :: x in s ==> x in v && v[x] == 0
    ensures ListSum(s, v) == 0
  {
    if s != [] {
      ListSumZero(s[..|s| - 1], v);
    }
  }

  lemma {:induction false} ListSumTake(s: seq<Address>, i: nat, v: map<Address, nat>)
    requires i < |s| && forall x :: x in s ==> x in v
    ensures ListSum(s, v) == v[s[i]] + ListSum(s[..i] + s[i + 1..], v)
  {
    var n := |s| - 1;
    if i == n {
      assert s[..i] + s[i + 1..] == s[..n];
    } else {
      ListSumTake(s[..n], i, v);
      assert s[..i] + s[i + 1..] == s[..n][..i] + s[..n][i + 1..] + [s[n]];
      ListSumPush(s[..n][..i] + s[..n][i + 1..], s[n], v);
    }
  }

  lemma MultisetTake(s: seq<Address>, i: nat)
    requires i < |s|
    ensures multiset(s[..i] + s[i + 1..]) == multiset(s) - multiset{s[i]}
  {
    assert s == s[..i] + [s[i]] + s[i + 1..];
  }

  /** The same elements, but no x. */
  ghost predicate Without(s: seq<Address>, t: seq<Address>, x: Address) {
    forall y :: multiset(t)[y] == if y == x then 0 else multiset(s)[y]
  }

  lemma WithoutShrinks(s: seq<Address>, t: seq<Address>, x: Address)
    requires Without(s, t, x)
    ensures forall y :: y in t ==> y in s
    ensures s == [] ==> t == []
  {
    forall y | y in t ensures y in s {
      assert multiset(t)[y] > 0;
      assert multiset(s)[y] > 0;
    }
    if t != [] {
      assert t[0] in t;
    }
  }

  lemma WithoutLast(s: seq<Address>, t: seq<Address>, x: Address)
    requires Without(s + [x], t, x)
    ensures Without(s, t, x)
  {
  }

  lemma WithoutOneLess(s: seq<Address>, y: Address, t: seq<Address>, x: Address)
    requires Without(s + [y], t, x) && y != x
    ensures y in t && Without(s, t[..IndexOf(t, y)] + t[IndexOf(t, y) + 1..], x)
  {
    assert multiset(s + [y]) == multiset(s) + multiset{y};
    assert multiset(t)[y] > 0;
    var i := IndexOf(t, y);
    MultisetTake(t, i);
    forall z ensures multiset(t[..i] + t[i + 1..])[z] == if z == x then 0 else multiset(s)[z] {
      assert multiset(t)[z] == if z == x then 0 else multiset(s + [y])[z];
    }
  }

  /** How often x stands in a list. */
  function Count(s: seq<Address>, x: Address): nat {
    if s == [] then 0 else Count(s[..|s| - 1], x) + if s[|s| - 1] == x then 1 else 0
  }

  lemma {:induction false} CountIsMultiset(s: seq<Address>, x: Address)
    ensures Count(s, x) == multiset(s)[x]
  {
    if s != [] {
      CountIsMultiset(s[..|s| - 1], x);
      assert s == s[..|s| - 1] + [s[|s| - 1]];
    }
  }

  lemma CountPush(s: seq<Address>, y: Address, x: Address)
    ensures Count(s + [y], x) == Count(s, x) + if y == x then 1 else 0
  {
    assert (s + [y])[..|s|] == s;
  }

  lemma {:induction false} CountKept(s: seq<Address>, keep: set<Address>, x: Address)
    ensures Count(Keep(s, keep), x) == if x in keep then Count(s, x) else 0
  {
    if s != [] {
      var init, y := s[..|s| - 1], s[|s| - 1];
      CountKept(init, keep, x);
      CountPush(Keep(init, keep), y, x);
    }
  }

  /** What x adds to a sum; without a value, nothing. */
  function Value(x: Address, v: map<Address, nat>): nat {
    if x in v then v[x] else 0
  }

  /** What a number of entries of x add. */
  function Worth(times: nat, x: Address, v: map<Address, nat>): nat {
    if times == 0 then 0 else Worth(times - 1, x, v) + Value(x, v)
  }

  lemma WorthAtMostOnce(times: nat, x: Address, v: map<Address, nat>)
    requires times <= 1
    ensures Worth(times, x, v) == if times == 1 then Value(x, v) else 0
  {
  }

  /** A list sum depends on what is in the list and how often, not on its order: leaving out
      every x takes away x's value as many times as x stood there. */
  lemma {:induction false} ListSumWithout(s: seq<Address>, t: seq<Address>, x: Address, v: map<Address, nat>)
    requires Without(s, t, x) && forall y :: y in s ==> y in v
    ensures forall y :: y in t ==> y in v
    ensures ListSum(s, v) == ListSum(t, v) + Worth(Count(s, x), x, v)
    decreases |s|
  {
    WithoutShrinks(s, t, x);
    if s != [] {
      var init, y := s[..|s| - 1], s[|s| - 1];
      assert s == init + [y];
      CountPush(init, y, x);
      if y == x {
        WithoutLast(init, t, x);
        ListSumWithout(init, t, x, v);
      } else {
        WithoutOneLess(init, y, t, x);
        var i := IndexOf(t, y);
        ListSumTake(t, i, v);
        ListSumWithout(init, t[..i] + t[i + 1..], x, v);
      }
    }
  }

  /** The sum of the kept elements, without building their list. */
  function KeptSum(s: seq<Address>, keep: set<Address>, v: map<Address, nat>): nat {
    if s == [] then 0
    else KeptSum(s[..|s| - 1], keep, v) + if s[|s| - 1] in keep then Value(s[|s| - 1], v) else 0
  }

  lemma {:induction false} KeptSumIsListSum(s: seq<Address>, keep: set<Address>, v: map<Address, nat>)
    requires forall x :: x in s && x in keep ==> x in v
    ensures ListSum(Keep(s, keep), v) == KeptSum(s, keep, v)
  {
    if s != [] {
      var init, x := s[..|s| - 1], s[|s| - 1];
      KeptSumIsListSum(init, keep, v);
      if x in keep {
        ListSumPush(Keep(init, keep), x, v);
      }
    }
  }

  /** Keeping x too adds x's value as many times as x stands in the list. */
  lemma {:induction false} KeepingMore(s: seq<Address>, keep: set<Address>, x: Address, v: map<Address, nat>)
    requires x !in keep
    ensures KeptSum(s, keep + {x}, v) == KeptSum(s, keep, v) + Worth(Count(s, x), x, v)
  {
    if s != [] {
      KeepingMore(s[..|s| - 1], keep, x, v);
    }
  }

  lemma KeptSumRises(s: seq<Address>, keep: set<Address>, x: Address, v: map<Address, nat>)
    requires x in v
    ensures KeptSum(s + [x], keep + {x}, v) ==
            KeptSum(s, keep, v) + Worth(1 + if x in keep then 0 else Count(s, x), x, v)
  {
    assert (s + [x])[..|s|] == s;
    if x in keep {
      assert keep + {x} == keep;
    } else {
      KeepingMore(s, keep, x, v);
    }
  }

  /** The values of the members of a set, added up in no particular order. */
  ghost function SetSum(s: set<Address>, v: map<Address, nat>): nat
    requires s <= v.Keys
  {
    if s == {} then 0
    else
      var x :| x in s;
      v[x] + SetSum(s - {x}, v)
  }

  lemma {:induction false} SetSumTake(s: set<Address>, v: map<Address, nat>, x: Address)
    requires s <= v.Keys && x in s
    ensures SetSum(s, v) == v[x] + SetSum(s - {x}, v)
    decreases s
  {
    var y :| y in s && SetSum(s, v) == v[y] + SetSum(s - {y}, v);
    if y != x {
      SetSumTake(s - {y}, v, x);
      SetSumTake(s - {x}, v, y);
      assert s - {y} - {x} == s - {x} - {y};
    }
  }

  lemma {:induction false} SetSumAgree(s: set<Address>, v: map<Address, nat>, w: map<Address, nat>)
    requires s <= v.Keys && s <= w.Keys
    requires forall x :: x in s ==> v[x] == w[x]
    ensures SetSum(s, v) == SetSum(s, w)
    decreases s
  {
    if x :| x in s {
      SetSumTake(s, v, x);
      SetSumTake(s, w, x);
      SetSumAgree(s - {x}, v, w);
    }
  }

  lemma {:induction false} SetSumZero(s: set<Address>, v: map<Address, nat>)
    requires s <= v.Keys && forall x :: x in s ==> v[x] == 0
    ensures SetSum(s, v) == 0
    decreases s
  {
    if x :| x in s {
      SetSumTake(s, v, x);
      SetSumZero(s - {x}, v);
    }
  }

  lemma {:induction false} SetSumMonotone(s: set<Address>, t: set<Address>, v: map<Address, nat>)
    requires s <= t <= v.Keys
    ensures SetSum(s, v) <= SetSum(t, v)
    decreases t
  {
    if x :| x in t {
      SetSumTake(t, v, x);
      if x in s {
        SetSumTake(s, v, x);
        SetSumMonotone(s - {x}, t - {x}, v);
      } else {
        SetSumMonotone(s, t - {x}, v);
      }
    }
  }

  /** A list sum never falls below the set sum of its elements, and equals it exactly when
      whatever repeats is worth nothing: the order of the list does not matter. */
  lemma {:induction false} ListSumIsSetSum(s: seq<Address>, v: map<Address, nat>)
    requires forall x :: x in s ==> x in v
    ensures Elems(s) <= v.Keys
    ensures ListSum(s, v) >= SetSum(Elems(s), v)
    ensures ListSum(s, v) == SetSum(Elems(s), v) <==> forall x :: multiset(s)[x] > 1 ==> v[x] == 0
  {
    if s != [] {
      var init, x := s[..|s| - 1], s[|s| - 1];
      ListSumIsSetSum(init, v);
      assert s == init + [x];
      assert x in init <==> multiset(init)[x] > 0;
      if x in init {
        assert Elems(s) == Elems(init);
        assert multiset(s)[x] > 1;
        assert forall y :: multiset(s)[y] >= multiset(init)[y];
      } else {
        assert Elems(s) - {x} == Elems(init);
        SetSumTake(Elems(s), v, x);
        assert forall y :: multiset(s)[y] > 1 <==> multiset(init)[y] > 1;
      }
    }
  }
}
