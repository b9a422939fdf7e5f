/** Sets of thread numbers and their sizes. */
module Counting {

  /** The threads whose flag is set. */
  ghost function Set(flags: seq<bool>): set<nat> { set t | 0 <= t < |flags| && flags[t] }

  ghost function Below(n: nat): (r: set<nat>)
    ensures forall i: nat {:trigger i in r} :: i in r <==> i < n
    ensures |r| == n
  {
    if n == 0 then {} else Below(n - 1) + {n - 1}
  }

  lemma {:induction false} SubsetSize(a: set<nat>, b: set<nat>)
    requires a <= b
    ensures |a| <= |b|
  {
    if a != {} {
      var x :| x in a;
      SubsetSize(a - {x}, b - {x});
    }
  }

  /** How many flags are set. */
  ghost function Count(flags: seq<bool>): (n: nat)
    ensures n <= |flags|
  {
    SubsetSize(Set(flags), Below(|flags|));
    |Set(flags)|
  }

  lemma Raise(flags: seq<bool>, t: nat)
    requires t < |flags| && !flags[t]
    ensures Count(flags[t := true]) == Count(flags) + 1
  {
    assert Set(flags[t := true]) == Set(flags) + {t};
  }

  /** All flags are set exactly when they count to the length, none exactly when to zero. */
  lemma Full(flags: seq<bool>)
    ensures Count(flags) == |flags| <==> forall t :: 0 <= t < |flags| ==> flags[t]
    ensures Count(flags) == 0 <==> forall t :: 0 <= t < |flags| ==> !flags[t]
  {
    if t :| 0 <= t < |flags| && !flags[t] {
      SubsetSize(Set(flags) + {t}, Below(|flags|));
    } else {
      assert Set(flags) == Below(|flags|);
    }
    if t :| 0 <= t < |flags| && flags[t] { assert t in Set(flags); }
  }

  function Sum(xs: seq<nat>): nat {
    if xs == [] then 0 else Sum(xs[..|xs| - 1]) + xs[|xs| - 1]
  }

  /** One term less and none more: the sum is less. */
  lemma {:induction false} SumLess(xs: seq<nat>, ys: seq<nat>, i: nat)
    requires |xs| == |ys| && i < |xs| && ys[i] < xs[i]
    requires forall j :: 0 <= j < |xs| ==> ys[j] <= xs[j]
    ensures Sum(ys) < Sum(xs)
  {
    var last := |xs| - 1;
    if i < last { SumLess(xs[..last], ys[..last], i); } else { SumAtMost(xs[..last], ys[..last]); }
  }

  lemma {:induction false} SumAtMost(xs: seq<nat>, ys: seq<nat>)
    requires |xs| == |ys| && forall j :: 0 <= j < |xs| ==> ys[j] <= xs[j]
    ensures Sum(ys) <= Sum(xs)
  {
    if xs != [] { SumAtMost(xs[..|xs| - 1], ys[..|xs| - 1]); }
  }

  /** Place r of call a comes before the end of call b. */
  lemma WithinCalls(a: nat, b: nat, d: nat, r: nat)
    requires a <= b && r < d
    ensures a * d + r < (b + 1) * d
  {
    assert a * d <= b * d by { TimesMore(a, b, d); }
    assert (b + 1) * d == b * d + d;
  }

  lemma TimesMore(a: nat, b: nat, d: nat)
    requires a <= b
    ensures a * d <= b * d
  {
  }
}
