/**
  How Split numbers the new communicators: several loops over the gathered details of
  all threads that must agree with each other.  First what the loops compute, then
  the loops.
 */
module SplitNumbers {

  /** One thread's entry of the gathered details; `color` is negative where no thread wrote. */
  datatype Details = Details(originPureRank: int, color: int, newPureRank: int)

  function Colors(ds: seq<Details>): (cs: seq<int>)
    ensures |cs| == |ds| && forall i :: 0 <= i < |cs| ==> cs[i] == ds[i].color
  {
    seq(|ds|, i requires 0 <= i < |ds| => ds[i].color)
  }

  /** How many of the first n entries have color c. */
  function Before(cs: seq<int>, c: int, n: nat): nat
    requires n <= |cs|
  {
    if n == 0 then 0 else Before(cs, c, n - 1) + if cs[n - 1] == c then 1 else 0
  }

  /** The positions of color c among the first n entries, in order. */
  function Places(cs: seq<int>, c: int, n: nat): (ps: seq<nat>)
    requires n <= |cs|
    ensures |ps| == Before(cs, c, n)
    ensures forall k :: 0 <= k < |ps| ==> ps[k] < n && cs[ps[k]] == c
  {
    if n == 0 then [] else Places(cs, c, n - 1) + if cs[n - 1] == c then [n - 1] else []
  }

  // ------------------------------------------------------------------ new pure ranks

  lemma {:induction false} BeforeGrows(cs: seq<int>, c: int, m: nat, n: nat)
    requires m <= n <= |cs|
    ensures Before(cs, c, m) <= Before(cs, c, n)
    ensures m < n && cs[m] == c ==> Before(cs, c, m) < Before(cs, c, n)
  {
    if m < n { BeforeGrows(cs, c, m, n - 1); }
  }

  /** The place numbered Before(r) is r itself. */
  lemma {:induction false} PlaceOf(cs: seq<int>, c: int, r: nat, n: nat)
    requires r < n <= |cs| && cs[r] == c
    ensures Before(cs, c, r) < |Places(cs, c, n)| && Places(cs, c, n)[Before(cs, c, r)] == r
  {
    if r < n - 1 { PlaceOf(cs, c, r, n - 1); }
  }

  lemma {:induction false} PlaceNumbered(cs: seq<int>, c: int, k: nat, n: nat)
    requires n <= |cs| && k < Before(cs, c, n)
    ensures Before(cs, c, Places(cs, c, n)[k]) == k
  {
    if k < Before(cs, c, n - 1) { PlaceNumbered(cs, c, k, n - 1); }
  }

  /** The new ranks of a color's entries are an order-preserving bijection onto 0..size-1. */
  lemma RanksBijective(cs: seq<int>, c: int, r: nat, s: nat, k: nat)
    requires r < |cs| && s < |cs| && cs[r] == cs[s] == c
    ensures Before(cs, c, r) < Before(cs, c, |cs|)
    ensures r < s <==> Before(cs, c, r) < Before(cs, c, s)
    ensures k < Before(cs, c, |cs|) ==>
              exists p :: 0 <= p < |cs| && cs[p] == c && Before(cs, c, p) == k
  {
    BeforeGrows(cs, c, r, |cs|);
    if r < s { BeforeGrows(cs, c, r, s); } else { BeforeGrows(cs, c, s, r); }
    if k < Before(cs, c, |cs|) { PlaceNumbered(cs, c, k, |cs|); }
  }

  // ------------------------------------------------------------------ thread numbers in the process

  /** The entries of one process, a window of the gathered ones. */
  lemma {:induction false} WindowCount(cs: seq<int>, c: int, off: nat, n: nat)
    requires off + n <= |cs|
    ensures Before(cs, c, off + n) == Before(cs, c, off) + Before(cs[off..], c, n)
  {
    if n > 0 { WindowCount(cs, c, off, n - 1); }
  }

  /** Entries no thread wrote do not count. */
  lemma {:induction false} EmptyTail(cs: seq<int>, c: int, m: nat, n: nat)
    requires m <= n <= |cs| && c >= 0 && forall i :: m <= i < n ==> cs[i] < 0
    ensures Before(cs, c, m) == Before(cs, c, n)
  {
    if m < n { EmptyTail(cs, c, m, n - 1); }
  }

  // ------------------------------------------------------------------ new MPI ranks

  predicate Sorted(a: seq<int>) { forall i, j :: 0 <= i <= j < |a| ==> a[i] <= a[j] }

  predicate Increasing(u: seq<int>) { forall i, j :: 0 <= i < j < |u| ==> u[i] < u[j] }

  /** How often the value changes along the first i + 1 entries. */
  function Runs(a: seq<int>, i: nat): nat
    requires i < |a|
  {
    if i == 0 then 0 else Runs(a, i - 1) + if a[i] != a[i - 1] then 1 else 0
  }

  /** Sorting and dropping duplicates. */
  predicate SortUnique(a: seq<int>, u: seq<int>) {
    Increasing(u) && (forall x :: x in a ==> x in u) && (forall x :: x in u ==> x in a)
  }

  /** Where MPI_Group_incl puts an origin rank of the list (MPI 3.1, section 6.3.2). */
  predicate RankIs(u: seq<int>, x: int, k: nat) { k < |u| && u[k] == x }

  /** The change counts are each entry's rank in the sorted list without duplicates. */
  predicate RunsAreRanks(a: seq<int>, u: seq<int>) {
    forall i :: 0 <= i < |a| ==> RankIs(u, a[i], Runs(a, i))
  }

  lemma {:induction false} SortedRuns(a: seq<int>, u: seq<int>, i: nat)
    requires Sorted(a) && SortUnique(a, u) && i < |a|
    ensures RankIs(u, a[i], Runs(a, i))
    ensures forall k :: 0 <= k <= Runs(a, i) ==> exists j :: 0 <= j <= i && a[j] == u[k]
  {
    if i == 0 {
      First(a, u);
    } else {
      SortedRuns(a, u, i - 1);
      if a[i] != a[i - 1] { NextRun(a, u, i); }
      forall k | 0 <= k <= Runs(a, i) ensures exists j :: 0 <= j <= i && a[j] == u[k] {
        if k <= Runs(a, i - 1) {
          var j :| 0 <= j <= i - 1 && a[j] == u[k];
        }
      }
    }
  }

  lemma First(a: seq<int>, u: seq<int>)
    requires Sorted(a) && SortUnique(a, u) && a != []
    ensures u != [] && u[0] == a[0]
  {
    assert a[0] in a && a[0] in u;
    assert u[0] in a;
  }

  /** The next different value of a sorted list is the next of the increasing one. */
  lemma NextRun(a: seq<int>, u: seq<int>, i: nat)
    requires Sorted(a) && SortUnique(a, u) && 0 < i < |a| && a[i] != a[i - 1]
    requires RankIs(u, a[i - 1], Runs(a, i - 1))
    ensures RankIs(u, a[i], Runs(a, i - 1) + 1)
  {
    var k := Runs(a, i - 1);
    assert a[i] in u;
    var m :| 0 <= m < |u| && u[m] == a[i];
    InOrder(u, k, m);
    assert u[k + 1] in a;
    var j :| 0 <= j < |a| && a[j] == u[k + 1];
    InOrder(u, k, k + 1);
    LaterIfLarger(a, i - 1, j);
    InOrder(u, k + 1, m);
  }

  lemma InOrder(u: seq<int>, i: nat, j: nat)
    requires Increasing(u) && i < |u| && j < |u|
    ensures u[i] < u[j] <==> i < j
  {
  }

  lemma LaterIfLarger(a: seq<int>, i: nat, j: nat)
    requires Sorted(a) && i < |a| && j < |a| && a[i] < a[j]
    ensures i < j
  {
  }

  /** Where the value changes, the count goes up, and so must the value. */
  lemma ChangesAscend(a: seq<int>, u: seq<int>, i: nat)
    requires SortUnique(a, u) && RunsAreRanks(a, u) && i + 1 < |a|
    ensures a[i] <= a[i + 1]
  {
    assert RankIs(u, a[i], Runs(a, i)) && RankIs(u, a[i + 1], Runs(a, i + 1));
    if a[i + 1] != a[i] { InOrder(u, Runs(a, i), Runs(a, i + 1)); }
  }

  lemma {:induction false} NoDescent(a: seq<int>, i: nat, j: nat)
    requires i <= j < |a| && forall k :: 0 <= k < |a| - 1 ==> a[k] <= a[k + 1]
    ensures a[i] <= a[j]
  {
    if i < j { NoDescent(a, i, j - 1); }
  }

  /** Counting changes gives the MPI ranks exactly when the origin MPI ranks come sorted. */
  lemma RunsAreRanksIffSorted(a: seq<int>, u: seq<int>)
    requires SortUnique(a, u)
    ensures RunsAreRanks(a, u) <==> Sorted(a)
  {
    if Sorted(a) {
      forall i | 0 <= i < |a| ensures RankIs(u, a[i], Runs(a, i)) { SortedRuns(a, u, i); }
    }
    if RunsAreRanks(a, u) {
      forall k | 0 <= k < |a| - 1 ensures a[k] <= a[k + 1] {
        ChangesAscend(a, u, k);
      }
      forall i, j | 0 <= i <= j < |a| ensures a[i] <= a[j] { NoDescent(a, i, j); }
    }
  }

  // ------------------------------------------------------------------ one color's communicator

  /** PureCommProcessDetail: pure_origin_comm_ranks, mpi_new_comm_ranks, the group, the local size. */
  datatype CommDetail = CommDetail(originRanks: seq<int>, mpiRanks: seq<int>, group: seq<int>, numLocal: nat)

  /** What a thread gets: its process's detail, its new rank and its number in the process. */
  datatype ThreadComm = ThreadComm(detail: CommDetail, rank: nat, threadNum: nat)

  /** PureComm::OriginCommMyRank. */
  function OriginCommMyRank(c: ThreadComm): int
    requires c.rank < |c.detail.originRanks|
  {
    c.detail.originRanks[c.rank]
  }

  function Pick(xs: seq<int>, ps: seq<nat>): (r: seq<int>)
    requires forall k :: 0 <= k < |ps| ==> ps[k] < |xs|
    ensures |r| == |ps|
  {
    seq(|ps|, k requires 0 <= k < |ps| => xs[ps[k]])
  }

  function Origins(ds: seq<Details>): (r: seq<int>)
    ensures |r| == |ds|
  {
    seq(|ds|, i requires 0 <= i < |ds| => ds[i].originPureRank)
  }

  function MpiOf(ds: seq<Details>, mpi: int -> int): (r: seq<int>)
    ensures |r| == |ds|
  {
    seq(|ds|, i requires 0 <= i < |ds| => mpi(ds[i].originPureRank))
  }

  /** The origin MPI ranks of color c's entries, in order. */
  function ColorMpiRanks(ds: seq<Details>, c: int, mpi: int -> int): (a: seq<int>)
    ensures |a| == Before(Colors(ds), c, |ds|)
  {
    Pick(MpiOf(ds, mpi), Places(Colors(ds), c, |ds|))
  }

  /** What the detail of color c must be; `local` are this process's colors. */
  predicate DetailOk(ds: seq<Details>, c: int, mpi: int -> int, local: seq<int>, d: CommDetail) {
    var a := ColorMpiRanks(ds, c, mpi);
    && d.originRanks == Pick(Origins(ds), Places(Colors(ds), c, |ds|))
    && |d.mpiRanks| == |a| && (forall i :: 0 <= i < |a| ==> d.mpiRanks[i] == Runs(a, i))
    && SortUnique(a, d.group)
    && d.numLocal == Before(local, c, |local|)
  }

  /** What thread t of the process whose entries start at `off` must get. */
  predicate CommOk(ds: seq<Details>, mpi: int -> int, off: nat, width: nat, t: nat, r: ThreadComm)
    requires off + width <= |ds| && t < width
  {
    var cs := Colors(ds);
    var c := cs[off + t];
    && DetailOk(ds, c, mpi, cs[off..off + width], r.detail)
    && r.rank == Before(cs, c, off + t)
    && r.threadNum == Before(cs[off..off + width], c, t)
  }

  /** Each thread's new rank names its own entry, so OriginCommMyRank is its rank in the origin. */
  lemma OriginRankIsOwn(ds: seq<Details>, mpi: int -> int, off: nat, width: nat, t: nat, r: ThreadComm)
    requires off + width <= |ds| && t < width && CommOk(ds, mpi, off, width, t, r)
    ensures r.rank < |r.detail.originRanks| == |r.detail.mpiRanks|
    ensures OriginCommMyRank(r) == ds[off + t].originPureRank
  {
    var cs := Colors(ds);
    PlaceOf(cs, cs[off + t], off + t, |cs|);
  }

  lemma OwnMpiRank(ds: seq<Details>, mpi: int -> int, r: nat)
    requires r < |ds|
    ensures var c := ds[r].color;
            var k := Before(Colors(ds), c, r);
            k < |ColorMpiRanks(ds, c, mpi)| && ColorMpiRanks(ds, c, mpi)[k] == mpi(ds[r].originPureRank)
  {
    PlaceOf(Colors(ds), ds[r].color, r, |ds|);
  }

  /** With sorted origin MPI ranks the thread's new MPI rank is where its process stands in the group. */
  lemma MpiRankInGroup(ds: seq<Details>, mpi: int -> int, off: nat, width: nat, t: nat, r: ThreadComm)
    requires off + width <= |ds| && t < width && CommOk(ds, mpi, off, width, t, r)
    requires Sorted(ColorMpiRanks(ds, ds[off + t].color, mpi))
    ensures r.rank < |r.detail.mpiRanks| && 0 <= r.detail.mpiRanks[r.rank] < |r.detail.group|
    ensures r.detail.group[r.detail.mpiRanks[r.rank]] == mpi(ds[off + t].originPureRank)
  {
    hide SortUnique, Sorted, ColorMpiRanks;
    OwnMpiRank(ds, mpi, off + t);
    Standing(ColorMpiRanks(ds, ds[off + t].color, mpi), r.detail.mpiRanks, r.detail.group, r.rank);
  }

  lemma Standing(a: seq<int>, ranks: seq<int>, group: seq<int>, k: nat)
    requires Sorted(a) && SortUnique(a, group) && k < |a| == |ranks|
    requires forall i :: 0 <= i < |a| ==> ranks[i] == Runs(a, i)
    ensures 0 <= ranks[k] < |group| && group[ranks[k]] == a[k]
  {
    SortedRuns(a, group, k);
  }

  /** Thread numbers of one color in a process are distinct, ordered as the ranks, and fill 0..numLocal-1. */
  lemma ThreadNumbersDense(ds: seq<Details>, mpi: int -> int, off: nat, width: nat, t: nat, r: ThreadComm,
                           u: nat, q: ThreadComm, k: nat)
    requires off + width <= |ds| && t < width && u < width && ds[off + t].color == ds[off + u].color
    requires CommOk(ds, mpi, off, width, t, r) && CommOk(ds, mpi, off, width, u, q)
    ensures r.threadNum < r.detail.numLocal == q.detail.numLocal
    ensures t < u <==> r.threadNum < q.threadNum
    ensures r.threadNum < q.threadNum <==> r.rank < q.rank
    ensures k < r.detail.numLocal ==>
              var local := Colors(ds)[off..off + width];
              exists v :: 0 <= v < width && local[v] == ds[off + t].color && Before(local, ds[off + t].color, v) == k
  {
    var cs := Colors(ds);
    var c := cs[off + t];
    var local := cs[off..off + width];
    assert local[t] == c && local[u] == c;
    RanksBijective(local, c, t, u, k);
    RanksBijective(cs, c, off + t, off + u, 0);
  }

  /** A thread's rank is its number in the process, past the color's ranks in earlier processes. */
  lemma RankFromThreadNum(ds: seq<Details>, mpi: int -> int, off: nat, width: nat, t: nat, r: ThreadComm)
    requires off + width <= |ds| && t < width && CommOk(ds, mpi, off, width, t, r)
    ensures r.rank == Before(Colors(ds), ds[off + t].color, off) + r.threadNum
  {
    var cs := Colors(ds);
    WindowCount(cs, cs[off + t], off, t);
    SamePrefix(cs[off..], cs[off..off + width], cs[off + t], t);
  }

  lemma {:induction false} SamePrefix(xs: seq<int>, ys: seq<int>, c: int, n: nat)
    requires n <= |xs| && n <= |ys| && xs[..n] == ys[..n]
    ensures Before(xs, c, n) == Before(ys, c, n)
  {
    if n > 0 {
      assert xs[n - 1] == xs[..n][n - 1] == ys[..n][n - 1] == ys[n - 1];
      assert xs[..n - 1] == xs[..n][..n - 1] == ys[..n][..n - 1] == ys[..n - 1];
      SamePrefix(xs, ys, c, n - 1);
    }
  }

  /** The local size counts exactly the process's callers: no other slot of the window has a color. */
  lemma NumLocalCountsCallers(ds: seq<Details>, c: int, mpi: int -> int, local: seq<int>, threads: nat, d: CommDetail)
    requires DetailOk(ds, c, mpi, local, d) && c >= 0
    requires threads <= |local| && forall i :: threads <= i < |local| ==> local[i] < 0
    ensures d.numLocal == Before(local, c, threads)
  {
    EmptyTail(local, c, threads, |local|);
  }
}

/** Split's loops, each proved to compute what the numbering says. */
module SplitLoops {
  import opened Options
  import opened SplitNumbers

  /** The fields the loops never change. */
  predicate SameEntries(ds: seq<Details>, es: seq<Details>) {
    Colors(ds) == Colors(es) && Origins(ds) == Origins(es)
  }

  // std::sort, unique and erase
  function Insert(u: seq<int>, x: int): (r: seq<int>)
    requires Increasing(u)
    ensures Increasing(r)
    ensures forall y :: y in r ==> y in u || y == x
    ensures x in r && forall y :: y in u ==> y in r
  {
    if u == [] || x < u[0] then [x] + u
    else if x == u[0] then u
    else
      var rest := Insert(u[1..], x);
      Prepend(u, x, rest);
      [u[0]] + rest
  }

  lemma Prepend(u: seq<int>, x: int, rest: seq<int>)
    requires u != [] && Increasing(u) && Increasing(rest) && u[0] < x
    requires forall y :: y in rest ==> y in u[1..] || y == x
    requires x in rest && forall y :: y in u[1..] ==> y in rest
    ensures var r := [u[0]] + rest;
            Increasing(r) && (forall y :: y in r ==> y in u || y == x) && (forall y :: y in u ==> y in r) && x in r
  {
    var r := [u[0]] + rest;
    forall j | 0 < j < |r| ensures u[0] < r[j] {
      assert r[j] in rest;
      if r[j] in u[1..] { var k :| 0 <= k < |u[1..]| && u[1..][k] == r[j]; }
    }
    forall y | y in u ensures y in r {
      if y != u[0] { assert y in u[1..]; }
    }
  }

  function SortedDistinct(a: seq<int>): (u: seq<int>)
    ensures SortUnique(a, u)
  {
    if a == [] then [] else Insert(SortedDistinct(a[..|a| - 1]), a[|a| - 1])
  }

  /** The origin ranks and MPI ranks of one color, in the order of the gathered details. */
  method CollectColor(ds: array<Details>, c: int, mpi: int -> int) returns (mpiRanks: seq<int>, originRanks: seq<int>)
    ensures mpiRanks == ColorMpiRanks(ds[..], c, mpi)
    ensures originRanks == Pick(Origins(ds[..]), Places(Colors(ds[..]), c, ds.Length))
  {
    mpiRanks, originRanks := [], [];
    ghost var g := ds[..];
    for r := 0 to ds.Length
      invariant mpiRanks == Pick(MpiOf(g, mpi), Places(Colors(g), c, r))
      invariant originRanks == Pick(Origins(g), Places(Colors(g), c, r))
    {
      if ds[r].color == c {
        mpiRanks := mpiRanks + [mpi(ds[r].originPureRank)];
        originRanks := originRanks + [ds[r].originPureRank];
      }
    }
  }

  /** The loop over curr_origin_mpi_rank and curr_new_mpi_rank. */
  method NewMpiRanks(a: seq<int>) returns (r: seq<int>)
    requires a != []
    ensures |r| == |a| && forall i :: 0 <= i < |a| ==> r[i] == Runs(a, i)
  {
    r := [];
    var curr_origin_mpi_rank, curr_new_mpi_rank := a[0], 0;
    for i := 0 to |a|
      invariant |r| == i && forall k :: 0 <= k < i ==> r[k] == Runs(a, k)
      invariant if i == 0 then curr_origin_mpi_rank == a[0] && curr_new_mpi_rank == 0
                else curr_origin_mpi_rank == a[i - 1] && curr_new_mpi_rank == Runs(a, i - 1)
    {
      if a[i] != curr_origin_mpi_rank {
        curr_origin_mpi_rank := a[i];
        curr_new_mpi_rank := curr_new_mpi_rank + 1;
      }
      r := r + [curr_new_mpi_rank];
    }
  }

  /** One AddNewMpiRank for each entry of the color, by a running index. */
  method AddNewMpiRanks(ds: array<Details>, c: int, ranks: seq<int>) returns (added: seq<int>)
    requires |ranks| == Before(Colors(ds[..]), c, ds.Length)
    ensures added == ranks
  {
    added := [];
    ghost var cs := Colors(ds[..]);
    var new_mpi_rank_idx := 0;
    for t := 0 to ds.Length
      invariant new_mpi_rank_idx == Before(cs, c, t)
      invariant new_mpi_rank_idx <= |ranks| && added == ranks[..new_mpi_rank_idx]
    {
      BeforeGrows(cs, c, t, ds.Length);
      BeforeGrows(cs, c, t + 1, ds.Length);
      if ds[t].color == c {
        added := added + [ranks[new_mpi_rank_idx]];
        new_mpi_rank_idx := new_mpi_rank_idx + 1;
      }
    }
  }

  method CountLocal(ds: array<Details>, c: int, off: nat, width: nat) returns (n: nat)
    requires off + width <= ds.Length
    ensures n == Before(Colors(ds[..])[off..off + width], c, width)
  {
    n := 0;
    ghost var local := Colors(ds[..])[off..off + width];
    for t := 0 to width
      invariant n == Before(local, c, t)
    {
      if ds[off + t].color == c { n := n + 1; }
    }
  }

  /** All colors that occur, and the largest. */
  method UniqueColors(ds: array<Details>) returns (colors: set<int>, max_color: nat)
    ensures forall c :: c in colors <==> c >= 0 && exists i :: 0 <= i < ds.Length && ds[i].color == c
    ensures forall i :: 0 <= i < ds.Length ==> ds[i].color <= max_color
  {
    colors, max_color := {}, 0;
    for gt := 0 to ds.Length
      invariant forall c :: c in colors <==> c >= 0 && exists i :: 0 <= i < gt && ds[i].color == c
      invariant forall i :: 0 <= i < gt ==> ds[i].color <= max_color
    {
      if ds[gt].color >= 0 {
        colors := colors + {ds[gt].color};
        if ds[gt].color > max_color { max_color := ds[gt].color; }
      }
    }
  }

  /** One counter a color: every written entry gets the next number of its color. */
  method NumberRanks(ds: array<Details>, max_color: nat)
    requires forall i :: 0 <= i < ds.Length ==> ds[i].color <= max_color
    modifies ds
    ensures SameEntries(ds[..], old(ds[..]))
    ensures forall i :: 0 <= i < ds.Length && ds[i].color >= 0 ==>
              ds[i].newPureRank == Before(Colors(ds[..]), ds[i].color, i)
  {
    var rank_counter_for_color := new nat[max_color + 1](_ => 0);
    ghost var g := ds[..];
    ghost var cs := Colors(g);
    for r := 0 to ds.Length
      invariant rank_counter_for_color != ds as object
      invariant SameEntries(ds[..], g)
      invariant forall c :: 0 <= c <= max_color ==> rank_counter_for_color[c] == Before(cs, c, r)
      invariant forall i :: 0 <= i < r && ds[i].color >= 0 ==> ds[i].newPureRank == Before(cs, ds[i].color, i)
    {
      assert ds[..][r].color == Colors(ds[..])[r] == cs[r];
      var this_color := ds[r].color;
      if this_color >= 0 {
        KeepsEntries(ds[..], g, r, rank_counter_for_color[this_color]);
        ds[r] := ds[r].(newPureRank := rank_counter_for_color[this_color]);
        rank_counter_for_color[this_color] := rank_counter_for_color[this_color] + 1;
      }
    }
  }

  lemma KeepsEntries(ds: seq<Details>, g: seq<Details>, r: nat, k: int)
    requires SameEntries(ds, g) && r < |ds|
    ensures SameEntries(ds[r := ds[r].(newPureRank := k)], g)
  {
    var es := ds[r := ds[r].(newPureRank := k)];
    assert Colors(es) == Colors(ds) && Origins(es) == Origins(ds);
  }

  /** Each local thread of the color gets its own communicator, numbered by a counter. */
  method MakeThreadComms(ds: array<Details>, c: int, off: nat, width: nat, threads: nat, d: CommDetail,
                         comms: array<Option<ThreadComm>>)
    requires off + width <= ds.Length && threads <= width && comms.Length == threads
    requires forall i :: 0 <= i < ds.Length && ds[i].color == c ==> ds[i].newPureRank == Before(Colors(ds[..]), c, i)
    modifies comms
    ensures forall t :: 0 <= t < threads ==>
              comms[t] == if ds[off + t].color != c then old(comms[t])
                          else Some(ThreadComm(d, Before(Colors(ds[..]), c, off + t),
                                               Before(Colors(ds[..])[off..off + width], c, t)))
  {
    var thread_counter_for_color := 0;
    ghost var cs := Colors(ds[..]);
    ghost var local := cs[off..off + width];
    for t := 0 to threads
      invariant thread_counter_for_color == Before(local, c, t)
      invariant forall u :: 0 <= u < threads ==>
                  comms[u] == if u >= t || ds[off + u].color != c then old(comms[u])
                              else Some(ThreadComm(d, Before(cs, c, off + u), Before(local, c, u)))
    {
      if ds[off + t].color == c {
        comms[t] := Some(ThreadComm(d, ds[off + t].newPureRank, thread_counter_for_color));
        thread_counter_for_color := thread_counter_for_color + 1;
      }
    }
  }

  /** One color's detail: the three loops over the gathered entries and the sort. */
  method MakeDetail(ds: array<Details>, c: int, mpi: int -> int, off: nat, width: nat) returns (d: CommDetail)
    requires off + width <= ds.Length
    requires exists i :: 0 <= i < ds.Length && ds[i].color == c
    ensures DetailOk(ds[..], c, mpi, Colors(ds[..])[off..off + width], d)
  {
    hide *;
    forall i | 0 <= i < ds.Length ensures Colors(ds[..])[i] == ds[i].color {}
    Occurs(Colors(ds[..]), c);
    var a, origins := CollectColor(ds, c, mpi);
    var ranks := NewMpiRanks(a);
    var added := AddNewMpiRanks(ds, c, ranks);
    var n := CountLocal(ds, c, off, width);
    d := CommDetail(origins, added, SortedDistinct(a), n);
    MakesDetail(ds[..], c, mpi, Colors(ds[..])[off..off + width], d);
  }

  lemma MakesDetail(g: seq<Details>, c: int, mpi: int -> int, local: seq<int>, d: CommDetail)
    requires d.originRanks == Pick(Origins(g), Places(Colors(g), c, |g|))
    requires var a := ColorMpiRanks(g, c, mpi);
             |d.mpiRanks| == |a| && SortUnique(a, d.group) && forall i :: 0 <= i < |a| ==> d.mpiRanks[i] == Runs(a, i)
    requires d.numLocal == Before(local, c, |local|)
    ensures DetailOk(g, c, mpi, local, d)
  {
  }

  lemma Occurs(cs: seq<int>, c: int)
    requires exists i :: 0 <= i < |cs| && cs[i] == c
    ensures Before(cs, c, |cs|) > 0
  {
    var i :| 0 <= i < |cs| && cs[i] == c;
    BeforeGrows(cs, c, i, |cs|);
  }

  lemma SameDetail(ds: seq<Details>, g: seq<Details>, c: int, mpi: int -> int, local: seq<int>, d: CommDetail)
    requires SameEntries(ds, g) && DetailOk(ds, c, mpi, local, d)
    ensures DetailOk(g, c, mpi, local, d)
  {
    assert |ds| == |Origins(ds)| == |g|;
    forall i | 0 <= i < |ds| ensures MpiOf(ds, mpi)[i] == MpiOf(g, mpi)[i] {
      assert Origins(ds)[i] == Origins(g)[i];
    }
    assert MpiOf(ds, mpi) == MpiOf(g, mpi);
  }

  /** The threads whose color has been dealt with have their communicators, the others none yet. */
  ghost predicate Served(g: seq<Details>, mpi: int -> int, off: nat, width: nat, remaining: set<int>,
                         comms: seq<Option<ThreadComm>>)
    requires off + width <= |g| && |comms| <= width
  {
    forall t :: 0 <= t < |comms| ==>
      var c := g[off + t].color;
      if c < 0 || c in remaining then comms[t] == None
      else comms[t].Some? && CommOk(g, mpi, off, width, t, comms[t].value)
  }

  /** Everything the leader does for one color. */
  method SplitColor(ds: array<Details>, c: int, max_color: nat, mpi: int -> int, off: nat, width: nat, threads: nat,
                    comms: array<Option<ThreadComm>>, ghost g: seq<Details>, ghost remaining: set<int>)
    requires off + width <= ds.Length && threads <= width && comms.Length == threads && comms != ds as object
    requires c >= 0 && c in remaining && exists i :: 0 <= i < ds.Length && ds[i].color == c
    requires forall i :: 0 <= i < ds.Length ==> ds[i].color <= max_color
    requires SameEntries(ds[..], g) && |g| == ds.Length && Served(g, mpi, off, width, remaining, comms[..])
    modifies ds, comms
    ensures SameEntries(ds[..], g) && Served(g, mpi, off, width, remaining - {c}, comms[..])
  {
    var d := MakeDetail(ds, c, mpi, off, width);
    SameDetail(ds[..], g, c, mpi, Colors(g)[off..off + width], d);
    NumberRanks(ds, max_color);
    assert Colors(ds[..]) == Colors(g);
    ghost var before := comms[..];
    MakeThreadComms(ds, c, off, width, threads, d, comms);
    forall t | 0 <= t < threads
      ensures var b := g[off + t].color;
              if b < 0 || b in remaining - {c} then comms[t] == None
              else comms[t].Some? && CommOk(g, mpi, off, width, t, comms[t].value)
    {
      assert Colors(ds[..])[off + t] == Colors(g)[off + t];
      assert before[t] == if g[off + t].color < 0 || g[off + t].color in remaining then None else before[t];
    }
  }

  /**
    Split's leader: `ds` are the gathered details, this process's from `off` on, `width`
    slots of which `threads` are used; each used slot's thread gets its communicator.
   */
  method Split(ds: array<Details>, mpi: int -> int, off: nat, width: nat, threads: nat)
    returns (comms: array<Option<ThreadComm>>)
    requires off + width <= ds.Length && threads <= width
    modifies ds
    ensures fresh(comms) && comms.Length == threads
    ensures SameEntries(ds[..], old(ds[..]))
    ensures Served(old(ds[..]), mpi, off, width, {}, comms[..])
  {
    comms := new Option<ThreadComm>[threads](_ => None);
    ghost var g := ds[..];
    var remaining, max_color := UniqueColors(ds);
    while remaining != {}
      invariant SameEntries(ds[..], g) && Served(g, mpi, off, width, remaining, comms[..])
      invariant forall c :: c in remaining ==> c >= 0 && exists i :: 0 <= i < |g| && g[i].color == c
      invariant forall i :: 0 <= i < |g| ==> g[i].color <= max_color
      decreases |remaining|
    {
      var c :| c in remaining;
      forall i | 0 <= i < ds.Length ensures ds[i].color == g[i].color {
        assert Colors(ds[..])[i] == Colors(g)[i];
      }
      SplitColor(ds, c, max_color, mpi, off, width, threads, comms, g, remaining);
      remaining := remaining - {c};
    }
  }
}
