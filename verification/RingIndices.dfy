/** Indices into a ring, wrapped around by comparison, against counters that never wrap. */
module RingIndices {

  function NextIndex(i: nat, size: nat): nat { if i + 1 == size then 0 else i + 1 }

  lemma NextWraps(i: nat, size: nat)
    requires size > 0
    ensures NextIndex(i % size, size) == (i + 1) % size
  {
    var q, m := i / size, i % size;
    assert i == q * size + m;
    if m + 1 == size {
      assert i + 1 == (q + 1) * size;
      Multiple(q + 1, size, 0);
    } else {
      Multiple(q, size, m + 1);
    }
  }

  lemma Multiple(q: nat, size: nat, m: nat)
    requires m < size
    ensures (q * size + m) % size == m
  {
    var x := q * size + m;
    SameQuotient(x / size - q, size, m - x % size);
  }

  lemma SameQuotient(d: int, size: nat, e: int)
    requires d * size == e && 0 < size + e && e < size
    ensures e == 0
  {
    if d > 0 { AtLeastOnce(d, size); } else if d < 0 { AtLeastOnce(-d, size); }
  }

  lemma AddSize(x: nat, size: nat)
    requires size > 0
    ensures (x + size) % size == x % size
  {
    Multiple(x / size + 1, size, x % size);
    assert x + size == (x / size + 1) * size + x % size;
  }

  /** Indices less than one lap apart are equal exactly when their wrapped forms are. */
  lemma WithinALap(a: nat, b: nat, size: nat)
    requires a <= b < a + size
    ensures a % size == b % size <==> a == b
  {
    if a < b { DifferentSlots(size, a, b); }
  }

  lemma SameSlotIsFar(n: nat, i: nat, w: nat)
    requires i < w && 0 < n && i % n == w % n
    ensures w >= i + n
  {
    var q := w / n - i / n;
    assert w - i == q * n;
    AtLeastOnce(q, n);
  }

  lemma AtLeastOnce(q: int, n: nat)
    requires q * n > 0
    ensures q * n >= n
  {
    if q > 0 { assert q * n == n + (q - 1) * n; }
  }

  lemma DifferentSlots(n: nat, i: nat, w: nat)
    requires i < w < i + n
    ensures i % n != w % n
  {
    if i % n == w % n { SameSlotIsFar(n, i, w); }
  }

  lemma FullWhenEqual(rc: nat, w: nat, size: nat)
    requires rc <= w < rc + size
    ensures (w + 1) % size == rc % size <==> w + 1 == rc + size
  {
    AddSize(rc, size);
    if w + 1 < rc + size { WithinALap(rc, w + 1, size); }
  }

  /** sizeGuess of the queues. */
  lemma SizeGuessExact(r: nat, w: nat, size: nat)
    requires r <= w < r + size
    ensures var d := (w % size) as int - (r % size) as int;
            (if d < 0 then d + size else d) == w - r
  {
    Wrapped(r / size, r % size, w - r, size);
  }

  lemma Wrapped(q: nat, m: nat, k: nat, size: nat)
    requires m < size && k < size
    ensures (q * size + m + k) % size == if m + k < size then m + k else m + k - size
  {
    if m + k < size {
      Multiple(q, size, m + k);
    } else {
      assert q * size + m + k == (q + 1) * size + (m + k - size);
      Multiple(q + 1, size, m + k - size);
    }
  }
}
