/** Overlapping windows over a sequence: how many there are, where each lies, and
    what they say together. Nothing here knows about words or text. */
module Windows {

  function Min(a: int, b: int): int {
    if a <= b then a else b
  }

  /** How many windows of `size` items, each `step` after the one before, it
      takes to reach the end of `n` items. */
  function Count(n: nat, size: int, step: int): (k: nat)
    requires 0 < step <= size
    ensures k == 0 <==> n == 0
  {
    if n == 0 then 0 else if n <= size then 1 else 1 + Count(n - step, size, step)
  }

  function From(step: int, i: nat): int {
    if i == 0 then 0 else From(step, i - 1) + step
  }

  function To(n: nat, size: int, step: int, i: nat): int {
    Min(From(step, i) + size, n)
  }

  /** Window `i` is nonempty and inside the items; it reaches the last item
      exactly when it is the last window; each later window goes further. */
  lemma {:induction false} WindowBounds(n: nat, size: int, step: int, i: nat)
    requires 0 < step <= size && i < Count(n, size, step)
    ensures 0 <= From(step, i) < To(n, size, step, i) <= n
    ensures To(n, size, step, i) == n <==> i == Count(n, size, step) - 1
    ensures i < Count(n, size, step) - 1 ==> From(step, i) + size < n
    ensures i > 0 ==> To(n, size, step, i - 1) == From(step, i) + size - step < To(n, size, step, i)
    ensures i > 0 ==> step <= From(step, i)
    decreases i
  {
    if i > 0 {
      WindowBounds(n - step, size, step, i - 1);
    }
  }

  /** The closed forms: window `i` starts at item `i * step`, and a sequence
      longer than one window takes 1 + ceil((n - size) / step) of them. */
  lemma {:induction false} FromClosed(step: int, i: nat)
    ensures From(step, i) == i * step
  {
    if i > 0 {
      FromClosed(step, i - 1);
    }
  }

  lemma {:induction false} CountClosed(n: nat, size: int, step: int)
    requires 0 < step <= size
    ensures Count(n, size, step)
            == if n == 0 then 0 else if n <= size then 1 else 1 + (n - size + step - 1) / step
    decreases n
  {
    if n > size {
      CountClosed(n - step, size, step);
      DivShift(n - size - 1, step);
      if n - step <= size {
        DivSmall(n - size - 1, step);
      }
    }
  }

  lemma DivShift(a: int, b: int)
    requires b > 0
    ensures (a + b) / b == a / b + 1
  {
    var q, r := a / b, a % b;
    assert a == q * b + r;
    assert a + b == (q + 1) * b + r;
    DivUnique(a + b, b, q + 1, r);
  }

  lemma DivUnique(a: int, b: int, q: int, r: int)
    requires b > 0 && a == q * b + r && 0 <= r < b
    ensures a / b == q
  {
    var d := a / b - q;
    assert d * b == r - a % b;
    if d >= 1 {
      MulMono(1, d, b);
    } else if d <= -1 {
      MulMono(d, -1, b);
    }
  }

  lemma MulMono(a: int, b: int, c: int)
    requires a <= b && c >= 0
    ensures a * c <= b * c
  {
  }

  lemma DivSmall(a: int, b: int)
    requires 0 <= a < b
    ensures a / b == 0
  {
  }

  function Window<T>(items: seq<T>, size: int, step: int, i: nat): (w: seq<T>)
    requires 0 < step <= size && i < Count(|items|, size, step)
    ensures 0 <= From(step, i) < To(|items|, size, step, i) <= |items|
    ensures w == items[From(step, i)..To(|items|, size, step, i)]
  {
    WindowBounds(|items|, size, step, i);
    items[From(step, i)..To(|items|, size, step, i)]
  }

  /** Window `i` by its place: the items from `i * step` on, `size` of them or what is
      left. */
  lemma WindowPlaced<T>(items: seq<T>, size: int, step: int, i: nat)
    requires 0 < step <= size && i < Count(|items|, size, step)
    ensures 0 <= i * step < |items|
    ensures Window(items, size, step, i)
            == items[i * step..if i * step + size < |items| then i * step + size else |items|]
  {
    WindowBounds(|items|, size, step, i);
    FromClosed(step, i);
  }

  function AllWindows<T>(items: seq<T>, size: int, step: int): (r: seq<seq<T>>)
    requires 0 < step <= size
    ensures |r| == Count(|items|, size, step)
    ensures forall i | 0 <= i < |r| :: r[i] == Window(items, size, step, i)
  {
    seq(Count(|items|, size, step), i requires 0 <= i < Count(|items|, size, step) => Window(items, size, step, i))
  }

  /** Every window but the last has `size` items, the last between 1 and `size`;
      adjacent windows share exactly `size - step` items, and each later window
      adds at least one. */
  lemma WindowShape<T>(items: seq<T>, size: int, step: int, i: nat)
    requires 0 < step <= size && i < Count(|items|, size, step)
    ensures var w := Window(items, size, step, i);
            && 0 < |w| <= size
            && (i < Count(|items|, size, step) - 1 ==> |w| == size)
            && (i > 0 ==>
                  && |w| > size - step
                  && Window(items, size, step, i - 1)[step..] == w[..size - step])
  {
    WindowBounds(|items|, size, step, i);
    if i > 0 {
      WindowBounds(|items|, size, step, i - 1);
      WindowsShare(items, size, step, i);
    }
  }

  lemma WindowsShare<T>(items: seq<T>, size: int, step: int, i: nat)
    requires 0 < step <= size && 0 < i < Count(|items|, size, step)
    ensures var v, w := Window(items, size, step, i - 1), Window(items, size, step, i);
            && |v| == size && |w| > size - step
            && v[step..] == w[..size - step]
  {
    WindowBounds(|items|, size, step, i);
    WindowBounds(|items|, size, step, i - 1);
    var f := From(step, i);
    Slices(items, f - step, f + size - step, step);
    Slices(items, f, To(|items|, size, step, i), size - step);
  }

  lemma Slices<T>(s: seq<T>, a: nat, b: nat, k: nat)
    requires a + k <= b <= |s|
    ensures s[a..b][k..] == s[a + k..b]
    ensures s[a..b][..k] == s[a..a + k]
  {
  }

  lemma SliceOfSlice<T>(s: seq<T>, a: nat, b: nat, j: nat, k: nat)
    requires j <= k && a + k <= b <= |s|
    ensures s[a..b][j..k] == s[a + j..a + k]
  {
    var left, right := s[a..b][j..k], s[a + j..a + k];
    forall i | 0 <= i < k - j ensures left[i] == right[i] {
      assert left[i] == s[a..b][j + i];
    }
  }

  /** Undo the overlap: the first window, then of every later one the items after
      its first `overlap`. */
  function Reassemble<T>(windows: seq<seq<T>>, overlap: nat): seq<T> {
    if windows == [] then []
    else if |windows| == 1 then windows[0]
    else
      var last := windows[|windows| - 1];
      Reassemble(windows[..|windows| - 1], overlap) + last[Min(overlap, |last|)..]
  }

  lemma ReassembleMore<T>(windows: seq<seq<T>>, k: nat, overlap: nat)
    requires 0 < k <= |windows| && (k > 1 ==> overlap <= |windows[k - 1]|)
    ensures Reassemble(windows[..k], overlap)
            == if k == 1 then windows[0] else Reassemble(windows[..k - 1], overlap) + windows[k - 1][overlap..]
  {
    assert windows[..k][..k - 1] == windows[..k - 1];
  }

  lemma Rejoin<T>(s: seq<T>, a: nat, b: nat)
    requires a <= b <= |s|
    ensures s[..a] + s[a..b] == s[..b]
  {
  }

  lemma {:induction false} ReassemblePrefix<T>(items: seq<T>, size: int, step: int, k: nat)
    requires 0 < step <= size && 0 < k <= Count(|items|, size, step)
    ensures 0 <= To(|items|, size, step, k - 1) <= |items|
    ensures Reassemble(AllWindows(items, size, step)[..k], size - step) == items[..To(|items|, size, step, k - 1)]
  {
    hide AllWindows, Count, To, Reassemble;
    var all, f, t := AllWindows(items, size, step), From(step, k - 1), To(|items|, size, step, k - 1);
    WindowBounds(|items|, size, step, k - 1);
    assert all[k - 1] == items[f..t];
    ReassembleMore(all, k, size - step);
    if k > 1 {
      ReassemblePrefix(items, size, step, k - 1);
      Slices(items, f, t, size - step);
      Rejoin(items, f + size - step, t);
    }
  }

  /** The windows together give back the whole sequence, in order. */
  lemma ReassembleAll<T>(items: seq<T>, size: int, step: int)
    requires 0 < step <= size
    ensures Reassemble(AllWindows(items, size, step), size - step) == items
  {
    var all := AllWindows(items, size, step);
    if all != [] {
      ReassemblePrefix(items, size, step, |all|);
      WindowBounds(|items|, size, step, |all| - 1);
      assert all[..|all|] == all;
    }
  }

  function TotalLength<T>(windows: seq<seq<T>>): nat {
    if windows == [] then 0
    else TotalLength(windows[..|windows| - 1]) + |windows[|windows| - 1]|
  }

  lemma TotalMore<T>(windows: seq<seq<T>>, k: nat)
    requires 0 < k <= |windows|
    ensures TotalLength(windows[..k]) == TotalLength(windows[..k - 1]) + |windows[k - 1]|
  {
    assert windows[..k][..k - 1] == windows[..k - 1];
  }

  lemma {:induction false} TotalLengthPrefix<T>(items: seq<T>, size: int, step: int, k: nat)
    requires 0 < step <= size && 0 < k <= Count(|items|, size, step)
    ensures TotalLength(AllWindows(items, size, step)[..k])
            == To(|items|, size, step, k - 1) + (size - step) * (k - 1)
  {
    hide AllWindows, Count, To;
    var all := AllWindows(items, size, step);
    TotalMore(all, k);
    WindowBounds(|items|, size, step, k - 1);
    assert |all[k - 1]| == To(|items|, size, step, k - 1) - From(step, k - 1);
    if k > 1 {
      TotalLengthPrefix(items, size, step, k - 1);
      assert (size - step) * (k - 1) == (size - step) * (k - 2) + (size - step);
    }
  }

  /** The window lengths add up to the items plus one overlap for every boundary. */
  lemma TotalLengthAll<T>(items: seq<T>, size: int, step: int, overlap: int)
    requires 0 < step <= size && overlap == size - step
    ensures var all := AllWindows(items, size, step);
            TotalLength(all) == |items| + (if all == [] then 0 else overlap * (|all| - 1))
  {
    var all := AllWindows(items, size, step);
    if all != [] {
      TotalLengthPrefix(items, size, step, |all|);
      WindowBounds(|items|, size, step, |all| - 1);
      assert all[..|all|] == all;
    }
  }

  // ---------------------------------------------------------------- containment

  /** The stretch of `len` items at `a` lies wholly inside window `i`. */
  ghost predicate Holds(n: nat, size: int, step: int, i: nat, a: nat, len: nat) {
    From(step, i) <= a && a + len <= To(n, size, step, i)
  }

  /** Some window holds the whole stretch. */
  ghost predicate Covered(n: nat, size: int, step: int, a: nat, len: nat)
    requires 0 < step <= size
  {
    exists i: nat :: i < Count(n, size, step) && Holds(n, size, step, i, a, len)
  }

  /** The last window that starts at or before item `a`. */
  function WindowAt(n: nat, size: int, step: int, a: nat): (i: nat)
    requires 0 < step <= size && a < n
    ensures i < Count(n, size, step)
  {
    if n <= size || a < step then 0 else 1 + WindowAt(n - step, size, step, a - step)
  }

  lemma {:induction false} ShortStretchHeld(n: nat, size: int, step: int, a: nat, len: nat)
    requires 0 < step <= size && a < n && a + len <= n
    requires len <= size - step + 1
    ensures Holds(n, size, step, WindowAt(n, size, step, a), a, len)
    decreases n
  {
    if n > size && a >= step {
      ShortStretchHeld(n - step, size, step, a - step, len);
    }
  }

  lemma LongStretchMissed(n: nat, size: int, step: int, i: nat, len: nat)
    requires 0 < step <= size < n && i < Count(n, size, step)
    requires size - step + 2 <= len <= n
    ensures !Holds(n, size, step, i, Min(step - 1, n - len), len)
  {
    WindowBounds(n, size, step, i);
  }

  /** Every stretch of `len` items is covered, wherever it starts, exactly when it
      has at most `overlap + 1` items, or one window is enough for everything, or
      there is no stretch that long. */
  lemma Containment(n: nat, size: int, step: int, len: nat)
    requires 0 < step <= size
    ensures (forall a: nat :: a < n && a + len <= n ==> Covered(n, size, step, a, len))
            <==> len <= size - step + 1 || n <= size || len > n
  {
    if len <= size - step + 1 || n <= size || len > n {
      forall a: nat | a < n && a + len <= n
        ensures Covered(n, size, step, a, len)
      {
        if n <= size {
          assert Holds(n, size, step, 0, a, len);
        } else {
          ShortStretchHeld(n, size, step, a, len);
        }
      }
    } else {
      var a := Min(step - 1, n - len);
      forall i: nat | i < Count(n, size, step) ensures !Holds(n, size, step, i, a, len) {
        LongStretchMissed(n, size, step, i, len);
      }
      assert !Covered(n, size, step, a, len);
    }
  }
}
