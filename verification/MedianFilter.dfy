/** The sliding median filter of sw/airborne/filters/median_filter.h. */
module MedianFilter {
  // ---------- Insertion sort, as a function ----------

  /** `x` put behind the elements of sorted `s` that are not greater. */
  function Insert(s: seq<int>, x: int): (r: seq<int>)
    ensures |r| == |s| + 1
  {
    if |s| > 0 && x < s[|s| - 1] then Insert(s[..|s| - 1], x) + [s[|s| - 1]] else s + [x]
  }

  function Sort(s: seq<int>): (r: seq<int>)
    ensures |r| == |s|
  {
    if |s| == 0 then [] else Insert(Sort(s[..|s| - 1]), s[|s| - 1])
  }

  predicate Sorted(s: seq<int>) {
    forall j, k :: 0 <= j < k < |s| ==> s[j] <= s[k]
  }

  predicate Bounded(s: seq<int>, m: int) {
    forall k :: 0 <= k < |s| ==> s[k] <= m
  }

  lemma {:induction false} InsertIsBounded(s: seq<int>, x: int, m: int)
    requires Bounded(s, m) && x <= m
    ensures Bounded(Insert(s, x), m)
  {
    if |s| > 0 && x < s[|s| - 1] {
      InsertIsBounded(s[..|s| - 1], x, m);
    }
  }

  lemma {:induction false} InsertIsSorted(s: seq<int>, x: int)
    requires Sorted(s)
    ensures Sorted(Insert(s, x))
  {
    if |s| > 0 && x < s[|s| - 1] {
      InsertIsSorted(s[..|s| - 1], x);
      InsertIsBounded(s[..|s| - 1], x, s[|s| - 1]);
    }
  }

  lemma {:induction false} InsertAdds(s: seq<int>, x: int)
    ensures multiset(Insert(s, x)) == multiset(s) + multiset{x}
  {
    if |s| > 0 && x < s[|s| - 1] {
      InsertAdds(s[..|s| - 1], x);
      assert s == s[..|s| - 1] + [s[|s| - 1]];
    }
  }

  lemma {:induction false} SortIsSortedPermutation(s: seq<int>)
    ensures Sorted(Sort(s)) && multiset(Sort(s)) == multiset(s)
  {
    hide Sorted, Insert, Sort;
    if |s| > 0 {
      SortIsSortedPermutation(s[..|s| - 1]);
      SortStep(s);
    } else {
      SortOfNone();
    }
  }

  lemma SortOfNone()
    ensures Sort([]) == [] && Sorted([])
  {
  }

  lemma SortStep(s: seq<int>)
    requires |s| > 0
    requires var t := s[..|s| - 1]; Sorted(Sort(t)) && multiset(Sort(t)) == multiset(t)
    ensures Sorted(Sort(s)) && multiset(Sort(s)) == multiset(s)
  {
    hide Sorted, Insert;
    var n := |s| - 1;
    InsertIsSorted(Sort(s[..n]), s[n]);
    InsertAdds(Sort(s[..n]), s[n]);
    assert s == s[..n] + [s[n]];
  }

  // ---------- The median ----------

  function Median(w: seq<int>): int
    requires |w| > 0
  {
    Sort(w)[|w| / 2]
  }

  /** How many elements are not greater than `m`. */
  function AtMost(s: seq<int>, m: int): (n: nat)
    ensures n <= |s|
  {
    if |s| == 0 then 0 else AtMost(s[..|s| - 1], m) + if s[|s| - 1] <= m then 1 else 0
  }

  /** How many elements lie in `lo..hi`. */
  function Within(s: seq<int>, lo: int, hi: int): nat {
    if |s| == 0 then 0 else
      Within(s[..|s| - 1], lo, hi) + if lo <= s[|s| - 1] <= hi then 1 else 0
  }

  lemma {:induction false} WithinByAtMost(s: seq<int>, lo: int, hi: int)
    ensures Within(s, lo, hi) <= AtMost(s, hi)
    ensures Within(s, lo, hi) + AtMost(s, lo - 1) <= |s|
  {
    if |s| > 0 {
      WithinByAtMost(s[..|s| - 1], lo, hi);
    }
  }

  lemma {:induction false} AtMostInsert(s: seq<int>, x: int, m: int)
    ensures AtMost(Insert(s, x), m) == AtMost(s, m) + if x <= m then 1 else 0
  {
    if |s| > 0 && x < s[|s| - 1] {
      var before, last := s[..|s| - 1], s[|s| - 1];
      AtMostInsert(before, x, m);
      assert (Insert(before, x) + [last])[..|s|] == Insert(before, x);
    } else {
      assert (s + [x])[..|s|] == s;
    }
  }

  lemma {:induction false} AtMostSort(s: seq<int>, m: int)
    ensures AtMost(Sort(s), m) == AtMost(s, m)
  {
    if |s| > 0 {
      AtMostSort(s[..|s| - 1], m);
      AtMostInsert(Sort(s[..|s| - 1]), s[|s| - 1], m);
    }
  }

  /** In a sorted sequence the elements not greater than `m` come first. */
  lemma {:induction false} AtMostSorted(s: seq<int>, m: int, k: nat)
    requires Sorted(s) && k < |s|
    ensures s[k] <= m <==> AtMost(s, m) > k
  {
    var n := |s| - 1;
    if k < n {
      AtMostSorted(s[..n], m, k);
    } else if n > 0 && s[k] <= m {
      AtMostSorted(s[..n], m, n - 1);
    }
  }

  /** The median is the value that at least half of the samples do not exceed, and no
      smaller one: for every `m`. */
  lemma MedianAtMostIff(w: seq<int>, m: int)
    requires |w| > 0
    ensures Median(w) <= m <==> AtMost(w, m) > |w| / 2
  {
    SortIsSortedPermutation(w);
    AtMostSorted(Sort(w), m, |w| / 2);
    AtMostSort(w, m);
  }

  /** If more than half of the samples lie in an interval, so does the median. */
  lemma MajorityDecides(w: seq<int>, lo: int, hi: int)
    requires |w| > 0 && Within(w, lo, hi) > |w| / 2
    ensures lo <= Median(w) <= hi
  {
    hide Median, Within, AtMost;
    WithinByAtMost(w, lo, hi);
    MedianAtMostIff(w, hi);
    MedianAtMostIff(w, lo - 1);
  }

  /** The median depends on which samples there are, not on their order. */
  lemma MedianOfPermutation(w: seq<int>, w': seq<int>)
    requires |w| > 0 && multiset(w) == multiset(w')
    ensures |w'| == |w| && Median(w) == Median(w')
  {
    assert |multiset(w)| == |w| && |multiset(w')| == |w'|;
    var m, m' := Median(w), Median(w');
    AtMostOfPermutation(w, w', m);
    AtMostOfPermutation(w, w', m');
    hide Median, AtMost;
    MedianAtMostIff(w, m);
    MedianAtMostIff(w', m);
    MedianAtMostIff(w, m');
    MedianAtMostIff(w', m');
  }

  /** Where the last element of `w` is in its permutation `w'`, and what is left without it. */
  lemma LastElsewhere(w: seq<int>, w': seq<int>) returns (k: nat)
    requires |w| > 0 && multiset(w) == multiset(w')
    ensures k < |w'| && w'[k] == w[|w| - 1]
    ensures multiset(w[..|w| - 1]) == multiset(w'[..k] + w'[k + 1..])
  {
    var x := w[|w| - 1];
    var before := w[..|w| - 1];
    assert w == before + [x];
    assert x in multiset(w');
    k :| 0 <= k < |w'| && w'[k] == x;
    assert w' == w'[..k] + [x] + w'[k + 1..];
    assert multiset(before) == multiset(w) - multiset{x};
    assert multiset(w'[..k] + w'[k + 1..]) == multiset(w') - multiset{x};
  }

  lemma {:induction false} AtMostOfPermutation(w: seq<int>, w': seq<int>, m: int)
    requires multiset(w) == multiset(w')
    ensures AtMost(w, m) == AtMost(w', m)
  {
    if |w| == 0 {
      assert |multiset(w')| == |w'|;
    } else {
      var k := LastElsewhere(w, w');
      AtMostOfPermutation(w[..|w| - 1], w'[..k] + w'[k + 1..], m);
      AtMostWithout(w', k, m);
    }
  }

  lemma {:induction false} AtMostWithout(s: seq<int>, k: nat, m: int)
    requires k < |s|
    ensures AtMost(s, m) == AtMost(s[..k] + s[k + 1..], m) + if s[k] <= m then 1 else 0
  {
    var n := |s| - 1;
    var rest := s[..k] + s[k + 1..];
    if k == n {
      assert rest == s[..n];
    } else {
      AtMostWithout(s[..n], k, m);
      assert rest[..n - 1] == s[..n][..k] + s[..n][k + 1..];
    }
  }

  // ---------- The window ----------

  function Zeros(size: nat): seq<int> {
    seq(size, _ => 0)
  }

  /** The last `size` inputs, zeros standing for those before the start. */
  function Window(size: nat, inputs: seq<int>): (w: seq<int>)
    ensures |w| == size
  {
    (Zeros(size) + inputs)[|inputs|..]
  }

  lemma WindowSlides(size: nat, inputs: seq<int>, x: int)
    requires size > 0
    ensures Window(size, inputs + [x]) == Window(size, inputs)[1..] + [x]
    ensures Window(size, []) == Zeros(size)
  {
  }

  lemma {:induction false} SortOfZeros(size: nat)
    ensures Sort(Zeros(size)) == Zeros(size)
  {
    if size > 0 {
      assert Zeros(size)[..size - 1] == Zeros(size - 1);
      SortOfZeros(size - 1);
    }
  }

  // ---------- The filter, updated in place ----------

  class Filter {
    const data: array<int>
    const sortData: array<int>
    var dataIndex: nat // int8_t, so a window has at most 128 samples

    /** The filter has been given `inputs` since it was initialised. */
    ghost predicate Holds(inputs: seq<int>)
      reads this, data, sortData
    {
      && data != sortData && sortData.Length == data.Length && dataIndex < data.Length
      && data[dataIndex..] + data[..dataIndex] == Window(data.Length, inputs)
      && sortData[..] == Sort(data[..])
    }

    constructor (size: nat)
      requires 1 <= size <= 128
      ensures Holds([]) && data.Length == size && fresh(data) && fresh(sortData)
    {
      data := new int[size](_ => 0);
      sortData := new int[size](_ => 0);
      dataIndex := 0;
      new;
      assert data[..] == Zeros(size) && sortData[..] == Zeros(size);
      assert data[0..] + data[..0] == Zeros(size);
      WindowSlides(size, [], 0);
      SortOfZeros(size);
    }

    method Get() returns (m: int)
      requires exists inputs :: Holds(inputs)
      ensures forall inputs :: Holds(inputs) ==> m == Median(Window(data.Length, inputs))
    {
      m := sortData[data.Length / 2];
      forall inputs | Holds(inputs)
        ensures m == Median(Window(data.Length, inputs))
      {
        RotationMedian(data[..], dataIndex);
      }
    }

    method Push(newData: int, ghost w: seq<int>)
      requires data != sortData && dataIndex < data.Length
      requires data[dataIndex..] + data[..dataIndex] == w
      modifies this`dataIndex, data
      ensures dataIndex < data.Length
      ensures data[dataIndex..] + data[..dataIndex] == w[1..] + [newData]
    {
      ghost var before, at := data[..], dataIndex;
      data[dataIndex] := newData;
      if dataIndex < data.Length - 1 {
        dataIndex := dataIndex + 1;
      } else {
        dataIndex := 0;
      }
      assert data[..] == before[at := newData];
      Slide(before, at, newData, dataIndex, w);
    }

    method Update(newData: int, ghost inputs: seq<int>) returns (m: int)
      requires Holds(inputs)
      modifies this`dataIndex, data, sortData
      ensures Holds(inputs + [newData])
      ensures m == Median(Window(data.Length, inputs + [newData]))
    {
      hide Window, Sort, Median;
      Push(newData, Window(data.Length, inputs));
      WindowSlides(data.Length, inputs, newData);
      forall k | 0 <= k < data.Length {
        sortData[k] := data[k];
      }
      assert sortData[..] == data[..];
      InsertionSort(sortData);
      RotationMedian(data[..], dataIndex);
      m := sortData[data.Length / 2];
    }
  }

  /** Overwriting the oldest sample of the circular buffer slides its contents. */
  lemma Slide(buf: seq<int>, at: nat, x: int, next: nat, w: seq<int>)
    requires at < |buf| && buf[at..] + buf[..at] == w
    requires next == if at < |buf| - 1 then at + 1 else 0
    ensures buf[at := x][next..] + buf[at := x][..next] == w[1..] + [x]
  {
  }

  lemma RotationMedian(buf: seq<int>, at: nat)
    requires at < |buf|
    ensures Median(buf[at..] + buf[..at]) == Sort(buf)[|buf| / 2]
  {
    assert buf == buf[..at] + buf[at..];
    MedianOfPermutation(buf, buf[at..] + buf[..at]);
  }

  method InsertionSort(a: array<int>)
    modifies a
    ensures a[..] == Sort(old(a[..]))
  {
    ghost var orig := a[..];
    var i := 1;
    if a.Length == 0 {
      return;
    }
    SortOfOne(orig[0]);
    assert a[..1] == [orig[0]] == orig[..1];
    while i < a.Length
      invariant 1 <= i <= a.Length
      invariant a[..i] == Sort(orig[..i]) && a[i..] == orig[i..]
    {
      InsertNext(a, i);
      assert orig[..i + 1][..i] == orig[..i];
      i := i + 1;
    }
    assert a[..] == a[..i] && orig == orig[..i];
  }

  lemma SortOfOne(x: int)
    ensures Sort([x]) == [x]
  {
    assert [x][..0] == [];
  }

  /** Elements `j + 1` to `i - 1` of `all` have moved up one place, over element `i`. */
  ghost predicate Moved(b: seq<int>, all: seq<int>, i: nat, j: int) {
    && -1 <= j < i < |b| == |all|
    && (forall k {:trigger b[k]} | 0 <= k < |b| && k != j + 1 :: b[k] == if j < k <= i then all[k - 1] else all[k])
  }

  /** They are larger than it, so it goes below them. */
  ghost predicate GoesBelow(all: seq<int>, i: nat, j: int) {
    && -1 <= j < i < |all|
    && Insert(all[..i], all[i]) == Insert(all[..j + 1], all[i]) + all[j + 1..i]
  }

  lemma NothingMoved(all: seq<int>, i: nat)
    requires i < |all|
    ensures Moved(all, all, i, i - 1) && GoesBelow(all, i, i - 1)
  {
    hide Insert;
  }

  lemma MoveOne(b: seq<int>, all: seq<int>, i: nat, j: int)
    requires Moved(b, all, i, j) && j >= 0
    ensures b[j] == all[j]
    ensures Moved(b[j + 1 := b[j]], all, i, j - 1)
  {
  }

  lemma BelowOne(all: seq<int>, i: nat, j: int)
    requires GoesBelow(all, i, j) && j >= 0 && all[i] < all[j]
    ensures GoesBelow(all, i, j - 1)
  {
    InsertStep(all[..i], j, all[i]);
    assert all[..i][..j + 1] == all[..j + 1] && all[..i][..j] == all[..j];
  }

  lemma Place(b: seq<int>, all: seq<int>, i: nat, j: int)
    requires Moved(b, all, i, j) && GoesBelow(all, i, j) && (j >= 0 ==> all[j] <= all[i])
    ensures var b' := b[j + 1 := all[i]];
      b'[..i + 1] == Insert(all[..i], all[i]) && b'[i + 1..] == all[i + 1..]
  {
    InsertStop(all[..j + 1], all[i]);
    hide Insert;
    assert b[j + 1 := all[i]][..i + 1] == all[..j + 1] + [all[i]] + all[j + 1..i];
  }

  /** The body of the outer loop: element `i` moves down to its place among those before it. */
  method InsertNext(a: array<int>, i: nat)
    requires i < a.Length
    modifies a
    ensures a[..i + 1] == Insert(old(a[..i]), old(a[i]))
    ensures a[i + 1..] == old(a[i + 1..])
  {
    var temp := a[i];
    ghost var all, b := a[..], a[..];
    var j := i - 1;
    NothingMoved(all, i);
    assert all[..i] == a[..i] && all[i + 1..] == a[i + 1..];
    hide Insert, Moved, GoesBelow;
    while j >= 0 && temp < a[j]
      invariant -1 <= j < i && a[..] == b
      invariant Moved(b, all, i, j) && GoesBelow(all, i, j)
    {
      MoveOne(b, all, i, j);
      BelowOne(all, i, j);
      a[j + 1] := a[j];
      b := b[j + 1 := b[j]];
      j := j - 1;
    }
    if j >= 0 {
      MoveOne(b, all, i, j);
    }
    Place(b, all, i, j);
    a[j + 1] := temp;
    b := b[j + 1 := temp];
    assert a[..] == b;
  }

  lemma InsertStep(s: seq<int>, j: nat, x: int)
    requires j < |s| && x < s[j]
    ensures Insert(s[..j + 1], x) + s[j + 1..] == Insert(s[..j], x) + s[j..]
  {
    assert s[..j + 1][..j] == s[..j];
    assert s[j..] == [s[j]] + s[j + 1..];
  }

  lemma InsertStop(s: seq<int>, x: int)
    requires |s| == 0 || s[|s| - 1] <= x
    ensures Insert(s, x) == s + [x]
  {
  }
}
