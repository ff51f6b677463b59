/** The routing rule shared by training and serving: a case whose receipts
    exceed the outlier threshold belongs to the outlier group, every other
    case to the main group. Also the two ways the scripts cut a list into
    groups: filtering by a predicate (`df[cond]`, list appends in a loop) and
    boolean-mask indexing of an already computed frame (`frame[mask]`). */
module Partition {
  import opened Common

  datatype Group = MainGroup | OutlierGroup

  /** The primary routing rule, `receipts > OUTLIER_THRESHOLD`. */
  function PrimaryGroup(c: Case): (g: Group)
    ensures g == OutlierGroup <==> c.receipts > OUTLIER_THRESHOLD
    ensures g == MainGroup <==> c.receipts <= OUTLIER_THRESHOLD
  {
    if c.receipts > OUTLIER_THRESHOLD then OutlierGroup else MainGroup
  }

  /** The elements satisfying p, in their original order, each as often as
      the list holds it (`df[cond]` keeps duplicate rows). */
  function Filter<T>(xs: seq<T>, p: T -> bool): (r: seq<T>)
    ensures |r| <= |xs|
    ensures forall i :: 0 <= i < |r| ==> p(r[i]) && r[i] in xs
    ensures forall i :: 0 <= i < |xs| && p(xs[i]) ==> xs[i] in r
    decreases |xs|
  {
    if |xs| == 0 then []
    else
      var init := xs[..|xs| - 1];
      var last := xs[|xs| - 1];
      assert forall i :: 0 <= i < |init| ==> init[i] == xs[i];
      assert xs == init + [last];
      Filter(init, p) + (if p(last) then [last] else [])
  }

  /** A filter holds every passing value exactly as often as the list does
      and no other value at all. */
  lemma {:induction false} FilterMultiplicity<T>(xs: seq<T>, p: T -> bool, x: T)
    ensures multiset(Filter(xs, p))[x] == (if p(x) then multiset(xs)[x] else 0)
    decreases |xs|
  {
    if |xs| > 0 {
      var init, last := xs[..|xs| - 1], xs[|xs| - 1];
      assert xs == init + [last];
      FilterMultiplicity(init, p, x);
    }
  }

  /** Filtering a prefix of the list yields a prefix of the filtered list:
      the passing elements keep their relative order. */
  lemma {:induction false} FilterPrefix<T>(xs: seq<T>, p: T -> bool, n: int)
    requires 0 <= n <= |xs|
    ensures Filter(xs[..n], p) <= Filter(xs, p)
    decreases |xs|
  {
    if n < |xs| {
      var init := xs[..|xs| - 1];
      FilterPrefix(init, p, n);
      assert init[..n] == xs[..n];
    } else {
      assert xs[..n] == xs;
    }
  }

  /** Filtering by a predicate and by its negation splits a list: the two
      parts together hold every element exactly as often as the list does. */
  lemma FilterSplit<T>(xs: seq<T>, p: T -> bool, q: T -> bool)
    requires forall x :: q(x) <==> !p(x)
    ensures multiset(Filter(xs, p)) + multiset(Filter(xs, q)) == multiset(xs)
  {
    var both := multiset(Filter(xs, p)) + multiset(Filter(xs, q));
    forall x
      ensures both[x] == multiset(xs)[x]
    {
      FilterMultiplicity(xs, p, x);
      FilterMultiplicity(xs, q, x);
    }
  }

  predicate InMainGroup(x: Labeled)
  {
    PrimaryGroup(x.input) == MainGroup
  }

  predicate InOutlierGroup(x: Labeled)
  {
    PrimaryGroup(x.input) == OutlierGroup
  }

  /** `df[df['total_receipts_amount'] <= OUTLIER_THRESHOLD]` */
  function MainCases(data: seq<Labeled>): seq<Labeled>
  {
    Filter(data, InMainGroup)
  }

  /** `df[df['total_receipts_amount'] > OUTLIER_THRESHOLD]` */
  function OutlierCases(data: seq<Labeled>): seq<Labeled>
  {
    Filter(data, InOutlierGroup)
  }

  /** The label column of a training subset. */
  function Targets(data: seq<Labeled>): (y: seq<real>)
    ensures |y| == |data|
    ensures forall i :: 0 <= i < |data| ==> y[i] == data[i].expected
  {
    seq(|data|, i requires 0 <= i < |data| => data[i].expected)
  }

  /** The main and outlier training sets partition the corpus, and each
      training case sits in the set whose model the router picks for it. */
  lemma PrimarySplitIsPartition(data: seq<Labeled>)
    ensures multiset(MainCases(data)) + multiset(OutlierCases(data)) == multiset(data)
    ensures forall x :: x in MainCases(data) ==> x in data && x.input.receipts <= OUTLIER_THRESHOLD
    ensures forall x :: x in OutlierCases(data) ==> x in data && x.input.receipts > OUTLIER_THRESHOLD
    ensures forall x :: x in data ==> (x in OutlierCases(data) <==> PrimaryGroup(x.input) == OutlierGroup)
    ensures forall x :: x in data ==> (x in MainCases(data) <==> PrimaryGroup(x.input) == MainGroup)
  {
    FilterSplit(data, InMainGroup, InOutlierGroup);
    forall x | x in MainCases(data)
      ensures x in data && x.input.receipts <= OUTLIER_THRESHOLD
    {
      var i :| 0 <= i < |MainCases(data)| && MainCases(data)[i] == x;
    }
    forall x | x in OutlierCases(data)
      ensures x in data && x.input.receipts > OUTLIER_THRESHOLD
    {
      var i :| 0 <= i < |OutlierCases(data)| && OutlierCases(data)[i] == x;
    }
    forall x | x in data
      ensures x in OutlierCases(data) <==> PrimaryGroup(x.input) == OutlierGroup
      ensures x in MainCases(data) <==> PrimaryGroup(x.input) == MainGroup
    {
      var i :| 0 <= i < |data| && data[i] == x;
    }
  }

  /** Number of mask entries equal to flag. */
  function Count(mask: seq<bool>, flag: bool): (n: nat)
    ensures n <= |mask|
    decreases |mask|
  {
    if |mask| == 0 then 0
    else Count(mask[..|mask| - 1], flag) + (if mask[|mask| - 1] == flag then 1 else 0)
  }

  /** A prefix never holds more matching entries than the whole mask. */
  lemma {:induction false} CountPrefix(mask: seq<bool>, n: int, flag: bool)
    requires 0 <= n <= |mask|
    ensures Count(mask[..n], flag) <= Count(mask, flag)
    decreases |mask|
  {
    if n < |mask| {
      var init := mask[..|mask| - 1];
      CountPrefix(init, n, flag);
      assert init[..n] == mask[..n];
    } else {
      assert mask[..n] == mask;
    }
  }

  /** Number of entries equal to flag before position j. */
  function Rank(mask: seq<bool>, j: int, flag: bool): nat
    requires 0 <= j <= |mask|
  {
    Count(mask[..j], flag)
  }

  lemma RankStep(mask: seq<bool>, i: int, flag: bool)
    requires 0 <= i < |mask|
    ensures Rank(mask, i + 1, flag) == Rank(mask, i, flag) + (if mask[i] == flag then 1 else 0)
    ensures Rank(mask, i + 1, flag) <= Count(mask, flag)
  {
    assert mask[..i + 1][..i] == mask[..i];
    CountPrefix(mask, i + 1, flag);
  }

  /** Boolean-mask row selection, `rows[mask == flag]`, keeping order. */
  function Pick<T>(xs: seq<T>, mask: seq<bool>, flag: bool): (r: seq<T>)
    requires |xs| == |mask|
    ensures |r| == Count(mask, flag)
    decreases |xs|
  {
    if |xs| == 0 then []
    else
      Pick(xs[..|xs| - 1], mask[..|mask| - 1], flag)
        + (if mask[|mask| - 1] == flag then [xs[|xs| - 1]] else [])
  }

  /** Row j of a selected group sits at position Count(mask[..j], flag) of the
      selection, which is what the mask assignment back into the full result
      relies on. */
  lemma {:induction false} PickAt<T>(xs: seq<T>, mask: seq<bool>, flag: bool, j: int)
    requires |xs| == |mask|
    requires 0 <= j < |xs| && mask[j] == flag
    ensures Rank(mask, j, flag) < |Pick(xs, mask, flag)|
    ensures Pick(xs, mask, flag)[Rank(mask, j, flag)] == xs[j]
    decreases |xs|
  {
    var n := |xs|;
    var init := xs[..n - 1];
    var minit := mask[..n - 1];
    if j == n - 1 {
      assert minit == mask[..j];
      assert |Pick(init, minit, flag)| == Count(minit, flag);
    } else {
      PickAt(init, minit, flag, j);
      assert minit[..j] == mask[..j];
    }
  }
}
