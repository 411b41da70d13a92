/**
 * The member dashboard's home screen (pages/dashboard/DashboardHomeView.tsx):
 * the livestock total and distribution chart, the announcement card and the
 * colour and sign of the KPI change figures. Number formatting is passed in
 * as already-formatted text.
 */
module DashboardHome {
  import opened Records

  /** `livestock.reduce((sum, item) => sum + item.headcount, 0)`: a fold from the left. */
  function TotalLivestock(flocks: seq<LivestockFlock>): int
    decreases |flocks|
  {
    if flocks == [] then 0 else TotalLivestock(flocks[..|flocks| - 1]) + flocks[|flocks| - 1].headcount
  }

  function Sum(xs: seq<int>): int
    decreases |xs|
  {
    if xs == [] then 0 else xs[0] + Sum(xs[1..])
  }

  /** `livestock.map(f => f.headcount)`. */
  function Headcounts(flocks: seq<LivestockFlock>): (hs: seq<int>)
    ensures |hs| == |flocks|
    ensures forall i :: 0 <= i < |flocks| ==> hs[i] == flocks[i].headcount
  {
    seq(|flocks|, i requires 0 <= i < |flocks| => flocks[i].headcount)
  }

  lemma {:induction false} SumSnoc(xs: seq<int>, x: int)
    ensures Sum(xs + [x]) == Sum(xs) + x
    decreases |xs|
  {
    if xs == [] {
      assert xs + [x] == [x];
    } else {
      assert (xs + [x])[1..] == xs[1..] + [x];
      SumSnoc(xs[1..], x);
    }
  }

  /** The total on the KPI card equals the sum of the slices of the distribution chart. */
  lemma {:induction false} TotalIsSumOfHeadcounts(flocks: seq<LivestockFlock>)
    ensures TotalLivestock(flocks) == Sum(Headcounts(flocks))
    decreases |flocks|
  {
    if flocks != [] {
      var init := flocks[..|flocks| - 1];
      TotalIsSumOfHeadcounts(init);
      assert Headcounts(flocks) == Headcounts(init) + [flocks[|flocks| - 1].headcount];
      SumSnoc(Headcounts(init), flocks[|flocks| - 1].headcount);
    }
  }

  /** Splitting the flock list splits the total. */
  lemma {:induction false} TotalAppend(a: seq<LivestockFlock>, b: seq<LivestockFlock>)
    ensures TotalLivestock(a + b) == TotalLivestock(a) + TotalLivestock(b)
    decreases |b|
  {
    if b == [] {
      assert a + b == a;
    } else {
      var b0 := b[..|b| - 1];
      assert (a + b)[..|a + b| - 1] == a + b0;
      TotalAppend(a, b0);
    }
  }

  /** With no negative headcount the total is at least every single flock's headcount. */
  lemma {:induction false} TotalBoundsEachFlock(flocks: seq<LivestockFlock>, k: nat)
    requires forall f :: f in flocks ==> f.headcount >= 0
    requires k < |flocks|
    ensures TotalLivestock(flocks) >= flocks[k].headcount
    decreases |flocks|
  {
    TotalNonNegative(flocks[..|flocks| - 1]);
    if k < |flocks| - 1 {
      TotalBoundsEachFlock(flocks[..|flocks| - 1], k);
    }
  }

  lemma {:induction false} TotalNonNegative(flocks: seq<LivestockFlock>)
    requires forall f :: f in flocks ==> f.headcount >= 0
    ensures TotalLivestock(flocks) >= 0
    decreases |flocks|
  {
    if flocks != [] {
      TotalNonNegative(flocks[..|flocks| - 1]);
    }
  }

  /** The doughnut chart's labels and values, one pair per flock in list order. */
  datatype Distribution = Distribution(labels: seq<string>, data: seq<int>)

  function LivestockDistribution(flocks: seq<LivestockFlock>): (d: Distribution)
    ensures |d.labels| == |flocks| && |d.data| == |flocks|
    ensures forall i :: 0 <= i < |flocks| ==> d.labels[i] == flocks[i].flockType && d.data[i] == flocks[i].headcount
    ensures Sum(d.data) == TotalLivestock(flocks)
  {
    TotalIsSumOfHeadcounts(flocks);
    Distribution(seq(|flocks|, i requires 0 <= i < |flocks| => flocks[i].flockType), Headcounts(flocks))
  }

  /** The announcement card: a placeholder when there are none, else the first three. */
  datatype AnnouncementsCard = NoAnnouncements | Latest(items: seq<Announcement>)

  function ShowAnnouncements(anns: seq<Announcement>): (c: AnnouncementsCard)
    ensures c.NoAnnouncements? <==> anns == []
    ensures c.Latest? ==> |c.items| == (if |anns| < 3 then |anns| else 3) && c.items == anns[..|c.items|]
  {
    if |anns| > 0 then Latest(anns[..if |anns| < 3 then |anns| else 3]) else NoAnnouncements
  }

  datatype ChangeType = Positive | Negative

  /** Egg production: a rise is good news; zero or a fall shows as bad. */
  function EggChangeType(change: real): (t: ChangeType)
    ensures t == Positive <==> change > 0.0
  {
    if change > 0.0 then Positive else Negative
  }

  /** Feed conversion and mortality: a rise is bad news; zero or a fall shows as good. */
  function CostChangeType(change: real): (t: ChangeType)
    ensures t == Negative <==> change > 0.0
  {
    if change > 0.0 then Negative else Positive
  }

  /** The same change is coloured oppositely on the egg card and on the cost cards, zero included. */
  lemma ChangeTypesAreOpposite(change: real)
    ensures EggChangeType(change) != CostChangeType(change)
  {
  }

  /** The change figure: a leading `+` for a rise, the formatted number as it is otherwise. */
  function ChangeText(change: real, formatted: string): (r: string)
    ensures change > 0.0 ==> r == "+" + formatted
    ensures change <= 0.0 ==> r == formatted
  {
    if change > 0.0 then "+" + formatted else formatted
  }

  /**
   * Since fixed-point formatting never writes a `+` itself, the figure starts
   * with `+` exactly for a rise, and dropping that sign gives back the number.
   */
  lemma ChangeTextSign(change: real, formatted: string)
    requires formatted == [] || formatted[0] != '+'
    ensures var r := ChangeText(change, formatted);
            (r != [] && r[0] == '+' <==> change > 0.0) &&
            (if change > 0.0 then r[1..] else r) == formatted
  {
  }
}
