/** The farmer dashboard of backend-example.js: counts, revenue, average
    rating and the last five orders and reviews, all derived from the
    farmer-scoped views. */
module Dashboard {
  import opened Records
  import Seqs
  import Farmer

  /** How many orders and reviews the dashboard lists as recent (`slice(-5)`). */
  const RecentCount: nat := 5

  datatype Stats = Stats(
    totalProducts: nat,
    totalOrders: nat,
    totalRevenue: int,
    averageRating: real,
    recentOrders: seq<Order>,
    recentReviews: seq<Review>)

  /** `orders.reduce((sum, order) => sum + order.total, 0)` */
  function Revenue(os: seq<Order>): int {
    if os == [] then 0 else os[0].total + Revenue(os[1..])
  }

  /** `reviews.reduce((sum, review) => sum + review.rating, 0)` */
  function RatingSum(rs: seq<Review>): int {
    if rs == [] then 0 else rs[0].rating + RatingSum(rs[1..])
  }

  /** The mean rating, or 0 when there is nothing to average. */
  function AverageRating(rs: seq<Review>): (avg: real)
    ensures rs == [] ==> avg == 0.0
    ensures rs != [] ==> avg * |rs| as real == RatingSum(rs) as real
  {
    if |rs| > 0 then RatingSum(rs) as real / |rs| as real else 0.0
  }

  /** The dashboard of farmer `f` over the three lists. */
  function DashboardOf(ps: seq<Product>, os: seq<Order>, rs: seq<Review>, f: int): (s: Stats)
    ensures s.totalProducts == |Farmer.ProductsOf(ps, f)|
    ensures s.totalOrders == |Farmer.OrdersOf(os, f)|
    ensures |s.recentOrders| == if s.totalOrders < RecentCount then s.totalOrders else RecentCount
    ensures |s.recentReviews| ==
      if |Farmer.ReviewsOf(rs, f)| < RecentCount then |Farmer.ReviewsOf(rs, f)| else RecentCount
  {
    var mine := Farmer.OrdersOf(os, f);
    var rated := Farmer.ReviewsOf(rs, f);
    Stats(
      |Farmer.ProductsOf(ps, f)|,
      |mine|,
      Revenue(mine),
      AverageRating(rated),
      Seqs.Recent(mine, RecentCount),
      Seqs.Recent(rated, RecentCount))
  }

  /** The dashboard's revenue is the farmer's revenue read straight off
      the store. */
  lemma DashboardRevenue(ps: seq<Product>, os: seq<Order>, rs: seq<Review>, f: int)
    ensures DashboardOf(ps, os, rs, f).totalRevenue == StoreRevenue(os, f)
  {
    RevenueOfFilteredOrders(os, f);
  }

  /** The dashboard's average rating is the mean of the farmer's ratings
      (see AverageRating), and 0 when the farmer has none. */
  lemma DashboardAverage(ps: seq<Product>, os: seq<Order>, rs: seq<Review>, f: int)
    ensures DashboardOf(ps, os, rs, f).averageRating == AverageRating(Farmer.ReviewsOf(rs, f))
    ensures Farmer.ReviewsOf(rs, f) == [] ==> DashboardOf(ps, os, rs, f).averageRating == 0.0
  {
  }

  /** The recent orders and reviews are the last entries of the farmer's
      views: `min(5, n)` of them, as `slice(-5)` takes them. */
  lemma DashboardRecent(ps: seq<Product>, os: seq<Order>, rs: seq<Review>, f: int)
    ensures var s := DashboardOf(ps, os, rs, f);
      var mine := Farmer.OrdersOf(os, f);
      s.recentOrders == mine[|mine| - |s.recentOrders|..]
    ensures var s := DashboardOf(ps, os, rs, f);
      var rated := Farmer.ReviewsOf(rs, f);
      s.recentReviews == rated[|rated| - |s.recentReviews|..]
  {
  }

  /** The recent lists are the tails of the farmer's views: only that
      farmer's records, in the order the store holds them. */
  lemma RecentInStoreOrder(ps: seq<Product>, os: seq<Order>, rs: seq<Review>, f: int)
    ensures var s := DashboardOf(ps, os, rs, f);
      (forall k :: 0 <= k < |s.recentOrders| ==> s.recentOrders[k].farmerId == f) &&
      (forall k :: 0 <= k < |s.recentReviews| ==> s.recentReviews[k].farmerId == f) &&
      Seqs.IsSubsequence(s.recentOrders, os) && Seqs.IsSubsequence(s.recentReviews, rs)
  {
    Seqs.RecentOfFilter(os, Farmer.OwnsOrder(f), RecentCount);
    Seqs.RecentOfFilter(rs, Farmer.OwnsReview(f), RecentCount);
  }

  /** The revenue of farmer `f` computed straight from the store: every
      order of `f` contributes its total, every other order nothing. */
  function StoreRevenue(os: seq<Order>, f: int): int {
    if os == [] then 0
    else (if os[0].farmerId == f then os[0].total else 0) + StoreRevenue(os[1..], f)
  }

  /** The dashboard's revenue, summed over the filtered orders, is the
      revenue read straight off the store. */
  lemma {:induction false} RevenueOfFilteredOrders(os: seq<Order>, f: int)
    ensures Revenue(Farmer.OrdersOf(os, f)) == StoreRevenue(os, f)
    decreases |os|
  {
    if os != [] {
      RevenueOfFilteredOrders(os[1..], f);
      var rest := Farmer.OrdersOf(os[1..], f);
      if os[0].farmerId == f {
        assert Farmer.OrdersOf(os, f) == [os[0]] + rest;
        assert ([os[0]] + rest)[1..] == rest;
      } else {
        assert Farmer.OrdersOf(os, f) == rest;
      }
    }
  }

  /** Changing one order's status moves no money: the store revenue of
      every farmer stays the same. */
  lemma {:induction false} StatusKeepsStoreRevenue(os: seq<Order>, i: int, status: string, now: string, g: int)
    requires 0 <= i < |os|
    ensures StoreRevenue(os[i := Farmer.WithStatus(os[i], status, now)], g) == StoreRevenue(os, g)
    decreases |os|
  {
    var os' := os[i := Farmer.WithStatus(os[i], status, now)];
    if i > 0 {
      assert os'[1..] == os[1..][i - 1 := Farmer.WithStatus(os[1..][i - 1], status, now)];
      StatusKeepsStoreRevenue(os[1..], i - 1, status, now, g);
    } else {
      assert os'[1..] == os[1..];
    }
  }

  /** A status change leaves every farmer's order count and revenue on the
      dashboard as it was. */
  lemma StatusKeepsDashboardTotals(ps: seq<Product>, os: seq<Order>, rs: seq<Review>,
                                   i: int, status: string, now: string, g: int)
    requires 0 <= i < |os|
    ensures DashboardOf(ps, os[i := Farmer.WithStatus(os[i], status, now)], rs, g).totalOrders ==
            DashboardOf(ps, os, rs, g).totalOrders
    ensures DashboardOf(ps, os[i := Farmer.WithStatus(os[i], status, now)], rs, g).totalRevenue ==
            DashboardOf(ps, os, rs, g).totalRevenue
  {
    var os' := os[i := Farmer.WithStatus(os[i], status, now)];
    Farmer.OrdersOfAfterStatus(os, i, status, now, g);
    RevenueOfFilteredOrders(os, g);
    RevenueOfFilteredOrders(os', g);
    StatusKeepsStoreRevenue(os, i, status, now, g);
  }

  /** The sum of n ratings each within [lo, hi] lies within [n*lo, n*hi]. */
  lemma {:induction false} RatingSumWithin(rs: seq<Review>, lo: int, hi: int)
    requires forall k :: 0 <= k < |rs| ==> lo <= rs[k].rating <= hi
    ensures |rs| * lo <= RatingSum(rs) <= |rs| * hi
    decreases |rs|
  {
    if rs != [] {
      RatingSumWithin(rs[1..], lo, hi);
      assert |rs| * lo == lo + (|rs| - 1) * lo;
      assert |rs| * hi == hi + (|rs| - 1) * hi;
    }
  }

  /** The average of ratings within [lo, hi] lies within [lo, hi]. */
  lemma AverageWithin(rs: seq<Review>, lo: int, hi: int)
    requires rs != []
    requires forall k :: 0 <= k < |rs| ==> lo <= rs[k].rating <= hi
    ensures lo as real <= AverageRating(rs) <= hi as real
  {
    RatingSumWithin(rs, lo, hi);
    var n := |rs| as real;
    var sum := RatingSum(rs) as real;
    CastMul(|rs|, lo);
    CastMul(|rs|, hi);
    QuotientWithin(sum, n, lo as real, hi as real);
    assert AverageRating(rs) == sum / n;
  }

  /** A sum within [n*lo, n*hi], divided by n, lies within [lo, hi]. */
  lemma QuotientWithin(sum: real, n: real, lo: real, hi: real)
    requires n > 0.0 && n * lo <= sum <= n * hi
    ensures lo <= sum / n <= hi
  {
    var q := sum / n;
    assert q * n == sum;
    if q < lo {
      MulStrict(q, lo, n);
    }
    if q > hi {
      MulStrict(hi, q, n);
    }
  }

  lemma CastMul(a: int, b: int)
    ensures (a * b) as real == a as real * b as real
  {
  }

  lemma MulStrict(x: real, y: real, n: real)
    requires x < y && n > 0.0
    ensures x * n < y * n && n * x < n * y
  {
  }
}
