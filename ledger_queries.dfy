/** The read side of the ledger store: lookups, the remaining-amount rule and
    the reports. Every query is a pure function of the store's sequences; the
    clock is the parameter `now`. */
module LedgerQueries {
  import opened LedgerTypes
  import opened SeqUtils
  import opened DateUtils

  // ---------------------------------------------------------------------
  // Lookups

  /** `getCustomer`: the first customer with that id that is not soft-deleted. */
  function GetCustomer(cs: seq<Customer>, id: string): (r: Option<Customer>)
    ensures r.Some? ==> r.value in cs && r.value.id == id && r.value.IsLive()
    ensures r.None? <==> forall c :: c in cs ==> !(c.id == id && c.IsLive())
    ensures r.Some? ==> exists k :: (0 <= k < |cs| && cs[k] == r.value
      && forall j :: 0 <= j < k ==> !(cs[j].id == id && cs[j].IsLive()))
  {
    var k := FirstIndex(cs, (c: Customer) => c.id == id && c.IsLive());
    if k < 0 then None else Some(cs[k])
  }

  /** `getDebt`: the first debt with that id that is not soft-deleted. */
  function GetDebt(ds: seq<Debt>, id: string): (r: Option<Debt>)
    ensures r.Some? ==> r.value in ds && r.value.id == id && r.value.IsLive()
    ensures r.None? <==> forall d :: d in ds ==> !(d.id == id && d.IsLive())
    ensures r.Some? ==> exists k :: (0 <= k < |ds| && ds[k] == r.value
      && forall j :: 0 <= j < k ==> !(ds[j].id == id && ds[j].IsLive()))
  {
    var k := FirstIndex(ds, (d: Debt) => d.id == id && d.IsLive());
    if k < 0 then None else Some(ds[k])
  }

  /** The lookup `addPayment` does: the first debt with that id, soft-deleted
      or not. */
  function FindDebt(ds: seq<Debt>, id: string): (r: Option<Debt>)
    ensures r.Some? ==> r.value in ds && r.value.id == id
    ensures r.None? <==> forall d :: d in ds ==> d.id != id
    ensures r.Some? ==> exists k :: (0 <= k < |ds| && ds[k] == r.value
      && forall j :: 0 <= j < k ==> ds[j].id != id)
  {
    var k := FirstIndex(ds, (d: Debt) => d.id == id);
    if k < 0 then None else Some(ds[k])
  }

  /** `getCustomerDebts`. */
  function CustomerDebts(ds: seq<Debt>, customerId: string): (r: seq<Debt>)
    ensures forall d :: d in r <==> d in ds && d.customerId == customerId && d.IsLive()
  {
    Filter(ds, (d: Debt) => d.customerId == customerId && d.IsLive())
  }

  /** `getPaymentsForDebt`. */
  function PaymentsForDebt(ps: seq<Payment>, debtId: string): (r: seq<Payment>)
    ensures forall p :: p in r <==> p in ps && p.debtId == debtId
  {
    Filter(ps, (p: Payment) => p.debtId == debtId)
  }

  /** The sum of the amounts of every payment recorded for a debt id. */
  function PaidTotal(ps: seq<Payment>, debtId: string): (total: int)
    ensures total == SumWhere(ps, (p: Payment) => p.debtId == debtId, (p: Payment) => p.amount)
  {
    SumWhereFilter(ps, (p: Payment) => p.debtId == debtId, (p: Payment) => p.amount);
    Sum(PaymentsForDebt(ps, debtId), (p: Payment) => p.amount)
  }

  /** Recording one more payment adds its amount to the total of its own
      debt id and leaves every other id's total alone. */
  lemma PaidTotalAppend(ps: seq<Payment>, p: Payment, debtId: string)
    ensures PaidTotal(ps + [p], debtId) == PaidTotal(ps, debtId) + (if p.debtId == debtId then p.amount else 0)
  {
    FilterAppend(ps, [p], (q: Payment) => q.debtId == debtId);
    SumAppend(PaymentsForDebt(ps, debtId), PaymentsForDebt([p], debtId), (q: Payment) => q.amount);
  }

  /** `getRemainingAmount`: the principal less every recorded payment for the
      debt, floored at zero. It reads the payment records, never the cached
      `amountPaid`. */
  function RemainingAmount(d: Debt, ps: seq<Payment>): (r: int)
    ensures r >= 0
    ensures r == 0 <==> PaidTotal(ps, d.id) >= d.amount
    ensures r > 0 ==> r + PaidTotal(ps, d.id) == d.amount
  {
    var totalPaid := PaidTotal(ps, d.id);
    if d.amount - totalPaid > 0 then d.amount - totalPaid else 0
  }

  /** The remaining amount does not depend on the cached fields of the debt. */
  lemma RemainingIgnoresCachedFields(d: Debt, ps: seq<Payment>, amountPaid: int, isPaid: bool, paidAt: Option<int>)
    ensures RemainingAmount(d.(amountPaid := amountPaid, isPaid := isPaid, paidAt := paidAt), ps)
         == RemainingAmount(d, ps)
  {
  }

  // ---------------------------------------------------------------------
  // Aggregates

  /** `getUnpaidDebts`. */
  function UnpaidDebts(ds: seq<Debt>): (r: seq<Debt>)
    ensures forall d :: d in r <==> d in ds && !d.isPaid && d.IsLive()
  {
    Filter(ds, (d: Debt) => !d.isPaid && d.IsLive())
  }

  /** `getTotalUnpaidAmount`: the remaining amounts of the unpaid debts that
      are not soft-deleted, added up; never negative. */
  function TotalUnpaidAmount(ds: seq<Debt>, ps: seq<Payment>): (total: int)
    ensures total >= 0
    ensures total == SumWhere(ds, (d: Debt) => !d.isPaid && d.IsLive(), (d: Debt) => RemainingAmount(d, ps))
  {
    var unpaid := UnpaidDebts(ds);
    SumNonNegative(unpaid, (d: Debt) => RemainingAmount(d, ps));
    SumWhereFilter(ds, (d: Debt) => !d.isPaid && d.IsLive(), (d: Debt) => RemainingAmount(d, ps));
    Sum(unpaid, (d: Debt) => RemainingAmount(d, ps))
  }

  /** Recording one more debt adds its remaining amount to the total when it
      is unpaid and not soft-deleted, and nothing otherwise; the empty ledger
      owes nothing. */
  lemma TotalUnpaidStep(ds: seq<Debt>, d: Debt, ps: seq<Payment>)
    ensures TotalUnpaidAmount([], ps) == 0
    ensures TotalUnpaidAmount(ds + [d], ps)
         == TotalUnpaidAmount(ds, ps) + (if !d.isPaid && d.IsLive() then RemainingAmount(d, ps) else 0)
  {
    assert (ds + [d])[..|ds|] == ds;
  }

  /** `getOverdueDebts`: unpaid debts older than the fixed 30-day window
      (not the configurable `overduePeriodDays`). */
  function OverdueDebts(ds: seq<Debt>, now: int): (r: seq<Debt>)
    ensures forall d :: d in r <==> d in ds && !d.isPaid && d.IsLive() && d.date < now - 30 * DAY_MS
  {
    Filter(UnpaidDebts(ds), (d: Debt) => IsOverdue(d.date, now))
  }

  /** The `limit` `getRecentDebts` uses when it is given none. */
  const DEFAULT_RECENT_LIMIT: nat := 5

  /** The key `getRecentDebts` sorts by. */
  function DebtDate(d: Debt): int
  {
    d.date
  }

  /** `getRecentDebts(limit)`: at most `limit` unpaid debts, latest first, and
      no unpaid debt left out is later than one kept. */
  function RecentDebts(ds: seq<Debt>, limit: nat := DEFAULT_RECENT_LIMIT): (r: seq<Debt>)
    ensures |r| == if limit < |UnpaidDebts(ds)| then limit else |UnpaidDebts(ds)|
    ensures multiset(r) <= multiset(UnpaidDebts(ds))
    ensures forall d :: d in r ==> d in ds && !d.isPaid && d.IsLive()
    ensures SortedDesc(r, DebtDate)
    ensures forall d, i :: d in UnpaidDebts(ds) && d !in r && 0 <= i < |r| ==> d.date <= r[i].date
  {
    var unpaid := UnpaidDebts(ds);
    var r := TopBy(unpaid, DebtDate, limit);
    assert forall d :: d in r ==> d in unpaid;
    assert forall d, i :: d in unpaid && d !in r && 0 <= i < |r| ==> d.date <= r[i].date by {
      forall d, i | d in unpaid && d !in r && 0 <= i < |r| ensures d.date <= r[i].date {
        assert DebtDate(d) <= DebtDate(r[i]);
      }
    }
    r
  }

  /** `getMonthlyCollectedReport`, for a month given by its first instant
      `start` and its last instant `end` (the last day at 23:59:59.000); both
      ends are inclusive and payments of deleted debts count. */
  function MonthlyCollectedReport(ps: seq<Payment>, start: int, end: int): (r: MonthlyReport)
    ensures r.paymentsCount <= |ps|
    ensures r.totalCollected == SumWhere(ps, (p: Payment) => start <= p.date <= end, (p: Payment) => p.amount)
  {
    SumWhereFilter(ps, (p: Payment) => start <= p.date <= end, (p: Payment) => p.amount);
    var inMonth := Filter(ps, (p: Payment) => start <= p.date <= end);
    MonthlyReport(Sum(inMonth, (p: Payment) => p.amount), |inMonth|)
  }

  /** The report grows by exactly the payments dated inside the month: the
      empty ledger reports nothing, and one more payment is added to the
      totals exactly when `start <= date <= end`. */
  lemma MonthlyReportStep(ps: seq<Payment>, p: Payment, start: int, end: int)
    ensures MonthlyCollectedReport([], start, end) == MonthlyReport(0, 0)
    ensures MonthlyCollectedReport(ps + [p], start, end).paymentsCount
         == MonthlyCollectedReport(ps, start, end).paymentsCount + (if start <= p.date <= end then 1 else 0)
    ensures MonthlyCollectedReport(ps + [p], start, end).totalCollected
         == MonthlyCollectedReport(ps, start, end).totalCollected + (if start <= p.date <= end then p.amount else 0)
  {
    var inMonth := (q: Payment) => start <= q.date <= end;
    var amount := (q: Payment) => q.amount;
    assert [p][..0] == [];
    var tail := Filter([p], inMonth);
    assert tail == if inMonth(p) then [p] else [];
    FilterAppend(ps, [p], inMonth);
    SumAppend(Filter(ps, inMonth), tail, amount);
    assert Sum(tail, amount) == if inMonth(p) then p.amount else 0 by {
      if inMonth(p) {
        assert tail[..0] == [];
      }
    }
  }

  /** A payment at the last instant of the month counts; one a millisecond
      later does not. */
  lemma MonthBoundary(ps: seq<Payment>, p: Payment, start: int, end: int)
    requires start <= end
    ensures p.date == end ==>
      MonthlyCollectedReport(ps + [p], start, end).paymentsCount == MonthlyCollectedReport(ps, start, end).paymentsCount + 1
    ensures p.date == end + 1 ==>
      MonthlyCollectedReport(ps + [p], start, end).paymentsCount == MonthlyCollectedReport(ps, start, end).paymentsCount
  {
    MonthlyReportStep(ps, p, start, end);
  }

  /** `overdueDebts.some(od => od.id === id)`. */
  predicate HasId(ds: seq<Debt>, id: string)
  {
    exists i :: 0 <= i < |ds| && ds[i].id == id
  }

  /** The per-customer record of `getTopCustomers`. */
  function StatsFor(c: Customer, ds: seq<Debt>, now: int): (st: CustomerStats)
    ensures st.customer == c
    ensures st.debtCount == |CustomerDebts(ds, c.id)|
    ensures st.totalAmount == SumWhere(ds, (d: Debt) => d.customerId == c.id && d.IsLive(), (d: Debt) => d.amount)
    ensures st.totalPaid == SumWhere(ds, (d: Debt) => d.customerId == c.id && d.IsLive(), (d: Debt) => d.amountPaid)
    ensures st.overdueDebts == |Filter(CustomerDebts(ds, c.id), (d: Debt) => HasId(OverdueDebts(ds, now), d.id))|
    ensures st.overdueDebts <= st.debtCount
    ensures st.debtCount == 0 ==> st.totalAmount == 0 && st.avgDebtAmount == 0.0
    ensures st.avgDebtAmount == Average(st.totalAmount, st.debtCount)
  {
    var mine := CustomerDebts(ds, c.id);
    var overdue := OverdueDebts(ds, now);
    var totalAmount := Sum(mine, (d: Debt) => d.amount);
    SumWhereFilter(ds, (d: Debt) => d.customerId == c.id && d.IsLive(), (d: Debt) => d.amount);
    SumWhereFilter(ds, (d: Debt) => d.customerId == c.id && d.IsLive(), (d: Debt) => d.amountPaid);
    CustomerStats(
      c,
      totalAmount,
      Sum(mine, (d: Debt) => d.amountPaid),
      |mine|,
      |Filter(mine, (d: Debt) => HasId(overdue, d.id))|,
      Average(totalAmount, |mine|))
  }

  /** `count > 0 ? total / count : 0` in floating point, as an exact real. */
  function Average(total: int, count: nat): (avg: real)
    ensures count == 0 ==> avg == 0.0
    ensures count > 0 ==> avg * (count as real) == total as real
  {
    if count > 0 then total as real / count as real else 0.0
  }

  /** The records `getTopCustomers` builds, one per customer that is not
      soft-deleted, before sorting. */
  function LiveCustomerStats(cs: seq<Customer>, ds: seq<Debt>, now: int): (stats: seq<CustomerStats>)
    ensures |stats| == |Filter(cs, (c: Customer) => c.IsLive())|
    ensures forall st :: st in stats ==> st.customer in cs && st.customer.IsLive() && st == StatsFor(st.customer, ds, now)
    ensures forall c :: c in cs && c.IsLive() ==> StatsFor(c, ds, now) in stats
  {
    var live := Filter(cs, (c: Customer) => c.IsLive());
    var stats := Map(live, (c: Customer) => StatsFor(c, ds, now));
    forall c | c in cs && c.IsLive() ensures StatsFor(c, ds, now) in stats {
      assert c in live;
      var k :| 0 <= k < |live| && live[k] == c;
      assert stats[k] == StatsFor(c, ds, now);
    }
    forall st | st in stats
      ensures st.customer in cs && st.customer.IsLive() && st == StatsFor(st.customer, ds, now)
    {
      var k :| 0 <= k < |stats| && stats[k] == st;
      assert live[k] in live;
    }
    stats
  }

  /** The `limit` `getTopCustomers` uses when it is given none. */
  const DEFAULT_TOP_LIMIT: nat := 10

  /** `getTopCustomers(limit)`: at most `limit` records, only for customers
      that are not soft-deleted, by non-increasing total; no live customer
      left out has a larger total than one kept. */
  function TopCustomers(cs: seq<Customer>, ds: seq<Debt>, now: int, limit: nat := DEFAULT_TOP_LIMIT): (r: seq<CustomerStats>)
    ensures var live := |Filter(cs, (c: Customer) => c.IsLive())|;
      |r| == if limit < live then limit else live
    ensures multiset(r) <= multiset(LiveCustomerStats(cs, ds, now))
    ensures forall st :: st in r ==> st.customer in cs && st.customer.IsLive() && st == StatsFor(st.customer, ds, now)
    ensures SortedDesc(r, (st: CustomerStats) => st.totalAmount)
    ensures forall c, i :: c in cs && c.IsLive() && StatsFor(c, ds, now) !in r && 0 <= i < |r| ==>
      StatsFor(c, ds, now).totalAmount <= r[i].totalAmount
  {
    var stats := LiveCustomerStats(cs, ds, now);
    var key := (st: CustomerStats) => st.totalAmount;
    var r := TopBy(stats, key, limit);
    forall c, i | c in cs && c.IsLive() && StatsFor(c, ds, now) !in r && 0 <= i < |r|
      ensures StatsFor(c, ds, now).totalAmount <= r[i].totalAmount
    {
      var st := StatsFor(c, ds, now);
      assert st in stats;
      assert key(st) <= key(r[i]);
    }
    r
  }

  // ---------------------------------------------------------------------
  // Debts by status

  datatype Status = PaidStatus | OverdueStatus | CurrentStatus

  /** The bucket of one debt: paid first, then overdue when an overdue debt
      carries its id, else current. */
  function Classify(d: Debt, all: seq<Debt>, now: int): (s: Status)
    ensures (s == PaidStatus) == d.isPaid
    ensures s == OverdueStatus ==>
      exists od :: od in all && od.id == d.id && !od.isPaid && od.IsLive() && IsOverdue(od.date, now)
  {
    var overdue := OverdueDebts(all, now);
    if d.isPaid then PaidStatus
    else if HasId(overdue, d.id) then
      var i :| 0 <= i < |overdue| && overdue[i].id == d.id;
      assert overdue[i] in overdue;
      OverdueStatus
    else CurrentStatus
  }

  function AddToBucket(b: Bucket, amount: int): Bucket
  {
    Bucket(b.count + 1, b.amount + amount)
  }

  /** The reduce of `getDebtsByStatus` over `part`, with `cls` giving each
      debt its bucket. */
  function Tally(part: seq<Debt>, cls: Debt -> Status, ps: seq<Payment>): (t: DebtsByStatus)
    ensures t.paid.count + t.overdue.count + t.current.count <= |part|
    ensures t.overdue.amount >= 0 && t.current.amount >= 0
  {
    if |part| == 0 then DebtsByStatus(Bucket(0, 0), Bucket(0, 0), Bucket(0, 0))
    else
      var acc := Tally(part[..|part| - 1], cls, ps);
      var d := part[|part| - 1];
      if !d.IsLive() then acc
      else
        match cls(d)
        case PaidStatus => acc.(paid := AddToBucket(acc.paid, d.amount))
        case OverdueStatus => acc.(overdue := AddToBucket(acc.overdue, RemainingAmount(d, ps)))
        case CurrentStatus => acc.(current := AddToBucket(acc.current, RemainingAmount(d, ps)))
  }

  /** `getDebtsByStatus`. */
  function DebtsByStatusOf(ds: seq<Debt>, ps: seq<Payment>, now: int): (t: DebtsByStatus)
    ensures t.paid.count + t.overdue.count + t.current.count <= |ds|
    ensures t.overdue.amount >= 0 && t.current.amount >= 0
  {
    Tally(ds, (d: Debt) => Classify(d, ds, now), ps)
  }

  function BucketOf(t: DebtsByStatus, s: Status): Bucket
  {
    match s
    case PaidStatus => t.paid
    case OverdueStatus => t.overdue
    case CurrentStatus => t.current
  }

  /** What a debt adds to the amount of its bucket: the principal when paid,
      the remaining amount otherwise. */
  function Contribution(d: Debt, s: Status, ps: seq<Payment>): int
  {
    if s == PaidStatus then d.amount else RemainingAmount(d, ps)
  }

  /** One step of the reduce: bucket `s` grows by `d` exactly when `d` is
      live and classified into `s`. */
  lemma TallyStep(part: seq<Debt>, cls: Debt -> Status, ps: seq<Payment>, s: Status)
    requires |part| > 0
    ensures var d := part[|part| - 1];
      var before := BucketOf(Tally(part[..|part| - 1], cls, ps), s);
      BucketOf(Tally(part, cls, ps), s)
      == if d.IsLive() && cls(d) == s then AddToBucket(before, Contribution(d, s, ps)) else before
  {
  }

  /** Each bucket counts the live debts classified into it. */
  lemma {:induction false} TallyBucketCount(part: seq<Debt>, cls: Debt -> Status, ps: seq<Payment>, s: Status)
    ensures BucketOf(Tally(part, cls, ps), s).count
         == |Filter(part, (d: Debt) => d.IsLive() && cls(d) == s)|
  {
    if |part| > 0 {
      TallyBucketCount(part[..|part| - 1], cls, ps, s);
      TallyStep(part, cls, ps, s);
    }
  }

  /** Each bucket sums the contributions of the live debts classified into it. */
  lemma TallyBucketAmount(part: seq<Debt>, cls: Debt -> Status, ps: seq<Payment>, s: Status)
    ensures BucketOf(Tally(part, cls, ps), s).amount
         == Sum(Filter(part, (d: Debt) => d.IsLive() && cls(d) == s), (d: Debt) => Contribution(d, s, ps))
  {
    TallyBucketSum(part, cls, ps, s);
    SumWhereFilter(part, (d: Debt) => d.IsLive() && cls(d) == s, (d: Debt) => Contribution(d, s, ps));
  }

  lemma {:induction false} TallyBucketSum(part: seq<Debt>, cls: Debt -> Status, ps: seq<Payment>, s: Status)
    ensures BucketOf(Tally(part, cls, ps), s).amount
         == SumWhere(part, (d: Debt) => d.IsLive() && cls(d) == s, (d: Debt) => Contribution(d, s, ps))
  {
    if |part| > 0 {
      TallyBucketSum(part[..|part| - 1], cls, ps, s);
      TallyStep(part, cls, ps, s);
    }
  }

  /** Every live debt is counted in exactly one bucket. */
  lemma {:induction false} TallyCounts(part: seq<Debt>, cls: Debt -> Status, ps: seq<Payment>)
    ensures var t := Tally(part, cls, ps);
      t.paid.count + t.overdue.count + t.current.count == |Filter(part, (d: Debt) => d.IsLive())|
  {
    if |part| > 0 {
      TallyCounts(part[..|part| - 1], cls, ps);
    }
  }

  /** `d` is live and `getDebtsByStatus` files it under `s`. */
  predicate InStatus(d: Debt, ds: seq<Debt>, now: int, s: Status)
  {
    d.IsLive() && Classify(d, ds, now) == s
  }

  /** Each bucket of `getDebtsByStatus` counts the live debts of its status
      and sums their contributions (principals for paid debts, remaining
      amounts otherwise); the overdue and current amounts are never negative. */
  lemma DebtsByStatusBucket(ds: seq<Debt>, ps: seq<Payment>, now: int, s: Status)
    ensures BucketOf(DebtsByStatusOf(ds, ps, now), s).count
         == |Filter(ds, (d: Debt) => InStatus(d, ds, now, s))|
    ensures BucketOf(DebtsByStatusOf(ds, ps, now), s).amount
         == Sum(Filter(ds, (d: Debt) => InStatus(d, ds, now, s)), (d: Debt) => Contribution(d, s, ps))
    ensures s != PaidStatus ==> BucketOf(DebtsByStatusOf(ds, ps, now), s).amount >= 0
  {
    var cls := (d: Debt) => Classify(d, ds, now);
    TallyBucketCount(ds, cls, ps, s);
    TallyBucketAmount(ds, cls, ps, s);
    FilterExt(ds, (d: Debt) => d.IsLive() && cls(d) == s, (d: Debt) => InStatus(d, ds, now, s));
    if s != PaidStatus {
      SumNonNegative(Filter(ds, (d: Debt) => InStatus(d, ds, now, s)), (d: Debt) => Contribution(d, s, ps));
    }
  }

  /** The three counts of `getDebtsByStatus` add up to the number of live debts. */
  lemma DebtsByStatusCounts(ds: seq<Debt>, ps: seq<Payment>, now: int)
    ensures var t := DebtsByStatusOf(ds, ps, now);
      t.paid.count + t.overdue.count + t.current.count == |Filter(ds, (d: Debt) => d.IsLive())|
  {
    TallyCounts(ds, (d: Debt) => Classify(d, ds, now), ps);
  }

  /** No two debts share an id (ids are generated fresh). */
  predicate DistinctDebtIds(ds: seq<Debt>)
  {
    forall i, j :: 0 <= i < j < |ds| ==> ds[i].id != ds[j].id
  }

  /** The overdue bucket and the 30-day window: an unpaid live debt older than
      the window is in the overdue bucket, and when ids are distinct only such
      debts are. */
  lemma OverdueBucketMeaning(d: Debt, ds: seq<Debt>, now: int)
    requires d in ds && d.IsLive() && !d.isPaid
    ensures IsOverdue(d.date, now) ==> Classify(d, ds, now) == OverdueStatus
    ensures DistinctDebtIds(ds) && Classify(d, ds, now) == OverdueStatus ==> IsOverdue(d.date, now)
  {
    var overdue := OverdueDebts(ds, now);
    if IsOverdue(d.date, now) {
      assert d in overdue;
      var i :| 0 <= i < |overdue| && overdue[i] == d;
      assert HasId(overdue, d.id);
    }
    if DistinctDebtIds(ds) && Classify(d, ds, now) == OverdueStatus {
      var i :| 0 <= i < |overdue| && overdue[i].id == d.id;
      var od := overdue[i];
      assert od in ds;
      var a :| 0 <= a < |ds| && ds[a] == od;
      var b :| 0 <= b < |ds| && ds[b] == d;
      assert a == b;
    }
  }
}
