/** Date helpers of the ledger: two-digit date formatting and the
    overdue/reminder arithmetic on epoch-millisecond timestamps. The clock
    is the parameter `now`; the calendar breakdown of a timestamp into day,
    month and year is done by the caller. JavaScript's `Math.floor(x / d)`
    with a positive `d` is Dafny's `x / d` (Euclidean division agrees with
    flooring when the divisor is positive). */
module DateUtils {
  import opened LedgerTypes
  import opened SeqUtils

  // ---------------------------------------------------------------------
  // Formatting

  function DigitChar(d: nat): (c: char)
    requires d < 10
    ensures '0' <= c <= '9'
    ensures (c as int) - ('0' as int) == d
  {
    (('0' as int) + d) as char
  }

  predicate IsDigits(s: string)
  {
    forall i :: 0 <= i < |s| ==> '0' <= s[i] <= '9'
  }

  /** The value of a string of decimal digits (the reading of a formatted field). */
  function DigitsValue(s: string): nat
    requires IsDigits(s)
  {
    if |s| == 0 then 0
    else DigitsValue(s[..|s| - 1]) * 10 + ((s[|s| - 1] as int) - ('0' as int))
  }

  /** `n.toString()` for a non-negative integer. */
  function NatToString(n: nat): (s: string)
    ensures |s| >= 1 && IsDigits(s)
    ensures n < 10 ==> |s| == 1
    ensures 10 <= n < 100 ==> |s| == 2
  {
    if n < 10 then [DigitChar(n)] else NatToString(n / 10) + [DigitChar(n % 10)]
  }

  /** `n.toString()` for any integer, with a leading '-' when negative. */
  function IntToString(n: int): (s: string)
    ensures |s| >= 1
  {
    if n < 0 then "-" + NatToString(-n) else NatToString(n)
  }

  lemma {:induction false} NatToStringRoundTrip(n: nat)
    ensures DigitsValue(NatToString(n)) == n
  {
    if n >= 10 {
      var s := NatToString(n);
      NatToStringRoundTrip(n / 10);
      assert s[..|s| - 1] == NatToString(n / 10);
      assert DigitsValue(s) == (n / 10) * 10 + n % 10;
    }
  }

  /** A leading zero does not change the value of a digit string. */
  lemma {:induction false} LeadingZero(s: string)
    requires IsDigits(s)
    ensures IsDigits("0" + s) && DigitsValue("0" + s) == DigitsValue(s)
  {
    if |s| > 0 {
      var t := "0" + s;
      assert t[..|t| - 1] == "0" + s[..|s| - 1];
      LeadingZero(s[..|s| - 1]);
    }
  }

  /** `s.padStart(2, '0')`. */
  function PadStart2(s: string): (r: string)
    ensures |r| == if |s| < 2 then 2 else |s|
    ensures r[|r| - |s|..] == s
    ensures forall i :: 0 <= i < |r| - |s| ==> r[i] == '0'
  {
    if |s| == 0 then "00" else if |s| == 1 then "0" + s else s
  }

  /** `formatDateShort`: DD/MM from the day of the month (1-based) and the
      month as `getMonth()` gives it (0-based). */
  function FormatDateShort(day: nat, month0: nat): (s: string)
    ensures |s| >= 5
  {
    PadStart2(NatToString(day)) + "/" + PadStart2(NatToString(month0 + 1))
  }

  /** `formatDate`: DD/MM/YYYY, the year unpadded. */
  function FormatDate(day: nat, month0: nat, year: int): (s: string)
    ensures |s| >= 7
  {
    FormatDateShort(day, month0) + "/" + IntToString(year)
  }

  /** A number below 100 formats to two digits that read back as the number. */
  lemma TwoDigitField(n: nat)
    requires n < 100
    ensures |PadStart2(NatToString(n))| == 2
    ensures IsDigits(PadStart2(NatToString(n)))
    ensures DigitsValue(PadStart2(NatToString(n))) == n
  {
    NatToStringRoundTrip(n);
    if n < 10 {
      LeadingZero(NatToString(n));
    }
  }

  lemma SlashJoin(a: string, b: string)
    ensures (a + "/" + b)[..|a|] == a && (a + "/" + b)[|a|] == '/' && (a + "/" + b)[|a| + 1..] == b
  {
  }

  /** DD/MM is five characters: two digits giving the day, '/', two digits
      giving the 1-based month. */
  lemma FormatDateShortLayout(day: nat, month0: nat)
    requires 1 <= day <= 31 && month0 < 12
    ensures var s := FormatDateShort(day, month0);
      && |s| == 5 && s[2] == '/'
      && IsDigits(s[..2]) && DigitsValue(s[..2]) == day
      && IsDigits(s[3..]) && DigitsValue(s[3..]) == month0 + 1
  {
    var dd, mm := PadStart2(NatToString(day)), PadStart2(NatToString(month0 + 1));
    TwoDigitField(day);
    TwoDigitField(month0 + 1);
    SlashJoin(dd, mm);
  }

  /** DD/MM/YYYY extends DD/MM with '/' and the year's digits. */
  lemma FormatDateLayout(day: nat, month0: nat, year: nat)
    requires 1 <= day <= 31 && month0 < 12
    ensures var s := FormatDate(day, month0, year);
      && |s| >= 7 && s[..5] == FormatDateShort(day, month0) && s[5] == '/'
      && IsDigits(s[6..]) && DigitsValue(s[6..]) == year
  {
    FormatDateShortLayout(day, month0);
    NatToStringRoundTrip(year);
    SlashJoin(FormatDateShort(day, month0), NatToString(year));
  }

  // ---------------------------------------------------------------------
  // Overdue and reminder arithmetic

  /** `isOverdue`: older than the fixed 30-day window, strictly. */
  predicate IsOverdue(timestamp: int, now: int): (overdue: bool)
    ensures overdue ==> timestamp < now
    ensures overdue ==> DaysOverdue(timestamp, now) >= 30
  {
    timestamp < now - 30 * DAY_MS
  }

  /** `getDaysOverdue`: whole days elapsed, never negative. */
  function DaysOverdue(timestamp: int, now: int): (days: nat)
    ensures timestamp <= now ==> days * DAY_MS <= now - timestamp < (days + 1) * DAY_MS
    ensures now - timestamp < DAY_MS ==> days == 0
  {
    var diffDays := (now - timestamp) / DAY_MS;
    if diffDays < 0 then 0 else diffDays
  }

  /** The 30-day test and the day count agree: an overdue timestamp is at
      least 30 whole days old, and one 31 or more whole days old is overdue. */
  lemma OverdueAgreesWithDayCount(timestamp: int, now: int)
    ensures IsOverdue(timestamp, now) ==> DaysOverdue(timestamp, now) >= 30
    ensures DaysOverdue(timestamp, now) >= 31 ==> IsOverdue(timestamp, now)
  {
    if DaysOverdue(timestamp, now) >= 31 {
      assert now - timestamp >= 31 * DAY_MS;
    }
  }

  /** `getDaysUntilReminder`: whole days (floored) until the reminder date;
      negative once it has passed. */
  function DaysUntilReminder(debtDate: int, reminderDays: int, now: int): (days: int)
    ensures days * DAY_MS <= debtDate + reminderDays * DAY_MS - now < (days + 1) * DAY_MS
  {
    (debtDate + reminderDays * DAY_MS - now) / DAY_MS
  }

  /** `needsReminder`: due once the reminder date is reached, and then only if
      no reminder was sent (absent or 0) or the last one is older than 7 days. */
  predicate NeedsReminder(debtDate: int, reminderDays: int, lastReminderSent: Option<int>, now: int): (needed: bool)
    ensures needed ==> DaysUntilReminder(debtDate, reminderDays, now) <= 0
  {
    if now < debtDate + reminderDays * DAY_MS then false
    else if !Truthy(lastReminderSent) then true
    else lastReminderSent.value < now - 7 * DAY_MS
  }

  /** `needsReminder` answers yes exactly when the reminder date is reached
      and either no reminder was sent or the last one is more than 7 days
      old. */
  lemma NeedsReminderMeaning(debtDate: int, reminderDays: int, last: Option<int>, now: int)
    ensures NeedsReminder(debtDate, reminderDays, last, now) ==>
      now - debtDate >= reminderDays * DAY_MS &&
      (Truthy(last) ==> now - last.value > 7 * DAY_MS)
    ensures now - debtDate >= reminderDays * DAY_MS && !Truthy(last) ==>
      NeedsReminder(debtDate, reminderDays, last, now)
    ensures now - debtDate >= reminderDays * DAY_MS && Truthy(last) && now - last.value > 7 * DAY_MS ==>
      NeedsReminder(debtDate, reminderDays, last, now)
    ensures Truthy(last) && now - last.value <= 7 * DAY_MS ==>
      !NeedsReminder(debtDate, reminderDays, last, now)
  {
  }

  /** `needsReminder` and `getDaysUntilReminder` agree: a reminder is never
      due while a whole day or more remains, and a negative countdown means
      the reminder date has passed. */
  lemma ReminderCountdownAgreement(debtDate: int, reminderDays: int, last: Option<int>, now: int)
    ensures DaysUntilReminder(debtDate, reminderDays, now) > 0 ==> !NeedsReminder(debtDate, reminderDays, last, now)
    ensures DaysUntilReminder(debtDate, reminderDays, now) < 0 && !Truthy(last) ==>
      NeedsReminder(debtDate, reminderDays, last, now)
  {
    var d := DaysUntilReminder(debtDate, reminderDays, now);
    if d > 0 {
      assert DAY_MS <= d * DAY_MS;
    }
  }

  /** A debt dated 31 days ago is overdue; one dated 29 days ago is not. */
  lemma OverdueBoundaryExamples(now: int)
    ensures IsOverdue(now - 31 * DAY_MS, now)
    ensures !IsOverdue(now - 29 * DAY_MS, now)
    ensures !IsOverdue(now - 30 * DAY_MS, now)
  {
  }

  // ---------------------------------------------------------------------
  // calculateStats

  /** A record as `calculateStats` reads it: the field it tests is `isPaid`,
      which is `None` on every `Debt` (a debt's flag is `is_paid`). */
  datatype StatsEntry = StatsEntry(isPaid: Option<bool>, amount: int, date: int)

  datatype Stats = Stats(totalUnpaid: int, unpaidCount: nat, overdueCount: nat, recentDebts: seq<StatsEntry>)

  /** `!debt.isPaid`: an absent flag is falsy. */
  predicate StatsUnpaid(e: StatsEntry)
  {
    !(e.isPaid == Some(true))
  }

  function CalculateStats(entries: seq<StatsEntry>, now: int): (st: Stats)
    ensures st.unpaidCount <= |entries|
    ensures st.overdueCount <= st.unpaidCount
    ensures |st.recentDebts| <= 5 && |st.recentDebts| <= st.unpaidCount
    ensures forall e :: e in st.recentDebts ==> e in entries && StatsUnpaid(e)
  {
    var unpaid := Filter(entries, StatsUnpaid);
    var overdue := Filter(unpaid, (e: StatsEntry) => IsOverdue(e.date, now));
    var recent := Take(unpaid, 5);
    assert forall e :: e in recent ==> e in unpaid;
    Stats(Sum(unpaid, (e: StatsEntry) => e.amount), |unpaid|, |overdue|, recent)
  }

  /** How a debt looks to `calculateStats`: it has no `isPaid` key. */
  function AsStatsEntry(d: Debt): StatsEntry
  {
    StatsEntry(None, d.amount, d.date)
  }

  /** Because it reads `isPaid`, `calculateStats` applied to debts counts every
      debt as unpaid, paid or not: the total is the sum of all principals and
      the recent list is the first five debts. */
  lemma {:induction false} CalculateStatsIgnoresIsPaid(ds: seq<Debt>, now: int)
    ensures var st := CalculateStats(Map(ds, AsStatsEntry), now);
      && st.unpaidCount == |ds|
      && st.totalUnpaid == Sum(ds, (d: Debt) => d.amount)
      && st.recentDebts == Map(Take(ds, 5), AsStatsEntry)
  {
    var es := Map(ds, AsStatsEntry);
    AllUnpaid(es);
    SumOfEntries(ds);
    if 5 < |ds| {
      assert es[..5] == Map(ds[..5], AsStatsEntry);
    }
  }

  lemma AllUnpaid(es: seq<StatsEntry>)
    requires forall e :: e in es ==> e.isPaid == None
    ensures Filter(es, StatsUnpaid) == es
  {
    forall i | 0 <= i < |es| ensures StatsUnpaid(es[i]) {
      assert es[i] in es;
    }
    FilterAll(es, StatsUnpaid);
  }

  lemma {:induction false} SumOfEntries(ds: seq<Debt>)
    ensures Sum(Map(ds, AsStatsEntry), (e: StatsEntry) => e.amount) == Sum(ds, (d: Debt) => d.amount)
  {
    if |ds| > 0 {
      var n := |ds| - 1;
      assert Map(ds, AsStatsEntry)[..n] == Map(ds[..n], AsStatsEntry);
      SumOfEntries(ds[..n]);
    }
  }

  /** The total sums the principals of the unpaid records, the unpaid count
      counts them, the overdue count counts exactly those unpaid records for
      which `isOverdue` holds, and the recent list is the first five unpaid
      records in input order. */
  lemma {:induction false} CalculateStatsCounts(entries: seq<StatsEntry>, now: int)
    ensures var st := CalculateStats(entries, now);
      && st.totalUnpaid == Sum(entries, (e: StatsEntry) => if StatsUnpaid(e) then e.amount else 0)
      && st.unpaidCount == |Filter(entries, StatsUnpaid)|
      && st.overdueCount == |Filter(entries, (e: StatsEntry) => StatsUnpaid(e) && IsOverdue(e.date, now))|
      && st.recentDebts == Take(Filter(entries, StatsUnpaid), 5)
  {
    FilterFilter(entries, StatsUnpaid, (e: StatsEntry) => IsOverdue(e.date, now),
                 (e: StatsEntry) => StatsUnpaid(e) && IsOverdue(e.date, now));
    UnpaidTotal(entries);
  }

  lemma {:induction false} UnpaidTotal(entries: seq<StatsEntry>)
    ensures Sum(Filter(entries, StatsUnpaid), (e: StatsEntry) => e.amount)
         == Sum(entries, (e: StatsEntry) => if StatsUnpaid(e) then e.amount else 0)
  {
    if |entries| > 0 {
      var n := |entries| - 1;
      UnpaidTotal(entries[..n]);
      SumAppend(Filter(entries[..n], StatsUnpaid), if StatsUnpaid(entries[n]) then [entries[n]] else [], (e: StatsEntry) => e.amount);
    }
  }
}
