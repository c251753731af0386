/** The background reminder scan: one pass over the unpaid debts of a
    snapshot of the store, notifying each debt overdue by the configured
    number of days that was not reminded in the last day, and stamping it.
    The clock is the parameter `now`; whether the `k`-th notification could
    be scheduled is `scheduleOk(k)`. */
module ReminderScanner {
  import opened LedgerTypes
  import opened SeqUtils
  import opened LedgerStore
  import opened DateUtils

  /** The result reported to the background-fetch scheduler. */
  datatype FetchResult = NewData | NoData | Failed

  /** What a notification says: the customer's name and the configured
      number of days, for the debt it is about. */
  datatype Notification = Notification(debtId: string, customerName: string, overduePeriodDays: int)

  /** The name shown when no customer carries the debt's customer id. */
  const UNKNOWN_CUSTOMER: string := "عميل غير معروف"

  /** The name of the first customer with the id, soft-deleted or not, or
      the placeholder. */
  function CustomerName(cs: seq<Customer>, customerId: string): (name: string)
    ensures (forall c :: c in cs ==> c.id != customerId) ==> name == UNKNOWN_CUSTOMER
    ensures (exists c :: c in cs && c.id == customerId) ==>
      exists k :: 0 <= k < |cs| && cs[k].id == customerId && name == cs[k].name
        && forall j :: 0 <= j < k ==> cs[j].id != customerId
  {
    var k := FirstIndex(cs, (c: Customer) => c.id == customerId);
    if k < 0 then UNKNOWN_CUSTOMER else cs[k].name
  }

  /** The test of the loop: older than `days` days, strictly, and not
      reminded (with a truthy stamp) less than a day ago. */
  predicate ShouldNotify(d: Debt, days: int, now: int): (due: bool)
    ensures due && days >= 0 ==> DaysOverdue(d.date, now) >= days
    ensures due && Truthy(d.lastReminderSent) ==> now - d.lastReminderSent.value >= DAY_MS
  {
    && now - d.date > days * DAY_MS
    && !(Truthy(d.lastReminderSent) && now - d.lastReminderSent.value < DAY_MS)
  }

  /** The debts of `unpaid` that pass the test, in order. */
  function Due(unpaid: seq<Debt>, days: int, now: int): (due: seq<Debt>)
    ensures forall i :: 0 <= i < |due| ==> ShouldNotify(due[i], days, now)
  {
    if |unpaid| == 0 then []
    else
      var d := unpaid[|unpaid| - 1];
      Due(unpaid[..|unpaid| - 1], days, now) + if ShouldNotify(d, days, now) then [d] else []
  }

  /** `Due` is the filter of `unpaid` by the loop's test; it is kept as its
      own recursion so that the loop's proofs unfold one definition only. */
  lemma {:induction false} DueIsFilter(unpaid: seq<Debt>, days: int, now: int)
    ensures Due(unpaid, days, now) == Filter(unpaid, (d: Debt) => ShouldNotify(d, days, now))
  {
    if |unpaid| > 0 {
      DueIsFilter(unpaid[..|unpaid| - 1], days, now);
    }
  }

  lemma {:induction false} DueMembers(unpaid: seq<Debt>, days: int, now: int)
    ensures forall d :: d in Due(unpaid, days, now) <==> d in unpaid && ShouldNotify(d, days, now)
  {
    if |unpaid| > 0 {
      var n := |unpaid| - 1;
      DueMembers(unpaid[..n], days, now);
      assert unpaid == unpaid[..n] + [unpaid[n]];
    }
  }

  lemma {:induction false} DueAppend(a: seq<Debt>, b: seq<Debt>, days: int, now: int)
    ensures Due(a + b, days, now) == Due(a, days, now) + Due(b, days, now)
    decreases |b|
  {
    if |b| == 0 {
      assert a + b == a;
    } else {
      var n := |b| - 1;
      assert (a + b)[..|a + b| - 1] == a + b[..n];
      DueAppend(a, b[..n], days, now);
    }
  }

  /** One more debt of the scan adds itself to the due list exactly when it
      passes the test. */
  lemma DueStep(unpaid: seq<Debt>, i: int, days: int, now: int)
    requires 0 <= i < |unpaid|
    ensures Due(unpaid[..i + 1], days, now)
         == Due(unpaid[..i], days, now) + if ShouldNotify(unpaid[i], days, now) then [unpaid[i]] else []
  {
    assert unpaid[..i + 1][..i] == unpaid[..i];
  }

  /** The debts a scan notifies, in store order: unpaid ones (soft-deleted
      ones included) that pass the test. */
  function DueDebts(ds: seq<Debt>, days: int, now: int): (r: seq<Debt>)
    ensures forall d :: d in r <==> d in ds && !d.isPaid && ShouldNotify(d, days, now)
  {
    var unpaid := Filter(ds, (d: Debt) => !d.isPaid);
    DueMembers(unpaid, days, now);
    Due(unpaid, days, now)
  }

  /** The notifications of `ds`, one per debt, in order. */
  function Notices(ds: seq<Debt>, cs: seq<Customer>, days: int): (r: seq<Notification>)
    ensures |r| == |ds|
  {
    Map(ds, (d: Debt) => Notification(d.id, CustomerName(cs, d.customerId), days))
  }

  /** The patch of `updateLastReminderSent(id, now)`. */
  function ReminderPatch(now: int): DebtPatch
  {
    EMPTY_DEBT_PATCH.(lastReminderSent := Set(Some(now)))
  }

  /** The debts after stamping each of `ids` once; stamping an id again
      changes nothing more. */
  function StampedDebts(ds: seq<Debt>, ids: seq<string>, now: int): (r: seq<Debt>)
    ensures |r| == |ds|
    ensures forall i :: 0 <= i < |ds| ==> r[i].id == ds[i].id
    ensures forall i :: 0 <= i < |ds| && ds[i].id !in ids ==> r[i] == ds[i]
  {
    Map(ds, (d: Debt) => if d.id in ids then MergeDebt(d, ReminderPatch(now), true) else d)
  }

  /** A debt whose id is stamped is updated as `updateLastReminderSent`
      does; every other debt is untouched. */
  lemma StampedDebtsMeaning(ds: seq<Debt>, ids: seq<string>, now: int, i: int)
    requires 0 <= i < |ds|
    ensures StampedDebts(ds, ids, now)[i] ==
      if ds[i].id in ids then MergeDebt(ds[i], ReminderPatch(now), true) else ds[i]
  {
  }

  /** Stamping one more id is one more syncing update. */
  lemma StampStep(ds: seq<Debt>, ids: seq<string>, id: string, now: int)
    ensures UpdatedDebts(StampedDebts(ds, ids, now), id, ReminderPatch(now), true) == StampedDebts(ds, ids + [id], now)
  {
    var a := UpdatedDebts(StampedDebts(ds, ids, now), id, ReminderPatch(now), true);
    var b := StampedDebts(ds, ids + [id], now);
    forall i | 0 <= i < |ds| ensures a[i] == b[i] {
      StampedDebtsMeaning(ds, ids, now, i);
      StampedDebtsMeaning(ds, ids + [id], now, i);
      MergeDebtMeaning(ds[i], ReminderPatch(now), true, None);
    }
  }

  function NoticeIds(ns: seq<Notification>): seq<string>
  {
    Map(ns, (n: Notification) => n.debtId)
  }

  /** The `k`-th notification is about the `k`-th debt and names its
      customer. */
  lemma NoticesMeaning(ds: seq<Debt>, cs: seq<Customer>, days: int, k: int)
    requires 0 <= k < |ds|
    ensures Notices(ds, cs, days)[k] == Notification(ds[k].id, CustomerName(cs, ds[k].customerId), days)
  {
  }

  lemma NoticesAppend(ds: seq<Debt>, d: Debt, cs: seq<Customer>, days: int)
    ensures Notices(ds + [d], cs, days) == Notices(ds, cs, days) + [Notification(d.id, CustomerName(cs, d.customerId), days)]
  {
  }

  lemma NoticeIdsAppend(ns: seq<Notification>, n: Notification)
    ensures NoticeIds(ns + [n]) == NoticeIds(ns) + [n.debtId]
  {
    assert (ns + [n])[..|ns|] == ns;
  }

  /** The first `n` notifications could all be scheduled. */
  predicate AllScheduled(n: nat, scheduleOk: nat -> bool)
  {
    n == 0 || (AllScheduled(n - 1, scheduleOk) && scheduleOk(n - 1))
  }

  lemma {:induction false} AllScheduledMeaning(n: nat, scheduleOk: nat -> bool)
    ensures AllScheduled(n, scheduleOk) <==> forall k :: 0 <= k < n ==> scheduleOk(k)
  {
    if n > 0 {
      AllScheduledMeaning(n - 1, scheduleOk);
    }
  }

  /** `updateLastReminderSent(id, now)` on a store whose debts are `debts`
      with `ids` stamped. */
  method Stamp(store: Store, debts: seq<Debt>, ids: seq<string>, id: string, now: int)
    requires store.debts == StampedDebts(debts, ids, now)
    modifies store
    ensures store.debts == StampedDebts(debts, ids + [id], now)
    ensures store.customers == old(store.customers) && store.payments == old(store.payments)
    ensures store.reminderSettings == old(store.reminderSettings)
  {
    StampStep(debts, ids, id, now);
    store.UpdateLastReminderSent(id, now);
  }

  /** Schedules the notification of the due `debt` and stamps it, unless
      scheduling fails, which leaves everything as it was. `prefix` holds the
      due debts notified so far. */
  method Notify(store: Store, debts: seq<Debt>, prefix: seq<Debt>, debt: Debt, customers: seq<Customer>,
                days: int, now: int, scheduleOk: nat -> bool, sent: seq<Notification>)
    returns (stop: bool, sent': seq<Notification>)
    requires sent == Notices(prefix, customers, days)
    requires store.debts == StampedDebts(debts, NoticeIds(sent), now)
    requires AllScheduled(|sent|, scheduleOk)
    modifies store
    ensures stop <==> !scheduleOk(|sent|)
    ensures stop ==> sent' == sent && store.debts == old(store.debts)
    ensures !stop ==> sent' == Notices(prefix + [debt], customers, days)
    ensures !stop ==> store.debts == StampedDebts(debts, NoticeIds(sent'), now)
    ensures AllScheduled(|sent'|, scheduleOk)
    ensures store.customers == old(store.customers) && store.payments == old(store.payments)
    ensures store.reminderSettings == old(store.reminderSettings)
  {
    var customerName := CustomerName(customers, debt.customerId);
    if !scheduleOk(|sent|) {
      return true, sent;
    }
    var n := Notification(debt.id, customerName, days);
    NoticeIdsAppend(sent, n);
    NoticesAppend(prefix, debt, customers, days);
    Stamp(store, debts, NoticeIds(sent), debt.id, now);
    sent' := sent + [n];
    stop := false;
  }

  /** One turn of the loop of the task: when the `i`-th unpaid debt is due,
      its notification is scheduled and the debt stamped, unless scheduling
      fails, which stops the scan with nothing more sent or stamped. */
  method Visit(store: Store, debts: seq<Debt>, unpaid: seq<Debt>, i: int, customers: seq<Customer>,
               days: int, now: int, scheduleOk: nat -> bool, sent: seq<Notification>)
    returns (stop: bool, sent': seq<Notification>)
    requires 0 <= i < |unpaid|
    requires sent == Notices(Due(unpaid[..i], days, now), customers, days)
    requires store.debts == StampedDebts(debts, NoticeIds(sent), now)
    requires AllScheduled(|sent|, scheduleOk)
    modifies store
    ensures stop ==> ShouldNotify(unpaid[i], days, now) && !scheduleOk(|sent|)
    ensures stop ==> sent' == sent && store.debts == old(store.debts)
    ensures !stop ==> sent' == Notices(Due(unpaid[..i + 1], days, now), customers, days)
    ensures !stop ==> store.debts == StampedDebts(debts, NoticeIds(sent'), now)
    ensures AllScheduled(|sent'|, scheduleOk)
    ensures store.customers == old(store.customers) && store.payments == old(store.payments)
    ensures store.reminderSettings == old(store.reminderSettings)
  {
    var debt := unpaid[i];
    DueStep(unpaid, i, days, now);
    var debtAge := now - debt.date;
    var isOverdue := debtAge > days * DAY_MS;
    var reminderAlreadySentToday := Truthy(debt.lastReminderSent) && now - debt.lastReminderSent.value < DAY_MS;
    if isOverdue && !reminderAlreadySentToday {
      stop, sent' := Notify(store, debts, Due(unpaid[..i], days, now), debt, customers, days, now, scheduleOk, sent);
    } else {
      stop, sent' := false, sent;
    }
  }

  /** The loop of the task over the unpaid debts of the snapshot: notifies
      and stamps each due debt in order, and stops at the first notification
      that cannot be scheduled. */
  method NotifyDue(store: Store, unpaid: seq<Debt>, customers: seq<Customer>, days: int, now: int, scheduleOk: nat -> bool)
    returns (failed: bool, sent: seq<Notification>)
    modifies store
    ensures Reported(Due(unpaid, days, now), customers, days, scheduleOk, failed, sent)
    ensures AllScheduled(|sent|, scheduleOk)
    ensures store.debts == StampedDebts(old(store.debts), NoticeIds(sent), now)
    ensures store.customers == old(store.customers) && store.payments == old(store.payments)
    ensures store.reminderSettings == old(store.reminderSettings)
  {
    var debts := store.debts;
    sent := [];
    var i := 0;
    while i < |unpaid|
      invariant 0 <= i <= |unpaid|
      invariant sent == Notices(Due(unpaid[..i], days, now), customers, days)
      invariant store.debts == StampedDebts(debts, NoticeIds(sent), now)
      invariant AllScheduled(|sent|, scheduleOk)
      invariant store.customers == old(store.customers) && store.payments == old(store.payments)
      invariant store.reminderSettings == old(store.reminderSettings)
    {
      var stop;
      stop, sent := Visit(store, debts, unpaid, i, customers, days, now, scheduleOk, sent);
      if stop {
        StoppedEarly(unpaid, i, customers, days, now, scheduleOk, sent);
        return true, sent;
      }
      i := i + 1;
    }
    assert unpaid[..i] == unpaid;
    Finished(Due(unpaid, days, now), customers, days, scheduleOk, sent);
    failed := false;
  }

  /** What the scan reports: `sent` holds the notifications of a prefix of
      the `due` debts, a proper one exactly when the scan `failed`, and it
      failed only where scheduling did. */
  predicate Reported(due: seq<Debt>, customers: seq<Customer>, days: int, scheduleOk: nat -> bool,
                     failed: bool, sent: seq<Notification>)
  {
    && |sent| <= |due|
    && sent == Notices(due[..|sent|], customers, days)
    && (failed <==> |sent| < |due|)
    && (failed ==> !scheduleOk(|sent|))
  }

  /** The notices sent before the scan stops at the due `i`-th debt are
      those of a proper prefix of the due debts. */
  lemma StoppedEarly(unpaid: seq<Debt>, i: int, customers: seq<Customer>, days: int, now: int,
                     scheduleOk: nat -> bool, sent: seq<Notification>)
    requires 0 <= i < |unpaid| && ShouldNotify(unpaid[i], days, now)
    requires sent == Notices(Due(unpaid[..i], days, now), customers, days)
    requires !scheduleOk(|sent|)
    ensures var due := Due(unpaid, days, now);
      |sent| < |due| && Reported(due, customers, days, scheduleOk, true, sent)
  {
    DueSplit(unpaid, i, days, now);
  }

  /** The notices of all the due debts are those of the whole due list. */
  lemma Finished(due: seq<Debt>, customers: seq<Customer>, days: int, scheduleOk: nat -> bool,
                 sent: seq<Notification>)
    requires sent == Notices(due, customers, days)
    ensures |sent| == |due| && Reported(due, customers, days, scheduleOk, false, sent)
  {
    assert due[..|sent|] == due;
  }

  /** Stamping changes only the reminder stamp and the sync status, so the
      cached payment fields stay consistent. */
  lemma ConsistentAfterStamping(ds: seq<Debt>, ids: seq<string>, ps: seq<Payment>, now: int)
    ensures Consistent(ds, ps) ==> Consistent(StampedDebts(ds, ids, now), ps)
  {
    if Consistent(ds, ps) {
      var r := StampedDebts(ds, ids, now);
      forall i | 0 <= i < |r|
        ensures r[i].id == ds[i].id && DebtConsistent(r[i], ps)
      {
        StampedDebtsMeaning(ds, ids, now, i);
        MergeDebtMeaning(ds[i], ReminderPatch(now), true, None);
      }
    }
  }

  /** The reminder task. When notifications are off it reports `NoData` and
      changes nothing. Otherwise it notifies the due debts in order, stamping
      each one right after its notification, and stops with `Failed` at the
      first notification that cannot be scheduled; it reports `NewData` when
      it notified at least one debt and `NoData` when none was due. */
  method ScanReminders(store: Store, now: int, scheduleOk: nat -> bool) returns (result: FetchResult, sent: seq<Notification>)
    modifies store
    ensures store.customers == old(store.customers) && store.payments == old(store.payments)
    ensures store.reminderSettings == old(store.reminderSettings)
    ensures !old(store.reminderSettings.overdueNotificationsEnabled) ==>
      result == NoData && sent == [] && store.debts == old(store.debts)
    ensures old(store.reminderSettings.overdueNotificationsEnabled) ==>
      var days := old(store.reminderSettings.overduePeriodDays);
      var due := DueDebts(old(store.debts), days, now);
      && |sent| <= |due|
      && sent == Notices(due[..|sent|], old(store.customers), days)
      && store.debts == StampedDebts(old(store.debts), NoticeIds(sent), now)
      && (forall k :: 0 <= k < |sent| ==> scheduleOk(k))
      && (result == Failed <==> |sent| < |due|)
      && (result == Failed ==> !scheduleOk(|sent|))
      && (result == NewData <==> |sent| == |due| && |due| > 0)
    ensures Consistent(old(store.debts), store.payments) ==> Consistent(store.debts, store.payments)
  {
    var settings := store.reminderSettings;
    if !settings.overdueNotificationsEnabled {
      return NoData, [];
    }
    var unpaid := Filter(store.debts, (d: Debt) => !d.isPaid);
    DueMembers(unpaid, settings.overduePeriodDays, now);
    var failed;
    failed, sent := NotifyDue(store, unpaid, store.customers, settings.overduePeriodDays, now, scheduleOk);
    ConsistentAfterStamping(old(store.debts), NoticeIds(sent), store.payments, now);
    AllScheduledMeaning(|sent|, scheduleOk);
    result := if failed then Failed else if |sent| > 0 then NewData else NoData;
  }

  /** When the scan stops at the `i`-th unpaid debt, which is due, the debts
      notified so far are a proper prefix of the due debts. */
  lemma DueSplit(unpaid: seq<Debt>, i: int, days: int, now: int)
    requires 0 <= i < |unpaid| && ShouldNotify(unpaid[i], days, now)
    ensures |Due(unpaid[..i], days, now)| < |Due(unpaid, days, now)|
    ensures Due(unpaid, days, now)[..|Due(unpaid[..i], days, now)|] == Due(unpaid[..i], days, now)
  {
    assert unpaid == unpaid[..i] + unpaid[i..];
    DueAppend(unpaid[..i], unpaid[i..], days, now);
    assert unpaid[i..] == [unpaid[i]] + unpaid[i + 1..];
    DueAppend([unpaid[i]], unpaid[i + 1..], days, now);
    assert Due([unpaid[i]], days, now) == [unpaid[i]];
  }

  /** A debt stamped at `now` (truthy) is not notified again for a day. */
  lemma StampBlocksForADay(d: Debt, days: int, now: int, later: int)
    requires now != 0 && now <= later < now + DAY_MS
    ensures !ShouldNotify(MergeDebt(d, ReminderPatch(now), true), days, later)
  {
  }

  /** The cooldown boundary: a stamp two hours old blocks the debt, one a
      day old or older does not. */
  lemma CooldownBoundary(d: Debt, days: int, now: int)
    requires now - d.date > days * DAY_MS
    ensures d.lastReminderSent == Some(now - 2 * 60 * 60 * 1000) && now - 2 * 60 * 60 * 1000 != 0 ==> !ShouldNotify(d, days, now)
    ensures d.lastReminderSent.Some? && now - d.lastReminderSent.value >= DAY_MS ==> ShouldNotify(d, days, now)
    ensures !Truthy(d.lastReminderSent) ==> ShouldNotify(d, days, now)
  {
  }

  /** The overdue test is strict: a debt exactly `days` days old is not yet
      notified, one a millisecond older is. */
  lemma OverdueBoundary(d: Debt, days: int, now: int)
    requires !Truthy(d.lastReminderSent)
    ensures now - d.date == days * DAY_MS ==> !ShouldNotify(d, days, now)
    ensures now - d.date == days * DAY_MS + 1 ==> ShouldNotify(d, days, now)
  {
  }

  /** The scan does not skip soft-deleted debts: an unpaid, overdue,
      unreminded debt is notified whether or not it was deleted. */
  lemma DeletedDebtsAreNotified(ds: seq<Debt>, d: Debt, days: int, now: int)
    requires d in ds && !d.isPaid && !d.IsLive() && ShouldNotify(d, days, now)
    ensures d in DueDebts(ds, days, now)
  {
  }
}
