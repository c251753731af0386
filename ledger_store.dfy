/** The write side of the ledger store: the record updates every action is
    built from, and the store itself as an object whose four collections the
    actions replace. Fresh ids and the clock are parameters (`freshId`,
    `now`). */
module LedgerStore {
  import opened LedgerTypes
  import opened SeqUtils
  import opened LedgerQueries

  // ---------------------------------------------------------------------
  // Record updates

  /** `{ ...customer, ...patch, sync_status: sync ? 'pending' : customer.sync_status }`.
      The id is never patched, and `sync_status` is written after the patch,
      so a status carried by the patch is overwritten. */
  function MergeCustomer(c: Customer, patch: CustomerPatch, sync: bool): (r: Customer)
    ensures r.id == c.id
    ensures r.syncStatus == if sync then Some(Pending) else c.syncStatus
    ensures r.name == (if patch.name.Set? then patch.name.value else c.name)
    ensures r.phone == (if patch.phone.Set? then patch.phone.value else c.phone)
    ensures r.createdAt == (if patch.createdAt.Set? then patch.createdAt.value else c.createdAt)
    ensures r.deletedAt == (if patch.deletedAt.Set? then patch.deletedAt.value else c.deletedAt)
  {
    Customer(
      c.id,
      Pick(patch.name, c.name),
      Pick(patch.phone, c.phone),
      Pick(patch.createdAt, c.createdAt),
      if sync then Some(Pending) else c.syncStatus,
      Pick(patch.deletedAt, c.deletedAt))
  }

  /** The debt counterpart of `MergeCustomer`. */
  function MergeDebt(d: Debt, patch: DebtPatch, sync: bool): (r: Debt)
    ensures r.id == d.id
    ensures r.syncStatus == if sync then Some(Pending) else d.syncStatus
    ensures r.customerId == (if patch.customerId.Set? then patch.customerId.value else d.customerId)
    ensures r.amount == (if patch.amount.Set? then patch.amount.value else d.amount)
    ensures r.amountPaid == (if patch.amountPaid.Set? then patch.amountPaid.value else d.amountPaid)
    ensures r.date == (if patch.date.Set? then patch.date.value else d.date)
    ensures r.notes == (if patch.notes.Set? then patch.notes.value else d.notes)
    ensures r.isPaid == (if patch.isPaid.Set? then patch.isPaid.value else d.isPaid)
    ensures r.paidAt == (if patch.paidAt.Set? then patch.paidAt.value else d.paidAt)
    ensures r.reminderDate == (if patch.reminderDate.Set? then patch.reminderDate.value else d.reminderDate)
    ensures r.deletedAt == (if patch.deletedAt.Set? then patch.deletedAt.value else d.deletedAt)
    ensures r.lastReminderSent == (if patch.lastReminderSent.Set? then patch.lastReminderSent.value else d.lastReminderSent)
  {
    Debt(
      d.id,
      Pick(patch.customerId, d.customerId),
      Pick(patch.amount, d.amount),
      Pick(patch.amountPaid, d.amountPaid),
      Pick(patch.date, d.date),
      Pick(patch.notes, d.notes),
      Pick(patch.isPaid, d.isPaid),
      Pick(patch.paidAt, d.paidAt),
      Pick(patch.reminderDate, d.reminderDate),
      Pick(patch.lastReminderSent, d.lastReminderSent),
      if sync then Some(Pending) else d.syncStatus,
      Pick(patch.deletedAt, d.deletedAt))
  }

  /** `{ ...state.reminderSettings, ...settings }`. */
  function MergeSettings(s: ReminderSettings, patch: SettingsPatch): (r: ReminderSettings)
    ensures patch == SettingsPatch(Keep, Keep, Keep, Keep, Keep, Keep) ==> r == s
    ensures r.enabled == (if patch.enabled.Set? then patch.enabled.value else s.enabled)
    ensures r.shopName == (if patch.shopName.Set? then patch.shopName.value else s.shopName)
    ensures r.reminderMessage == (if patch.reminderMessage.Set? then patch.reminderMessage.value else s.reminderMessage)
    ensures r.autoOpenSms == (if patch.autoOpenSms.Set? then patch.autoOpenSms.value else s.autoOpenSms)
    ensures r.overdueNotificationsEnabled ==
      (if patch.overdueNotificationsEnabled.Set? then patch.overdueNotificationsEnabled.value else s.overdueNotificationsEnabled)
    ensures r.overduePeriodDays == (if patch.overduePeriodDays.Set? then patch.overduePeriodDays.value else s.overduePeriodDays)
  {
    ReminderSettings(
      Pick(patch.enabled, s.enabled),
      Pick(patch.shopName, s.shopName),
      Pick(patch.reminderMessage, s.reminderMessage),
      Pick(patch.autoOpenSms, s.autoOpenSms),
      Pick(patch.overdueNotificationsEnabled, s.overdueNotificationsEnabled),
      Pick(patch.overduePeriodDays, s.overduePeriodDays))
  }

  /** What a merge does with the sync marker: `pending` when syncing, the old
      marker otherwise, and the patch's own marker never. Merging the same
      patch twice is merging it once. */
  lemma MergeCustomerMeaning(c: Customer, patch: CustomerPatch, sync: bool, status: Option<SyncStatus>)
    ensures MergeCustomer(c, patch, sync).id == c.id
    ensures MergeCustomer(c, patch, sync).syncStatus == if sync then Some(Pending) else c.syncStatus
    ensures MergeCustomer(c, patch.(syncStatus := Set(status)), sync) == MergeCustomer(c, patch, sync)
    ensures MergeCustomer(MergeCustomer(c, patch, sync), patch, sync) == MergeCustomer(c, patch, sync)
    ensures MergeCustomer(c, EMPTY_CUSTOMER_PATCH, false) == c
  {
  }

  /** The debt counterpart of `MergeCustomerMeaning`. */
  lemma MergeDebtMeaning(d: Debt, patch: DebtPatch, sync: bool, status: Option<SyncStatus>)
    ensures MergeDebt(d, patch, sync).id == d.id
    ensures MergeDebt(d, patch, sync).syncStatus == if sync then Some(Pending) else d.syncStatus
    ensures MergeDebt(d, patch.(syncStatus := Set(status)), sync) == MergeDebt(d, patch, sync)
    ensures MergeDebt(MergeDebt(d, patch, sync), patch, sync) == MergeDebt(d, patch, sync)
    ensures MergeDebt(d, EMPTY_DEBT_PATCH, false) == d
  {
  }

  /** An empty settings patch changes nothing, a patch applied twice is
      applied once, and for every key a value set by a `later` patch wins
      over the earlier one. */
  lemma MergeSettingsMeaning(s: ReminderSettings, patch: SettingsPatch, later: SettingsPatch)
    ensures MergeSettings(s, SettingsPatch(Keep, Keep, Keep, Keep, Keep, Keep)) == s
    ensures MergeSettings(MergeSettings(s, patch), patch) == MergeSettings(s, patch)
    ensures var r := MergeSettings(MergeSettings(s, patch), later);
      && (later.enabled.Set? ==> r.enabled == later.enabled.value)
      && (later.shopName.Set? ==> r.shopName == later.shopName.value)
      && (later.reminderMessage.Set? ==> r.reminderMessage == later.reminderMessage.value)
      && (later.autoOpenSms.Set? ==> r.autoOpenSms == later.autoOpenSms.value)
      && (later.overdueNotificationsEnabled.Set? ==> r.overdueNotificationsEnabled == later.overdueNotificationsEnabled.value)
      && (later.overduePeriodDays.Set? ==> r.overduePeriodDays == later.overduePeriodDays.value)
  {
  }

  /** `customers.map(c => c.id === id ? merge(c) : c)`: every customer with
      the id is merged, all others are kept as they are. */
  function UpdatedCustomers(cs: seq<Customer>, id: string, patch: CustomerPatch, sync: bool): (r: seq<Customer>)
    ensures |r| == |cs|
    ensures forall i :: 0 <= i < |cs| && cs[i].id != id ==> r[i] == cs[i]
    ensures forall i :: 0 <= i < |cs| && cs[i].id == id ==> r[i] == MergeCustomer(cs[i], patch, sync)
  {
    Map(cs, (c: Customer) => if c.id == id then MergeCustomer(c, patch, sync) else c)
  }

  /** `debts.map(d => d.id === id ? merge(d) : d)`. */
  function UpdatedDebts(ds: seq<Debt>, id: string, patch: DebtPatch, sync: bool): (r: seq<Debt>)
    ensures |r| == |ds|
    ensures forall i :: 0 <= i < |ds| && ds[i].id != id ==> r[i] == ds[i]
    ensures forall i :: 0 <= i < |ds| && ds[i].id == id ==> r[i] == MergeDebt(ds[i], patch, sync)
  {
    Map(ds, (d: Debt) => if d.id == id then MergeDebt(d, patch, sync) else d)
  }

  /** An update of an id nobody has changes nothing; an update applied twice
      is applied once. */
  lemma UpdatedCustomersMeaning(cs: seq<Customer>, id: string, patch: CustomerPatch, sync: bool)
    ensures (forall c :: c in cs ==> c.id != id) ==> UpdatedCustomers(cs, id, patch, sync) == cs
    ensures UpdatedCustomers(UpdatedCustomers(cs, id, patch, sync), id, patch, sync) == UpdatedCustomers(cs, id, patch, sync)
  {
    var r := UpdatedCustomers(cs, id, patch, sync);
    var rr := UpdatedCustomers(r, id, patch, sync);
    forall i | 0 <= i < |cs| ensures rr[i] == r[i] {
      MergeCustomerMeaning(cs[i], patch, sync, None);
    }
  }

  /** The debt counterpart of `UpdatedCustomersMeaning`. */
  lemma UpdatedDebtsMeaning(ds: seq<Debt>, id: string, patch: DebtPatch, sync: bool)
    ensures (forall d :: d in ds ==> d.id != id) ==> UpdatedDebts(ds, id, patch, sync) == ds
    ensures UpdatedDebts(UpdatedDebts(ds, id, patch, sync), id, patch, sync) == UpdatedDebts(ds, id, patch, sync)
  {
    var r := UpdatedDebts(ds, id, patch, sync);
    var rr := UpdatedDebts(r, id, patch, sync);
    forall i | 0 <= i < |ds| ensures rr[i] == r[i] {
      MergeDebtMeaning(ds[i], patch, sync, None);
    }
  }

  /** An update without syncing whose patch carries only a sync status leaves
      the collection exactly as it was: the status is overwritten by the old
      one. This is what the status write-backs of the synchroniser amount to. */
  lemma StatusOnlyUpdateIsIdentity(cs: seq<Customer>, ds: seq<Debt>, id: string, status: Option<SyncStatus>)
    ensures UpdatedCustomers(cs, id, EMPTY_CUSTOMER_PATCH.(syncStatus := Set(status)), false) == cs
    ensures UpdatedDebts(ds, id, EMPTY_DEBT_PATCH.(syncStatus := Set(status)), false) == ds
  {
    var rc := UpdatedCustomers(cs, id, EMPTY_CUSTOMER_PATCH.(syncStatus := Set(status)), false);
    forall i | 0 <= i < |cs| ensures rc[i] == cs[i] {
      MergeCustomerMeaning(cs[i], EMPTY_CUSTOMER_PATCH, false, status);
    }
    var rd := UpdatedDebts(ds, id, EMPTY_DEBT_PATCH.(syncStatus := Set(status)), false);
    forall i | 0 <= i < |ds| ensures rd[i] == ds[i] {
      MergeDebtMeaning(ds[i], EMPTY_DEBT_PATCH, false, status);
    }
  }

  // ---------------------------------------------------------------------
  // Soft deletion

  /** `{ ...x, deleted_at: Date.now(), sync_status: 'pending' }` as a patch. */
  function DeletePatchCustomer(now: int): CustomerPatch
  {
    EMPTY_CUSTOMER_PATCH.(deletedAt := Set(Some(now)))
  }

  function DeletePatchDebt(now: int): DebtPatch
  {
    EMPTY_DEBT_PATCH.(deletedAt := Set(Some(now)))
  }

  /** The debts of `deleteCustomer`: every debt of the customer is marked,
      whatever its own id. */
  function DebtsOfCustomerDeleted(ds: seq<Debt>, customerId: string, now: int): (r: seq<Debt>)
    ensures |r| == |ds|
    ensures forall i :: 0 <= i < |ds| && ds[i].customerId != customerId ==> r[i] == ds[i]
    ensures forall i :: 0 <= i < |ds| && ds[i].customerId == customerId ==> r[i] == MergeDebt(ds[i], DeletePatchDebt(now), true)
  {
    Map(ds, (d: Debt) => if d.customerId == customerId then MergeDebt(d, DeletePatchDebt(now), true) else d)
  }

  /** With a truthy clock, `deleteCustomer` hides the customer from
      `getCustomer` and every one of its debts from `getCustomerDebts`, and
      keeps each record (nothing is removed). */
  lemma DeleteCustomerHides(cs: seq<Customer>, ds: seq<Debt>, id: string, now: int)
    requires now != 0
    ensures GetCustomer(UpdatedCustomers(cs, id, DeletePatchCustomer(now), true), id) == None
    ensures CustomerDebts(DebtsOfCustomerDeleted(ds, id, now), id) == []
  {
    FilterNone(DebtsOfCustomerDeleted(ds, id, now), (d: Debt) => d.customerId == id && d.IsLive());
  }

  /** With a truthy clock, `deleteDebt` hides the debt from `getDebt`. */
  lemma DeleteDebtHides(ds: seq<Debt>, id: string, now: int)
    requires now != 0
    ensures GetDebt(UpdatedDebts(ds, id, DeletePatchDebt(now), true), id) == None
  {
  }

  /** `getDebt` skips soft-deleted debts but the lookup of `addPayment` does
      not, so a payment recorded against a deleted debt still updates it. */
  lemma LookupsDisagreeOnDeleted(ds: seq<Debt>, d: Debt)
    requires d in ds && !d.IsLive()
    requires forall e :: e in ds && e.id == d.id ==> e == d
    ensures GetDebt(ds, d.id) == None
    ensures FindDebt(ds, d.id) == Some(d)
  {
  }

  // ---------------------------------------------------------------------
  // Payments

  /** The fields `addPayment` writes into the paid debt. */
  function SettlePatch(total: int, full: bool, now: int): (p: DebtPatch)
    ensures p.amountPaid == Set(total) && p.isPaid == Set(full)
    ensures p.paidAt.Set? && (p.paidAt.value.Some? <==> full)
    ensures p.customerId.Keep? && p.amount.Keep? && p.deletedAt.Keep? && p.lastReminderSent.Keep?
  {
    EMPTY_DEBT_PATCH.(amountPaid := Set(total), isPaid := Set(full), paidAt := Set(if full then Some(now) else None))
  }

  /** The debts after `addPayment`, given the payments including the new one:
      when some debt (deleted or not) carries the id, every debt with the id
      gets the new total, and is paid exactly when the total reaches the
      principal of the first of them. */
  function SettledDebts(ds: seq<Debt>, newPayments: seq<Payment>, debtId: string, now: int): (r: seq<Debt>)
    ensures |r| == |ds|
    ensures FindDebt(ds, debtId).None? ==> r == ds
    ensures forall i :: 0 <= i < |ds| && ds[i].id != debtId ==> r[i] == ds[i]
  {
    match FindDebt(ds, debtId)
    case None => ds
    case Some(first) =>
      var total := PaidTotal(newPayments, debtId);
      UpdatedDebts(ds, debtId, SettlePatch(total, total >= first.amount, now), true)
  }

  /** What `addPayment` writes into each debt carrying the id, when there is
      one: the new total, paid when it reaches the principal of the first
      such debt, the paid time `now` exactly then, and status pending; every
      other field is kept. */
  lemma SettledDebtsMeaning(ds: seq<Debt>, newPayments: seq<Payment>, debtId: string, now: int, i: int)
    requires 0 <= i < |ds|
    ensures FindDebt(ds, debtId).Some? && ds[i].id == debtId ==>
      var total := PaidTotal(newPayments, debtId);
      var full := total >= FindDebt(ds, debtId).value.amount;
      SettledDebts(ds, newPayments, debtId, now)[i]
        == ds[i].(amountPaid := total, isPaid := full, paidAt := if full then Some(now) else None,
                  syncStatus := Some(Pending))
  {
  }

  /** The cached payment fields of a debt agree with the payment records. */
  predicate DebtConsistent(d: Debt, ps: seq<Payment>)
  {
    && d.amountPaid == PaidTotal(ps, d.id)
    && d.isPaid == (d.amountPaid >= d.amount)
    && d.isPaid == d.paidAt.Some?
  }

  /** Debt ids are distinct and every debt's cached fields are consistent. */
  predicate Consistent(ds: seq<Debt>, ps: seq<Payment>)
  {
    DistinctDebtIds(ds) && forall i :: 0 <= i < |ds| ==> DebtConsistent(ds[i], ps)
  }

  /** `addPayment` keeps the cached fields consistent with the records. */
  lemma SettledDebtsConsistent(ds: seq<Debt>, ps: seq<Payment>, p: Payment, now: int)
    requires Consistent(ds, ps)
    ensures Consistent(SettledDebts(ds, ps + [p], p.debtId, now), ps + [p])
  {
    var r := SettledDebts(ds, ps + [p], p.debtId, now);
    forall i | 0 <= i < |r| ensures r[i].id == ds[i].id && DebtConsistent(r[i], ps + [p]) {
      SettledDebtConsistent(ds, ps, p, now, i);
    }
  }

  /** The `i`-th debt after `addPayment` keeps its id and is consistent with
      the payments including the new one. */
  lemma SettledDebtConsistent(ds: seq<Debt>, ps: seq<Payment>, p: Payment, now: int, i: int)
    requires Consistent(ds, ps) && 0 <= i < |ds|
    ensures |SettledDebts(ds, ps + [p], p.debtId, now)| == |ds|
    ensures SettledDebts(ds, ps + [p], p.debtId, now)[i].id == ds[i].id
    ensures SettledDebts(ds, ps + [p], p.debtId, now)[i].amount == ds[i].amount
    ensures DebtConsistent(SettledDebts(ds, ps + [p], p.debtId, now)[i], ps + [p])
  {
    PaidTotalAppend(ps, p, ds[i].id);
    if ds[i].id == p.debtId {
      var first := FindDebt(ds, p.debtId).value;
      var j :| 0 <= j < |ds| && ds[j] == first;
      assert j == i;
      var total := PaidTotal(ps + [p], p.debtId);
      SettlePatchMeaning(ds[i], total, total >= first.amount, now);
    }
  }

  /** The settling patch writes the total, the paid flag and the paid date,
      and keeps the id and the principal. */
  lemma SettlePatchMeaning(d: Debt, total: int, full: bool, now: int)
    ensures var e := MergeDebt(d, SettlePatch(total, full, now), true);
      && e.id == d.id && e.amount == d.amount && e.amountPaid == total
      && e.isPaid == full && e.paidAt == (if full then Some(now) else None)
  {
  }

  /** A payment of the whole remaining amount settles the debt: afterwards
      every debt with its id is paid and has nothing left to pay. */
  lemma FullPaymentSettles(ds: seq<Debt>, ps: seq<Payment>, d: Debt, p: Payment, now: int)
    requires Consistent(ds, ps) && d in ds
    requires p.debtId == d.id && p.amount == RemainingAmount(d, ps) && p.amount > 0
    ensures forall e :: e in SettledDebts(ds, ps + [p], d.id, now) && e.id == d.id ==>
      e.isPaid && RemainingAmount(e, ps + [p]) == 0
  {
    var r := SettledDebts(ds, ps + [p], d.id, now);
    forall e | e in r && e.id == d.id ensures e.isPaid && RemainingAmount(e, ps + [p]) == 0 {
      var i :| 0 <= i < |r| && r[i] == e;
      FullPaymentSettlesAt(ds, ps, d, p, now, i);
    }
  }

  /** The `FullPaymentSettles` step for the debt at index `i`. */
  lemma FullPaymentSettlesAt(ds: seq<Debt>, ps: seq<Payment>, d: Debt, p: Payment, now: int, i: int)
    requires Consistent(ds, ps) && d in ds
    requires p.debtId == d.id && p.amount == RemainingAmount(d, ps) && p.amount > 0
    requires 0 <= i < |ds|
    ensures var e := SettledDebts(ds, ps + [p], d.id, now)[i];
      e.id == d.id ==> e.isPaid && RemainingAmount(e, ps + [p]) == 0
  {
    SettledDebtConsistent(ds, ps, p, now, i);
    if ds[i].id == d.id {
      PaidTotalAppend(ps, p, d.id);
      var k :| 0 <= k < |ds| && ds[k] == d;
      assert k == i;
    }
  }

  /** A consistent debt with nothing left to pay is already marked paid, so
      the second branch of `markDebtAsPaid` only fires on inconsistent state. */
  lemma NothingLeftMeansPaid(d: Debt, ps: seq<Payment>)
    requires DebtConsistent(d, ps)
    ensures RemainingAmount(d, ps) == 0 <==> d.isPaid
  {
  }

  /** The fields `markDebtAsPaid` writes when nothing is left to pay. */
  function PaidPatch(now: int): DebtPatch
  {
    EMPTY_DEBT_PATCH.(isPaid := Set(true), paidAt := Set(Some(now)))
  }

  /** The second branch of `markDebtAsPaid` only marks the debt paid at
      `now` and pending; principal, payments total and every other field
      stay. */
  lemma PaidPatchMeaning(d: Debt, now: int)
    ensures MergeDebt(d, PaidPatch(now), true) == d.(isPaid := true, paidAt := Some(now), syncStatus := Some(Pending))
  {
  }

  /** The note of the payment `markDebtAsPaid` records. */
  const FULL_PAYMENT_NOTE: string := "تسديد الدين بالكامل"

  /** The number of months `getPaymentTrends` reports when it is given none. */
  const DEFAULT_TREND_MONTHS: nat := 6

  /** Recording a reminder or soft-deleting a debt does not touch the payment
      fields, so it keeps the store consistent. */
  lemma UntouchedPaymentFieldsConsistent(ds: seq<Debt>, ps: seq<Payment>, id: string, patch: DebtPatch, sync: bool)
    requires Consistent(ds, ps)
    requires patch.amount.Keep? && patch.amountPaid.Keep? && patch.isPaid.Keep? && patch.paidAt.Keep?
    ensures Consistent(UpdatedDebts(ds, id, patch, sync), ps)
  {
    var r := UpdatedDebts(ds, id, patch, sync);
    assert forall i :: 0 <= i < |ds| ==> r[i].id == ds[i].id;
    forall i | 0 <= i < |r| ensures DebtConsistent(r[i], ps) {
      assert r[i].id == ds[i].id;
    }
  }

  /** `deleteCustomer` keeps the store consistent. */
  lemma CustomerDeletionConsistent(ds: seq<Debt>, ps: seq<Payment>, customerId: string, now: int)
    requires Consistent(ds, ps)
    ensures Consistent(DebtsOfCustomerDeleted(ds, customerId, now), ps)
  {
    var r := DebtsOfCustomerDeleted(ds, customerId, now);
    assert forall i :: 0 <= i < |ds| ==> r[i].id == ds[i].id;
    forall i | 0 <= i < |r| ensures DebtConsistent(r[i], ps) {
      assert r[i].id == ds[i].id;
    }
  }

  /** What `deleteCustomer` guarantees, in one place: consistency is kept
      and, with a truthy clock, the customer and its debts are hidden. */
  lemma DeleteCustomerEffects(cs: seq<Customer>, ds: seq<Debt>, ps: seq<Payment>, id: string, now: int)
    ensures Consistent(ds, ps) ==> Consistent(DebtsOfCustomerDeleted(ds, id, now), ps)
    ensures now != 0 ==> GetCustomer(UpdatedCustomers(cs, id, DeletePatchCustomer(now), true), id) == None
    ensures now != 0 ==> CustomerDebts(DebtsOfCustomerDeleted(ds, id, now), id) == []
  {
    if Consistent(ds, ps) {
      CustomerDeletionConsistent(ds, ps, id, now);
    }
    if now != 0 {
      DeleteCustomerHides(cs, ds, id, now);
    }
  }

  /** A new debt with a fresh id, no payments recorded under that id and a
      positive principal keeps the store consistent. A principal of zero or
      less would be recorded unpaid although nothing is owed. */
  lemma NewDebtConsistent(ds: seq<Debt>, ps: seq<Payment>, d: Debt)
    requires Consistent(ds, ps)
    requires forall e :: e in ds ==> e.id != d.id
    requires forall p :: p in ps ==> p.debtId != d.id
    requires d.amountPaid == 0 && !d.isPaid && d.paidAt == None && d.amount > 0
    ensures Consistent(ds + [d], ps)
  {
    FilterNone(ps, (p: Payment) => p.debtId == d.id);
  }

  // ---------------------------------------------------------------------
  // The store

  /** One month of `getPaymentTrends`: its year, its 1-based month, and its
      first and last instants, all as the device calendar gives them. */
  datatype MonthSpan = MonthSpan(year: int, month: int, start: int, end: int)

  function TrendFor(m: MonthSpan, ps: seq<Payment>): PaymentTrend
  {
    var report := MonthlyCollectedReport(ps, m.start, m.end);
    PaymentTrend(m.year, m.month, report.totalCollected, report.paymentsCount)
  }

  /** The store: four collections every action replaces as a whole. */
  class Store {
    var customers: seq<Customer>
    var debts: seq<Debt>
    var payments: seq<Payment>
    var reminderSettings: ReminderSettings

    /** The initial state: empty collections and the default settings. */
    constructor()
      ensures customers == [] && debts == [] && payments == []
      ensures reminderSettings == DEFAULT_SETTINGS
    {
      customers := [];
      debts := [];
      payments := [];
      reminderSettings := DEFAULT_SETTINGS;
    }

    /** `addCustomer`: appends a pending customer created now and returns it.
        A live customer with a fresh id is what `getCustomer` then finds. */
    method AddCustomer(name: string, phone: string, deletedAt: Option<int>, freshId: string, now: int) returns (c: Customer)
      modifies this
      ensures c == Customer(freshId, name, phone, now, Some(Pending), deletedAt)
      ensures customers == old(customers) + [c]
      ensures debts == old(debts) && payments == old(payments) && reminderSettings == old(reminderSettings)
      ensures (forall x :: x in old(customers) ==> x.id != freshId) && c.IsLive() ==>
        GetCustomer(customers, freshId) == Some(c)
    {
      c := Customer(freshId, name, phone, now, Some(Pending), deletedAt);
      customers := customers + [c];
    }

    /** `updateCustomer`. */
    method UpdateCustomer(id: string, patch: CustomerPatch, sync: bool)
      modifies this
      ensures customers == UpdatedCustomers(old(customers), id, patch, sync)
      ensures debts == old(debts) && payments == old(payments) && reminderSettings == old(reminderSettings)
    {
      customers := UpdatedCustomers(customers, id, patch, sync);
    }

    /** `deleteCustomer`: soft-deletes the customer and every one of its debts. */
    method DeleteCustomer(id: string, now: int)
      modifies this
      ensures customers == UpdatedCustomers(old(customers), id, DeletePatchCustomer(now), true)
      ensures debts == DebtsOfCustomerDeleted(old(debts), id, now)
      ensures payments == old(payments) && reminderSettings == old(reminderSettings)
      ensures Consistent(old(debts), payments) ==> Consistent(debts, payments)
      ensures now != 0 ==> GetCustomer(customers, id) == None && CustomerDebts(debts, id) == []
    {
      DeleteCustomerEffects(customers, debts, payments, id, now);
      customers := UpdatedCustomers(customers, id, DeletePatchCustomer(now), true);
      debts := DebtsOfCustomerDeleted(debts, id, now);
    }

    /** `addDebt`: appends a pending, unpaid debt with nothing paid. */
    method AddDebt(customerId: string, amount: int, date: int, notes: string, reminderDate: Option<int>,
                   deletedAt: Option<int>, freshId: string)
      modifies this
      ensures debts == old(debts) + [Debt(freshId, customerId, amount, 0, date, notes, false, None, reminderDate, None, Some(Pending), deletedAt)]
      ensures customers == old(customers) && payments == old(payments) && reminderSettings == old(reminderSettings)
      ensures && Consistent(old(debts), payments) && amount > 0
              && (forall e :: e in old(debts) ==> e.id != freshId)
              && (forall p :: p in payments ==> p.debtId != freshId)
              ==> Consistent(debts, payments)
    {
      var d := Debt(freshId, customerId, amount, 0, date, notes, false, None, reminderDate, None, Some(Pending), deletedAt);
      if && Consistent(debts, payments) && amount > 0
         && (forall e :: e in debts ==> e.id != freshId)
         && (forall p :: p in payments ==> p.debtId != freshId)
      {
        NewDebtConsistent(debts, payments, d);
      }
      debts := debts + [d];
    }

    /** `updateDebt`. A patch that sets the principal or a cached payment
        field can break `Consistent`; one that leaves them alone keeps it. */
    method UpdateDebt(id: string, patch: DebtPatch, sync: bool)
      modifies this
      ensures debts == UpdatedDebts(old(debts), id, patch, sync)
      ensures customers == old(customers) && payments == old(payments) && reminderSettings == old(reminderSettings)
      ensures && Consistent(old(debts), payments)
              && patch.amount.Keep? && patch.amountPaid.Keep? && patch.isPaid.Keep? && patch.paidAt.Keep?
              ==> Consistent(debts, payments)
    {
      if && Consistent(debts, payments)
         && patch.amount.Keep? && patch.amountPaid.Keep? && patch.isPaid.Keep? && patch.paidAt.Keep?
      {
        UntouchedPaymentFieldsConsistent(debts, payments, id, patch, sync);
      }
      debts := UpdatedDebts(debts, id, patch, sync);
    }

    /** `deleteDebt`. */
    method DeleteDebt(id: string, now: int)
      modifies this
      ensures debts == UpdatedDebts(old(debts), id, DeletePatchDebt(now), true)
      ensures customers == old(customers) && payments == old(payments) && reminderSettings == old(reminderSettings)
      ensures Consistent(old(debts), payments) ==> Consistent(debts, payments)
      ensures now != 0 ==> GetDebt(debts, id) == None
    {
      if Consistent(debts, payments) {
        UntouchedPaymentFieldsConsistent(debts, payments, id, DeletePatchDebt(now), true);
      }
      if now != 0 {
        DeleteDebtHides(debts, id, now);
      }
      debts := UpdatedDebts(debts, id, DeletePatchDebt(now), true);
    }

    /** `addPayment`: appends a pending payment and, when a debt carries its
        debt id, refreshes that debt's cached fields from the records. */
    method AddPayment(debtId: string, amount: int, date: int, notes: Option<string>, freshId: string, now: int)
      modifies this
      ensures payments == old(payments) + [Payment(freshId, debtId, amount, date, notes, Some(Pending))]
      ensures debts == SettledDebts(old(debts), payments, debtId, now)
      ensures customers == old(customers) && reminderSettings == old(reminderSettings)
      ensures Consistent(old(debts), old(payments)) ==> Consistent(debts, payments)
    {
      var p := Payment(freshId, debtId, amount, date, notes, Some(Pending));
      if Consistent(debts, payments) {
        SettledDebtsConsistent(debts, payments, p, now);
      }
      payments := payments + [p];
      debts := SettledDebts(debts, payments, debtId, now);
    }

    /** `markDebtAsPaid`: for a live debt, records a payment of whatever is
        left, or, when nothing is left but the debt is not marked paid, marks
        it paid. On a consistent store the debt ends up paid with nothing
        left to pay. */
    method MarkDebtAsPaid(debtId: string, freshId: string, now: int)
      modifies this
      ensures customers == old(customers) && reminderSettings == old(reminderSettings)
      ensures GetDebt(old(debts), debtId).None? ==> debts == old(debts) && payments == old(payments)
      ensures GetDebt(old(debts), debtId).Some? && RemainingAmount(GetDebt(old(debts), debtId).value, old(payments)) > 0 ==>
        && payments == old(payments) + [Payment(freshId, debtId, RemainingAmount(GetDebt(old(debts), debtId).value, old(payments)),
                                                now, Some(FULL_PAYMENT_NOTE), Some(Pending))]
        && debts == SettledDebts(old(debts), payments, debtId, now)
      ensures GetDebt(old(debts), debtId).Some? && RemainingAmount(GetDebt(old(debts), debtId).value, old(payments)) == 0 ==>
        && payments == old(payments)
        && debts == if GetDebt(old(debts), debtId).value.isPaid then old(debts)
                    else UpdatedDebts(old(debts), debtId, PaidPatch(now), true)
      ensures Consistent(old(debts), old(payments)) ==> Consistent(debts, payments)
      ensures Consistent(old(debts), old(payments)) && GetDebt(old(debts), debtId).Some? ==>
        forall e :: e in debts && e.id == debtId ==> e.isPaid && RemainingAmount(e, payments) == 0
    {
      var found := GetDebt(debts, debtId);
      if found.None? {
        return;
      }
      var d := found.value;
      var remaining := RemainingAmount(d, payments);
      if remaining > 0 {
        var p := Payment(freshId, debtId, remaining, now, Some(FULL_PAYMENT_NOTE), Some(Pending));
        if Consistent(debts, payments) {
          FullPaymentSettles(debts, payments, d, p, now);
        }
        AddPayment(debtId, remaining, now, Some(FULL_PAYMENT_NOTE), freshId, now);
      } else if !d.isPaid {
        if Consistent(debts, payments) {
          assert false;
        }
        UpdateDebt(debtId, PaidPatch(now), true);
      } else {
        if Consistent(debts, payments) {
          forall e | e in debts && e.id == debtId ensures e.isPaid && RemainingAmount(e, payments) == 0 {
            var i :| 0 <= i < |debts| && debts[i] == e;
            var k :| 0 <= k < |debts| && debts[k] == d;
            assert i == k;
          }
        }
      }
    }

    /** `updateReminderSettings`. */
    method UpdateReminderSettings(patch: SettingsPatch)
      modifies this
      ensures reminderSettings == MergeSettings(old(reminderSettings), patch)
      ensures customers == old(customers) && debts == old(debts) && payments == old(payments)
    {
      reminderSettings := MergeSettings(reminderSettings, patch);
    }

    /** `updateLastReminderSent`: a syncing update of the debt's reminder
        stamp, which keeps the store consistent. */
    method UpdateLastReminderSent(debtId: string, timestamp: int)
      modifies this
      ensures debts == UpdatedDebts(old(debts), debtId, EMPTY_DEBT_PATCH.(lastReminderSent := Set(Some(timestamp))), true)
      ensures customers == old(customers) && payments == old(payments) && reminderSettings == old(reminderSettings)
      ensures Consistent(old(debts), payments) ==> Consistent(debts, payments)
    {
      var patch := EMPTY_DEBT_PATCH.(lastReminderSent := Set(Some(timestamp)));
      if Consistent(debts, payments) {
        UntouchedPaymentFieldsConsistent(debts, payments, debtId, patch, true);
      }
      UpdateDebt(debtId, patch, true);
    }

    /** `getPaymentTrends(months)`: `calendar[i]` is the month `i` months
        back; the result lists the last `months` months, oldest first, each
        with its monthly report. */
    method PaymentTrends(calendar: seq<MonthSpan>, months: int := DEFAULT_TREND_MONTHS) returns (trends: seq<PaymentTrend>)
      requires months <= |calendar|
      ensures |trends| == if months > 0 then months else 0
      ensures forall k :: 0 <= k < |trends| ==> trends[k] == TrendFor(calendar[|trends| - 1 - k], payments)
    {
      trends := [];
      var i := months - 1;
      while i >= 0
        invariant i < months
        invariant i < -1 ==> trends == [] && months <= 0
        invariant i >= -1 ==> |trends| == months - 1 - i
        invariant forall k :: 0 <= k < |trends| ==> trends[k] == TrendFor(calendar[months - 1 - k], payments)
      {
        trends := trends + [TrendFor(calendar[i], payments)];
        i := i - 1;
      }
    }
  }
}
