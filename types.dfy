/** The shapes of the ledger's records. Amounts are whole dinars and
    timestamps are epoch milliseconds, both as unbounded integers. */
module LedgerTypes {

  datatype Option<+T> = None | Some(value: T)

  /** `sync_status` is optional and three-valued: `None` (absent) is a state
      of its own, distinct from `Some(Pending)`. */
  datatype SyncStatus = Pending | Synced | Error

  /** Milliseconds in a day. */
  const DAY_MS: int := 24 * 60 * 60 * 1000

  /** JavaScript truthiness of an optional timestamp: an absent value and 0
      are both falsy. This is how `deleted_at`, `last_reminder_sent` and
      `paid_at` are tested by the ledger code. */
  predicate Truthy(t: Option<int>)
  {
    t.Some? && t.value != 0
  }

  datatype Customer = Customer(
    id: string,
    name: string,
    phone: string,
    createdAt: int,
    syncStatus: Option<SyncStatus>,
    deletedAt: Option<int>)   // soft-delete marker
  {
    /** Not soft-deleted (`!customer.deleted_at`). */
    predicate IsLive()
    {
      !Truthy(deletedAt)
    }
  }

  /** A payment has no soft-delete marker. */
  datatype Payment = Payment(
    id: string,
    debtId: string,
    amount: int,
    date: int,
    notes: Option<string>,
    syncStatus: Option<SyncStatus>)

  datatype Debt = Debt(
    id: string,
    customerId: string,
    amount: int,              // the principal
    amountPaid: int,          // cached total of the payments
    date: int,
    notes: string,
    isPaid: bool,
    paidAt: Option<int>,
    reminderDate: Option<int>,
    lastReminderSent: Option<int>,
    syncStatus: Option<SyncStatus>,
    deletedAt: Option<int>)   // soft-delete marker
  {
    /** Not soft-deleted (`!debt.deleted_at`). */
    predicate IsLive()
    {
      !Truthy(deletedAt)
    }
  }

  datatype ReminderSettings = ReminderSettings(
    enabled: bool,
    shopName: string,
    reminderMessage: string,
    autoOpenSms: bool,
    overdueNotificationsEnabled: bool,
    overduePeriodDays: int)

  datatype AppState = AppState(
    customers: seq<Customer>,
    debts: seq<Debt>,
    payments: seq<Payment>,
    reminderSettings: ReminderSettings)

  datatype MonthlyReport = MonthlyReport(totalCollected: int, paymentsCount: nat)

  datatype CustomerStats = CustomerStats(
    customer: Customer,
    totalAmount: int,
    totalPaid: int,
    debtCount: nat,
    overdueDebts: nat,
    avgDebtAmount: real)

  /** One bucket of `DebtsByStatus`. */
  datatype Bucket = Bucket(count: nat, amount: int)

  datatype DebtsByStatus = DebtsByStatus(paid: Bucket, overdue: Bucket, current: Bucket)

  /** One month of `getPaymentTrends`; the localised month name is not modelled. */
  datatype PaymentTrend = PaymentTrend(year: int, month: int, totalCollected: int, paymentsCount: nat)

  /** A key of a `Partial<...>` update: absent, or present with a value
      (for an optional field, `Set(None)` is an explicit `undefined`). */
  datatype Field<T> = Keep | Set(value: T)

  function Pick<T>(f: Field<T>, current: T): T
  {
    if f.Set? then f.value else current
  }

  datatype CustomerPatch = CustomerPatch(
    name: Field<string>,
    phone: Field<string>,
    createdAt: Field<int>,
    syncStatus: Field<Option<SyncStatus>>,
    deletedAt: Field<Option<int>>)

  datatype DebtPatch = DebtPatch(
    customerId: Field<string>,
    amount: Field<int>,
    amountPaid: Field<int>,
    date: Field<int>,
    notes: Field<string>,
    isPaid: Field<bool>,
    paidAt: Field<Option<int>>,
    reminderDate: Field<Option<int>>,
    lastReminderSent: Field<Option<int>>,
    syncStatus: Field<Option<SyncStatus>>,
    deletedAt: Field<Option<int>>)

  datatype SettingsPatch = SettingsPatch(
    enabled: Field<bool>,
    shopName: Field<string>,
    reminderMessage: Field<string>,
    autoOpenSms: Field<bool>,
    overdueNotificationsEnabled: Field<bool>,
    overduePeriodDays: Field<int>)

  const EMPTY_CUSTOMER_PATCH := CustomerPatch(Keep, Keep, Keep, Keep, Keep)
  const EMPTY_DEBT_PATCH := DebtPatch(Keep, Keep, Keep, Keep, Keep, Keep, Keep, Keep, Keep, Keep, Keep)

  /** The settings a fresh store starts with. */
  const DEFAULT_SETTINGS := ReminderSettings(
    true,
    "متجر يوسف للأقمشة",
    "مرحباً {name}، هذه رسالة تذكيرية من {shopName} لدفع الدين المتبقي: {amount}. شكراً لك على تعاملك الكريم معنا.",
    true,
    true,
    30)
}
