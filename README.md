# Fabric-shop debt ledger — a Dafny model

The application is a shop's debt book. It records customers, the debts they
run up and the payments made against those debts, all in one store. Records
are never removed: deleting a customer or a debt stamps `deleted_at` on it. A
debt caches three payment-derived fields:

- `amount_paid`, the sum of the payments recorded against it;
- `is_paid`, which holds once that sum reaches the principal;
- `paid_at`, the time of that settlement.

Every local change marks the record `pending`. A sync pass pushes pending
records to the remote database and writes `synced` or `error` back. A
background task notifies the shopkeeper about overdue debts and stamps
`last_reminder_sent` on each debt it reports. A form guards the creation of
customers.

The model has eight modules:

- `LedgerTypes` (`types.dfy`) holds the records and the partial-update
  patches. The JavaScript "truthiness" of optional timestamps is
  `Truthy(t)`: present and non-zero.
- `SeqUtils` (`seq_utils.dfy`) holds the array combinators the code is
  written with: filter, map, sum, find, a stable descending sort and slice.
- `DateUtils` (`date_utils.dfy`) holds the date and overdue helpers and
  `calculateStats`. The clock is the parameter `now`.
- `LedgerQueries` (`ledger_queries.dfy`) holds the read side of the store
  as pure functions over its sequences.
- `LedgerStore` (`ledger_store.dfy`) holds the class `Store`. Its four
  fields are reassigned by one method per store action. The pure update
  functions and the consistency invariant live beside it: `Consistent` says
  debt ids are distinct and every debt's cached fields agree with the
  payment records. These actions are proved to keep `Consistent`:
  `deleteCustomer`, `deleteDebt`, `addPayment`, `markDebtAsPaid` and
  `updateLastReminderSent` always; `addDebt` when the principal is
  positive and the fresh id is used by no debt and no payment; and
  `updateDebt` when the patch leaves the principal and the three cached
  payment fields alone.
- `SyncReconciler` (`sync.dfy`) holds the sync pass as a method over the
  store. The outcome of each remote call is an input sequence `ok`.
- `ReminderScanner` (`reminders.dfy`) holds the reminder task as a method
  over the store. Whether the `k`-th notification can be scheduled is the
  input `scheduleOk(k)`.
- `CustomerForm` (`customer_form.dfy`) holds the check of the new-customer
  form.

Things the program gets from its environment become parameters:

- the clock is `now`;
- fresh ids are `freshId`;
- calendar month bounds are `MonthSpan` values and date components;
- remote outcomes are `ok` and `scheduleOk`.

Two behaviours of the source are modelled as written and proved:

- An update with `sync: false` never changes `sync_status`, because the
  status key is written after the spread of the patch. So the status
  write-backs of the sync pass leave the store unchanged.
  `StatusOnlyUpdateIsIdentity` and the postconditions of `SyncAll` state
  this.
- `addPayment` finds soft-deleted debts, but `markDebtAsPaid` and
  `getDebt` ignore them. `LookupsDisagreeOnDeleted` states this.

## Model

| member | source | states |
|---|---|---|
| LedgerStore.Store.constructor | store/appStore.ts:45-59 | The store starts with no customers, debts or payments, and with the default reminder settings (30 days, notifications on). |
| LedgerStore.Store.AddCustomer | store/appStore.ts:62-71 | Appends exactly one customer. It has the fresh id, the clock's creation time and status pending, and is the one returned. When the id is fresh and the customer not deleted, `getCustomer` finds it. Nothing else changes. |
| LedgerStore.MergeCustomer | store/appStore.ts:73-79 | The merged customer keeps its id. Its status becomes pending when syncing and is otherwise the old one. Each other field (name, phone, creation time and deletion stamp) comes from the patch where it sets it and is otherwise kept. |
| LedgerStore.MergeCustomerMeaning | store/appStore.ts:73-79 | Merging a patch keeps the id. The status becomes pending when syncing and is otherwise kept, whatever status the patch carries. Merging twice equals merging once. A non-syncing empty patch is the identity. |
| LedgerStore.UpdatedCustomers | store/appStore.ts:73-79 | Only entries with the given id are merged; every other entry is unchanged and the length is kept. |
| LedgerStore.UpdatedCustomersMeaning | store/appStore.ts:73-79 | An unknown id is a no-op, and repeating the same update changes nothing more. |
| LedgerStore.Store.UpdateCustomer | store/appStore.ts:73-79 | The customers become the merged list; debts, payments and settings are unchanged. |
| LedgerStore.StatusOnlyUpdateIsIdentity | store/appStore.ts:76 | A non-syncing update whose patch holds only a status leaves customers and debts exactly as they were. |
| LedgerStore.DebtsOfCustomerDeleted | store/appStore.ts:84 | Every debt of the customer gets the deletion stamp and status pending; other debts are untouched. |
| LedgerStore.Store.DeleteCustomer | store/appStore.ts:81-86 | Soft-deletes the customer and all of its debts; payments and settings are untouched; consistency is kept. With a truthy clock, `getCustomer` then finds nothing and `getCustomerDebts` is empty. |
| LedgerStore.DeleteCustomerHides | store/appStore.ts:81-88 | With a truthy clock, after the deletion `getCustomer(id)` is undefined and `getCustomerDebts(id)` is empty. |
| LedgerStore.DeleteCustomerEffects | store/appStore.ts:81-88 | Deleting a customer keeps consistency. With a truthy clock, the customer and all of its debts are hidden from the lookups. |
| LedgerQueries.GetCustomer | store/appStore.ts:88 | Finds a live customer with the id when there is one, and it is the first such customer in store order, as `find` returns. It answers nothing exactly when no live customer has that id. |
| LedgerStore.Store.AddDebt | store/appStore.ts:91-100 | Appends exactly one debt: nothing paid, unpaid, no paid or reminder time, status pending. Consistency is kept when the id is fresh, no payment already names it, and the amount is positive. |
| LedgerStore.NewDebtConsistent | store/appStore.ts:91-100 | A fresh positive unpaid debt with no payments keeps the store consistent. |
| LedgerStore.MergeDebt | store/appStore.ts:102-108 | The merged debt keeps its id and follows the same status rule. Each other field (customer, principal, paid amount, date, notes, paid flag, paid time, reminder date, reminder stamp and deletion stamp) comes from the patch where it sets it and is otherwise kept. |
| LedgerStore.MergeDebtMeaning | store/appStore.ts:102-108 | The same facts as for customers, for debts: id kept, status rule, patch status ignored, idempotent, empty patch is the identity. |
| LedgerStore.UpdatedDebts | store/appStore.ts:102-108 | Only debts with the id are merged; the others and the length are kept. |
| LedgerStore.UpdatedDebtsMeaning | store/appStore.ts:102-108 | An unknown id is a no-op; repeating the update changes nothing more. |
| LedgerStore.Store.UpdateDebt | store/appStore.ts:102-108 | The debts become the merged list; nothing else changes. A patch that leaves the principal and the cached payment fields alone keeps `Consistent`. |
| LedgerStore.UntouchedPaymentFieldsConsistent | store/appStore.ts:102-108 | An update that leaves the amount and the three cached fields alone keeps the store consistent. |
| LedgerStore.Store.DeleteDebt | store/appStore.ts:110-114 | Soft-deletes the debt and marks it pending, keeps consistency, and with a truthy clock `getDebt` no longer finds it. |
| LedgerStore.DeleteDebtHides | store/appStore.ts:110-116 | With a truthy clock, `getDebt(id)` is undefined after `deleteDebt(id)`. |
| LedgerStore.CustomerDeletionConsistent | store/appStore.ts:84 | Soft-deleting a customer's debts keeps the cached fields consistent. |
| LedgerQueries.GetDebt | store/appStore.ts:116 | Finds the first live debt with the id in store order; answers nothing exactly when no live debt has it. |
| LedgerQueries.FindDebt | store/appStore.ts:131 | Finds the first debt with the id in store order, deleted or not; answers nothing exactly when no debt has it. |
| LedgerStore.LookupsDisagreeOnDeleted | store/appStore.ts:116-131 | For a soft-deleted debt, the lookup of `addPayment` finds it while `getDebt` does not. |
| LedgerQueries.CustomerDebts | store/appStore.ts:118 | Exactly the live debts of the customer. |
| LedgerStore.Store.AddPayment | store/appStore.ts:121-158 | Appends exactly one pending payment with the fresh id. The debts become the settled list for that debt id; customers and settings are unchanged; consistency is kept. |
| LedgerStore.SettlePatch | store/appStore.ts:128-157 | The patch of a payment sets the paid amount to the new total and the paid flag to whether it is full. It sets a paid time exactly when the debt is fully paid, and leaves customer, principal and both stamps alone. |
| LedgerStore.SettledDebts | store/appStore.ts:128-157 | Settling keeps the number of debts. An unknown debt id changes nothing, and debts with another id are untouched. What the debts with the id receive is stated by `SettledDebtsMeaning`. |
| LedgerStore.SettledDebtsMeaning | store/appStore.ts:136-148 | When some debt carries the id, each debt with the id gets the new payments total as its paid amount. It is paid exactly when that total reaches the principal of the first such debt, with paid time `now` then and none otherwise. Its status becomes pending, and every other field is kept. |
| LedgerStore.SettledDebtsConsistent | store/appStore.ts:128-157 | After the new payment, every debt with the id (soft-deleted included) has `amount_paid` equal to the sum of its payments, `is_paid` exactly when that reaches the amount, and `paid_at` set exactly when paid. So the store stays consistent. |
| LedgerStore.SettledDebtConsistent | store/appStore.ts:128-157 | After the new payment, the debt at each index keeps its id and principal. It holds the payment total of its id and is paid, with a paid time, exactly when that total reaches its principal. |
| LedgerStore.FullPaymentSettles | store/appStore.ts:136-148 | A payment of exactly the remaining amount leaves the debt paid with nothing remaining. |
| LedgerStore.FullPaymentSettlesAt | store/appStore.ts:136-148 | The same fact for the debt at one index: after a full payment of the remaining amount, a debt with that id is paid and has nothing remaining. |
| LedgerStore.Store.MarkDebtAsPaid | store/appStore.ts:160-176 | On an unknown or soft-deleted id nothing changes. With something remaining, it adds one pending payment of exactly the remainder, noted as a full settlement, and settles the debt. With nothing remaining, it flips `is_paid`/`paid_at` if not already paid. Consistency is kept, and on a consistent store the debt ends paid with nothing remaining. |
| LedgerStore.PaidPatchMeaning | store/appStore.ts:173-175 | When nothing is left to pay, the debt becomes paid at `now` with status pending, and every other field is kept. |
| LedgerStore.NothingLeftMeansPaid | store/appStore.ts:164-175 | On a consistent debt, nothing remaining holds exactly when `is_paid` holds. |
| LedgerQueries.RemainingAmount | store/appStore.ts:178-182 | Never negative. Zero exactly when the recorded payments reach the amount. Otherwise it is what those payments leave of the amount. |
| LedgerQueries.PaidTotal | store/appStore.ts:179-180 | The total paid on a debt is the sum of the amounts of the payments carrying its id. |
| LedgerQueries.RemainingIgnoresCachedFields | store/appStore.ts:178-182 | The remainder depends on the payment records, not on the cached `amount_paid`, `is_paid` or `paid_at`. |
| LedgerQueries.PaidTotalAppend | store/appStore.ts:179-180 | One more payment adds its amount to the total of its own debt and leaves the other totals unchanged. |
| LedgerStore.MergeSettingsMeaning | store/appStore.ts:185-187 | An empty settings patch changes nothing, and a patch applied twice is applied once. For each of the six keys, a value set by a later patch wins over the earlier settings. |
| LedgerStore.Store.UpdateReminderSettings | store/appStore.ts:185-187 | Only the settings change, to the merged settings. |
| LedgerStore.Store.UpdateLastReminderSent | store/appStore.ts:189-191 | A syncing update that sets only the reminder stamp. It keeps consistency and changes nothing else. |
| LedgerStore.MergeSettings | store/appStore.ts:185-187 | An empty patch leaves the settings as they are. Each of the six keys comes from the patch where it sets it and is otherwise kept. |
| LedgerQueries.PaymentsForDebt | store/appStore.ts:194 | Exactly the payments with that debt id. |
| LedgerQueries.TotalUnpaidAmount | store/appStore.ts:196-199 | The total is the sum, over the debts that are unpaid and not soft-deleted, of their remaining amounts, and it is never negative. |
| LedgerQueries.TotalUnpaidStep | store/appStore.ts:196-199 | An empty ledger owes nothing, and one more debt raises the total by its remaining amount exactly when it is unpaid and live. |
| LedgerQueries.UnpaidDebts | store/appStore.ts:201 | Exactly the debts that are neither paid nor deleted. |
| LedgerQueries.OverdueDebts | store/appStore.ts:203-206 | Exactly the unpaid live debts dated strictly before thirty days ago. |
| LedgerQueries.RecentDebts | store/appStore.ts:208-213 | At most `limit` unpaid live debts, and exactly `limit` when there are that many. Each unpaid debt appears at most as often as it does in the unpaid list. They are newest first, and no unpaid live debt left out is newer than one kept. |
| LedgerQueries.MonthlyCollectedReport | store/appStore.ts:216-227 | The count is at most the number of payments. The collected total is the sum of the amounts of the payments dated within the inclusive bounds. How each payment contributes is stated by `MonthlyReportStep`. |
| LedgerQueries.MonthlyReportStep | store/appStore.ts:216-227 | An empty list reports nothing. Each further payment adds one to the count and its amount to the total exactly when `start <= date <= end`. |
| LedgerQueries.MonthBoundary | store/appStore.ts:218-220 | Both ends are inclusive: a payment at `end` is counted, one a millisecond later is not. |
| LedgerQueries.StatsFor | store/appStore.ts:234-247 | The entry is about the customer and counts its live debts. Its total is the sum of their principals and its paid total the sum of their cached paid amounts. Its overdue count is the number of them whose id an overdue debt carries, never more than the debt count. The average is the total averaged over the debt count. |
| LedgerQueries.Average | store/appStore.ts:246 | With no debts the average is 0. Otherwise the average times the number of debts gives the total. |
| LedgerQueries.LiveCustomerStats | store/appStore.ts:230-248 | There is one entry for every live customer and no entry for a deleted one; there are as many entries as live customers. |
| LedgerQueries.TopCustomers | store/appStore.ts:229-253 | Exactly `limit` entries, or one per live customer when there are fewer. They are drawn from the per-customer entries without repetition, in non-increasing total. No live customer left out has a larger total than one kept. |
| LedgerStore.Store.PaymentTrends | store/appStore.ts:255-274 | One entry per requested month. The oldest month comes first, and each entry is the monthly report of that month's bounds. |
| LedgerQueries.Classify | store/appStore.ts:276-294 | A debt is classified paid exactly when its paid flag is set. It is classified overdue only when a live unpaid debt with its id is among the overdue debts, more than thirty days old. |
| LedgerQueries.Tally | store/appStore.ts:276-294 | The three counts add up to at most the number of debts tallied. The overdue and current amounts are never negative. |
| LedgerQueries.DebtsByStatusOf | store/appStore.ts:276-294 | The three counts add up to at most the number of debts in the store. The overdue and current amounts are never negative. |
| LedgerQueries.TallyStep | store/appStore.ts:277-293 | Each further live debt adds one to its own bucket: its remaining amount for overdue and current, its original amount for paid. Deleted debts and other buckets are untouched. |
| LedgerQueries.TallyBucketCount | store/appStore.ts:277-293 | A bucket's count is the number of live debts classified into it. |
| LedgerQueries.TallyBucketAmount | store/appStore.ts:277-293 | A bucket's amount is the sum, over its live debts, of the original amount (paid) or the remaining amount (overdue, current). |
| LedgerQueries.TallyBucketSum | store/appStore.ts:277-293 | A bucket's amount is the contribution of its live debts, summed in reduce order, one debt at a time. |
| LedgerQueries.TallyCounts | store/appStore.ts:277-293 | The three counts add up to the number of live debts. |
| LedgerQueries.DebtsByStatusBucket | store/appStore.ts:276-294 | For `getDebtsByStatus`, each bucket's count and amount over the debts classified paid first, then overdue, then current. The overdue and current amounts are never negative. |
| LedgerQueries.DebtsByStatusCounts | store/appStore.ts:276-294 | Every live debt is in exactly one bucket: the counts add up to the number of live debts. |
| LedgerQueries.OverdueBucketMeaning | store/appStore.ts:285 | An unpaid live debt older than thirty days is in the overdue bucket, and with distinct ids only such debts are. |
| DateUtils.FormatDateLayout | utils/dateUtils.ts:6-12 | `DD/MM/YYYY`: two digits of day, a slash, two digits of month, a slash and the year's digits, with the values read back unchanged. |
| DateUtils.FormatDateShortLayout | utils/dateUtils.ts:17-22 | `DD/MM`: five characters, the slash in the middle, and day and month as two-digit numbers. |
| DateUtils.FormatDate | utils/dateUtils.ts:6-12 | The formatted date has at least seven characters: two for the day, two for the month, two slashes and the year. The exact layout is stated by `FormatDateLayout`. |
| DateUtils.FormatDateShort | utils/dateUtils.ts:17-22 | The short date has at least five characters. The exact layout is stated by `FormatDateShortLayout`. |
| DateUtils.TwoDigitField | utils/dateUtils.ts:8-9 | A value below 100 padded to two characters is two digits that read back as the value. |
| DateUtils.PadStart2 | utils/dateUtils.ts:8-9 | Left-pads with '0' to length two and keeps the original as suffix. |
| DateUtils.NatToStringRoundTrip | utils/dateUtils.ts:8-10 | The decimal digits of a number read back as the number. |
| DateUtils.OverdueBoundaryExamples | utils/dateUtils.ts:41-45 | The thirty-day bound is strict: thirty-one days old is overdue, thirty and twenty-nine days are not. |
| DateUtils.IsOverdue | utils/dateUtils.ts:41-45 | An overdue timestamp lies in the past and is at least thirty days overdue by the day count. |
| DateUtils.DaysOverdue | utils/dateUtils.ts:50-55 | Never negative. For a past timestamp it is the floor of the elapsed days, and it is 0 within the first day. |
| DateUtils.OverdueAgreesWithDayCount | utils/dateUtils.ts:41-55 | An overdue timestamp is at least thirty days overdue, and thirty-one days makes it overdue. |
| DateUtils.DaysUntilReminder | utils/dateUtils.ts:60-66 | The floor of the days left until the reminder date, possibly negative. |
| DateUtils.NeedsReminder | utils/dateUtils.ts:71-92 | A reminder is needed only once no days remain before the reminder date. |
| DateUtils.NeedsReminderMeaning | utils/dateUtils.ts:71-92 | A reminder is needed exactly when the reminder date has come and either no truthy reminder was sent or the last one is more than seven days old. A reminder sent seven days ago or less blocks it. |
| DateUtils.ReminderCountdownAgreement | utils/dateUtils.ts:60-92 | While days remain before the reminder date, no reminder is needed. Once past it, a debt never reminded needs one. |
| DateUtils.CalculateStats | utils/dateUtils.ts:106-117 | The unpaid count is at most the number of records and the overdue count at most the unpaid count. The recent list holds at most five records, all of them unpaid records of the input. |
| DateUtils.CalculateStatsCounts | utils/dateUtils.ts:106-117 | The unpaid total sums the amounts of records with a falsy `isPaid`, and the unpaid count counts them. The overdue count counts those that are overdue. The recent list is the first five of them in input order. |
| DateUtils.UnpaidTotal | utils/dateUtils.ts:107-108 | Summing the filtered records equals summing every record with the unpaid ones weighted in. |
| DateUtils.CalculateStatsIgnoresIsPaid | utils/dateUtils.ts:106-117 | Fed ledger debts, which have no `isPaid` field, every debt counts as unpaid. The total is the sum of all amounts and the recent list is the first five debts. |
| SyncReconciler.RowsRoundTrip | utils/sync.ts:75-106 | Upsert rows drop exactly the status and deletion stamp, and payment rows carry the date as creation time. Restoring those fields gives back the record. A paid time of 0 is dropped as falsy. |
| SyncReconciler.ToCustomerRow | utils/sync.ts:74-77 | The customer row gives the customer back once its status and deletion stamp are supplied. |
| SyncReconciler.ToDebtRow | utils/sync.ts:86-90 | The debt row gives the debt back once its status and deletion stamp are supplied, unless its paid time is the falsy 0. That paid time is not sent. |
| SyncReconciler.ToPaymentRow | utils/sync.ts:99-104 | The payment row gives the payment back once its status is supplied. |
| SyncReconciler.FromCustomerRow | utils/sync.ts:74-77 | A customer read back from a row has the row's id and the supplied status and deletion stamp. |
| SyncReconciler.FromDebtRow | utils/sync.ts:86-90 | A debt read back from a row has the row's id and the supplied status and deletion stamp. |
| SyncReconciler.FromPaymentRow | utils/sync.ts:99-104 | A payment read back from a row has the row's id, the supplied status, and the row's creation time as its date. |
| SyncReconciler.CustomersToDelete | utils/sync.ts:57 | Exactly the pending soft-deleted customers. |
| SyncReconciler.DebtsToDelete | utils/sync.ts:64 | Exactly the pending soft-deleted debts. |
| SyncReconciler.CustomersToUpsert | utils/sync.ts:73 | Exactly the pending live customers. |
| SyncReconciler.DebtsToUpsert | utils/sync.ts:85 | Exactly the pending live debts. |
| SyncReconciler.PaymentsToInsert | utils/sync.ts:98 | Exactly the pending payments. |
| SyncReconciler.CustomerIds | utils/sync.ts:59 | The ids sent in the delete call are exactly those of the selected customers. |
| SyncReconciler.DebtIds | utils/sync.ts:66 | The ids sent in the delete call are exactly those of the selected debts. |
| SyncReconciler.CustomerUpserts | utils/sync.ts:74-82 | One upsert per selected customer, in order, each targeting that customer only. |
| SyncReconciler.DebtUpserts | utils/sync.ts:86-95 | One upsert per selected debt, in order, each targeting that debt only. |
| SyncReconciler.Plan | utils/sync.ts:56-114 | The run makes one call per pending live customer and per pending live debt. It adds one bulk call for each non-empty group of deleted customers, deleted debts and payments. |
| SyncReconciler.PlanOrder | utils/sync.ts:56-114 | The calls come in order: customer deletes, debt deletes, customer upserts, debt upserts, payment insert. Each delete and the payment insert is at most one call. |
| SyncReconciler.BuilderPhases | utils/sync.ts:56-114 | Each part of a run holds calls of one kind only. The two bulk deletes and the payment insert are at most one call each. |
| SyncReconciler.CustomerTargets | utils/sync.ts:57-82 | A customer id is written back exactly when some customer with that id is pending. |
| SyncReconciler.DebtTargets | utils/sync.ts:64-95 | A debt id is written back exactly when some debt with that id is pending. |
| SyncReconciler.PaymentsNeverTargeted | utils/sync.ts:97-114 | No payment is ever targeted for a status write-back. |
| SyncReconciler.NoPaymentWriteBack | utils/sync.ts:52-54 | Whatever the outcomes, no status write concerns the payments table. |
| SyncReconciler.StepWrites | utils/sync.ts:61-94 | A call writes back one status per record it carried: `error` if it failed, else `synced`. |
| SyncReconciler.WritesOfMeaning | utils/sync.ts:61-94 | Every write-back comes from a call that carried the record, with that call's outcome. Every record of every call gets its write-back. |
| SyncReconciler.WritesOfSound | utils/sync.ts:61-94 | Every write-back names a record that a call carried, with the outcome of that call. |
| SyncReconciler.WritesOfComplete | utils/sync.ts:61-94 | Every record that a call carried gets a write-back of that call's outcome. |
| SyncReconciler.WriteBack | utils/sync.ts:61-94 | Issues the call's status writes through non-syncing updates, which leave the store unchanged. |
| SyncReconciler.RunStep | utils/sync.ts:58-113 | One call of the run. It records the request sent and the call's write-backs, and success so far is kept exactly while no call has failed. The store is unchanged. |
| SyncReconciler.RunPlan | utils/sync.ts:49-116 | Sends every request of the plan in order and issues every write-back. Reports success exactly when every call succeeded. Leaves the store unchanged. |
| SyncReconciler.SyncAll | utils/sync.ts:47-117 | The whole pass on the store's snapshot: requests in plan order, one write-back per carried record. The result holds exactly when no call failed. The store is left unchanged, statuses included. |
| ReminderScanner.DueDebts | utils/backgroundTasks.ts:25-38 | A debt is notified exactly when it is unpaid, strictly older than the configured days, and not reminded (truthy stamp) within the last day. Soft-deleted debts are included. |
| ReminderScanner.ShouldNotify | utils/backgroundTasks.ts:31-38 | A debt that passes the test is at least the configured number of days overdue when that number is not negative. Any truthy reminder stamp it has is at least a day old. |
| ReminderScanner.Due | utils/backgroundTasks.ts:31-38 | Every debt on the due list passes the loop's test. Membership both ways is stated by `DueMembers`. |
| ReminderScanner.DueIsFilter | utils/backgroundTasks.ts:31-38 | The due list is the unpaid debts filtered, in order, by the loop's test. |
| ReminderScanner.DueMembers | utils/backgroundTasks.ts:31-38 | Membership of the due list is exactly membership of the input together with the loop's test. |
| ReminderScanner.DueAppend | utils/backgroundTasks.ts:31-38 | The due debts of a concatenation are the due debts of each part, in order. |
| ReminderScanner.DueStep | utils/backgroundTasks.ts:31-38 | The next debt of the scan joins the due list exactly when it passes the loop's test. |
| ReminderScanner.DueSplit | utils/backgroundTasks.ts:31-42 | When the scan stops at a due debt, what was notified is a proper prefix of the due list. |
| ReminderScanner.StoppedEarly | utils/backgroundTasks.ts:31-42 | When the scan stops at a due debt, the notifications sent are those of a proper prefix of the due debts. |
| ReminderScanner.Finished | utils/backgroundTasks.ts:31-59 | When the scan runs to the end, the notifications sent are those of all the due debts. |
| ReminderScanner.DeletedDebtsAreNotified | utils/backgroundTasks.ts:25 | A soft-deleted unpaid overdue debt is still notified. |
| ReminderScanner.CooldownBoundary | utils/backgroundTasks.ts:34-38 | A stamp two hours old blocks the notification. A stamp a day old or older does not block it, and neither does a missing or zero stamp. |
| ReminderScanner.OverdueBoundary | utils/backgroundTasks.ts:32-33 | The overdue test is strict: exactly the configured age is not enough, one millisecond more is. |
| ReminderScanner.StampBlocksForADay | utils/backgroundTasks.ts:34-56 | A debt stamped at a truthy time is not notified again for a day. |
| ReminderScanner.CustomerName | utils/backgroundTasks.ts:39-40 | The name of the first customer with the debt's customer id, or the fixed placeholder when none has it. |
| ReminderScanner.Notices | utils/backgroundTasks.ts:39-56 | One notification per notified debt. Their content, in order, is stated by `NoticesMeaning`. |
| ReminderScanner.NoticesMeaning | utils/backgroundTasks.ts:39-45 | The `k`-th notification is about the `k`-th notified debt, names its customer and carries the configured days. |
| ReminderScanner.NoticesAppend | utils/backgroundTasks.ts:42-57 | Notifying one more debt appends exactly its notification. |
| ReminderScanner.NoticeIdsAppend | utils/backgroundTasks.ts:56 | Notifying one more debt appends its id to the stamped ids. |
| ReminderScanner.StampedDebts | utils/backgroundTasks.ts:39-56 | Stamping keeps the number of debts and every id. A debt whose id is not stamped is untouched. |
| ReminderScanner.StampedDebtsMeaning | utils/backgroundTasks.ts:56 | A stamped debt is updated as `updateLastReminderSent` does, with the reminder time and status pending. Every other debt is untouched. |
| ReminderScanner.StampStep | utils/backgroundTasks.ts:56 | Stamping one more id through the store's syncing update gives the debts with that id added to the stamped ids. |
| ReminderScanner.ConsistentAfterStamping | utils/backgroundTasks.ts:56 | Stamping keeps the cached payment fields consistent. |
| ReminderScanner.Stamp | utils/backgroundTasks.ts:56 | `updateLastReminderSent(debt.id, now)` adds the id to the stamped ids and changes nothing else. |
| ReminderScanner.Notify | utils/backgroundTasks.ts:38-57 | For a due debt: if scheduling fails, nothing is sent or stamped and the scan stops. Otherwise its notification is appended and the debt stamped. |
| ReminderScanner.AllScheduledMeaning | utils/backgroundTasks.ts:42-57 | The first `n` notifications were all schedulable exactly when scheduling succeeded for each of them. |
| ReminderScanner.Visit | utils/backgroundTasks.ts:31-59 | One turn of the loop. A due debt is notified and then stamped, unless its notification cannot be scheduled, in which case the scan stops with nothing more sent or stamped. A debt that is not due changes nothing. |
| ReminderScanner.NotifyDue | utils/backgroundTasks.ts:29-60 | The notifications sent are those of a prefix of the due debts, in order, each scheduled successfully and each followed by its stamp. The loop fails exactly when the prefix is proper, and then the next scheduling failed. |
| ReminderScanner.ScanReminders | utils/backgroundTasks.ts:10-69 | Disabled: NoData, nothing sent, nothing changed. Enabled: the due debts are notified and stamped in order. The result is Failed exactly when a scheduling failed before the end, NewData exactly when all were notified and there was at least one, NoData otherwise. Only reminder stamps and statuses change, and consistency is kept. |
| CustomerForm.Trim | app/customer/add.tsx:56-64 | The trimmed text neither starts nor ends with white space, and it is empty exactly when the input is all white space. |
| CustomerForm.LeadingSpaces | app/customer/add.tsx:56-64 | Counts the white space the input starts with: all of it white space, and the next character, if any, not. |
| CustomerForm.TrimIsMiddle | app/customer/add.tsx:56-64 | The trimmed text is the slice of the input that starts right after its leading white space, and everything after that slice is white space. |
| CustomerForm.TrimIdempotent | app/customer/add.tsx:56-64 | Trimming twice is trimming once. |
| CustomerForm.Lower | app/customer/add.tsx:69-75 | Lower-casing keeps the length and maps each character through the ASCII lower-case mapping. |
| CustomerForm.LowerMeaning | app/customer/add.tsx:69-75 | Lower-casing is idempotent, leaves text without capitals (an Arabic name) unchanged, and leaves no capital behind. |
| CustomerForm.NameFormatError | app/customer/add.tsx:56-60 | No error exactly when the trimmed name has two characters or more. "Required" exactly when the name is all white space. |
| CustomerForm.PhoneFormatError | app/customer/add.tsx:62-66 | No error exactly when the trimmed phone has ten characters or more. "Required" exactly when the phone is all white space. |
| CustomerForm.FormErrorsOf | app/customer/add.tsx:53-81 | With no matching customer only the format errors remain. A field not reported as a duplicate keeps its format error. |
| CustomerForm.DuplicateMeaning | app/customer/add.tsx:69-81 | A field is a duplicate exactly when the first customer the search finds (soft-deleted included) matches on that field. |
| CustomerForm.MatchIsReported | app/customer/add.tsx:69-81 | If any customer matches, at least one field is reported as a duplicate. |
| CustomerForm.ValidateForm | app/customer/add.tsx:53-85 | Accepted exactly when no field has an error. That is exactly when the trimmed name has at least two characters, the trimmed phone at least ten, and no customer, soft-deleted or not, has the name (ignoring case) or the phone. |
| CustomerForm.DeletedCustomerBlocksPhone | app/customer/add.tsx:69-81 | A soft-deleted customer still blocks its phone number. |
| CustomerForm.LaterNameMatchIgnored | app/customer/add.tsx:69-81 | When the first match is by phone only, a later customer with the same name raises no name error. |
| CustomerForm.DuplicateReplacesFormatError | app/customer/add.tsx:56-81 | When the first customer the search finds has the name, the name is reported as taken, and that replaces whatever format error it had: a one-letter name equal to a stored one is taken, not too short. |

## Left out

- Persistence: the storage middleware and its options are not modelled. The store is in memory.
- Network: the remote database calls are not modelled. Each call's outcome is an input, and a failing call is an error result, not an exception. The insert and fetch wrappers beside the sync pass are not part of this model.
- Concurrency: the awaits of the sync pass and the reminder task are modelled as one sequential pass. The sync pass works on a snapshot of the store taken at its start. The reminder task works on a snapshot of debts and customers but writes stamps to the live store.
- Notifications: their title, body text, sound, priority and trigger are not modelled. A notification is its debt id, customer name and configured days. Registering the background task is not modelled.
- ReminderScanner.ScanReminders: only a scheduling failure yields `Failed`. Other exceptions, such as a failing store write, cannot occur in the model.
- Clock and ids: `Date.now()` is the parameter `now`, and actions that read the clock twice see one value. `generateId` is the parameter `freshId`.
- Calendar: converting a timestamp to day, month and year, the month arithmetic of `setMonth`, and `Intl` month names are not modelled. Date components and month bounds are inputs, so the month-end bound at 23:59:59.000 is the `end` of the bound pair. Payments in the last 999 ms of a month are excluded by the source, which `MonthBoundary` reflects.
- Money and time: amounts and timestamps are integers. JavaScript numbers are floating point, so rounding is not modelled. `avgDebtAmount` is a `real`.
- ISO 8601 conversion in the sync rows is not modelled: rows carry the timestamps themselves.
- `formatCurrency` and `formatCurrencySimple` are not modelled. They depend on locale formatting and are outside the named helpers.
- CustomerForm.Lower: lower-cases ASCII letters only. Case mapping of other scripts is not modelled; Arabic has no case, so Arabic names are exact.
- CustomerForm.NameFormatError, CustomerForm.PhoneFormatError: lengths count Unicode scalar values. JavaScript counts UTF-16 units, so a character outside the Basic Multilingual Plane counts 2 there and 1 here.
- LedgerStore.Store.UpdateDebt: a patch that sets `amount`, `amount_paid`, `is_paid` or `paid_at` can leave the cached fields disagreeing with the payment records, as the source allows. Consistency is promised only for patches that leave those four fields alone.
- LedgerStore.Store.AddDebt: consistency is promised only for a positive principal and an id no debt or payment uses. The source checks neither.
- Default arguments: `getRecentDebts`, `getTopCustomers` and `getPaymentTrends` default to 5 debts, 10 customers and 6 months. These are the default parameter values `DEFAULT_RECENT_LIMIT`, `DEFAULT_TOP_LIMIT` and `DEFAULT_TREND_MONTHS`.
- LedgerQueries.RecentDebts: `limit` is a natural number. The negative-limit behaviour of `slice` is not modelled.
- LedgerQueries.TopCustomers: `limit` is a natural number. The negative-limit behaviour of `slice` is not modelled.
- The `updatePaymentStatus` stub of the sync pass does nothing, and payments keep their status. The model writes nothing for payments.
- The form's effect of clearing errors while typing, and the save and cancel handlers, are not modelled. They are UI state.
- Logging to the console is not modelled.
