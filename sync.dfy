/** The push to the remote database (`syncAllToSupabase`): which records
    are sent, in what order and shape, and what is written back to the store.
    The outcome of every remote call is a parameter: `ok[i]` says whether the
    `i`-th request came back without an error. */
module SyncReconciler {
  import opened LedgerTypes
  import opened SeqUtils
  import opened LedgerStore

  // ---------------------------------------------------------------------
  // Rows sent to the remote tables

  /** A customer without `sync_status` and `deleted_at`. */
  datatype CustomerRow = CustomerRow(id: string, name: string, phone: string, createdAt: int)

  /** A debt without `sync_status` and `deleted_at`; `paidAt` is sent only
      when it is truthy. */
  datatype DebtRow = DebtRow(
    id: string, customerId: string, amount: int, amountPaid: int, date: int, notes: string,
    isPaid: bool, paidAt: Option<int>, reminderDate: Option<int>, lastReminderSent: Option<int>)

  /** A payment without `sync_status`, its `date` sent as `created_at`. */
  datatype PaymentRow = PaymentRow(id: string, debtId: string, amount: int, notes: Option<string>, createdAt: int)

  /** The row sent for a customer; completed with the local-only fields it
      gives the customer back. */
  function ToCustomerRow(c: Customer): (r: CustomerRow)
    ensures FromCustomerRow(r, c.syncStatus, c.deletedAt) == c
  {
    CustomerRow(c.id, c.name, c.phone, c.createdAt)
  }

  /** The row sent for a debt; it gives the debt back unless its `paidAt`
      is the falsy 0, which is not sent. */
  function ToDebtRow(d: Debt): (r: DebtRow)
    ensures d.paidAt != Some(0) ==> FromDebtRow(r, d.syncStatus, d.deletedAt) == d
    ensures d.paidAt == Some(0) ==> r.paidAt == None
  {
    DebtRow(d.id, d.customerId, d.amount, d.amountPaid, d.date, d.notes, d.isPaid,
            if Truthy(d.paidAt) then d.paidAt else None, d.reminderDate, d.lastReminderSent)
  }

  /** The row sent for a payment; it gives the payment back. */
  function ToPaymentRow(p: Payment): (r: PaymentRow)
    ensures FromPaymentRow(r, p.syncStatus) == p
  {
    PaymentRow(p.id, p.debtId, p.amount, p.notes, p.date)
  }

  /** A row completed with the local-only fields gives the record back. */
  function FromCustomerRow(r: CustomerRow, syncStatus: Option<SyncStatus>, deletedAt: Option<int>): (c: Customer)
    ensures c.id == r.id && c.syncStatus == syncStatus && c.deletedAt == deletedAt
  {
    Customer(r.id, r.name, r.phone, r.createdAt, syncStatus, deletedAt)
  }

  function FromDebtRow(r: DebtRow, syncStatus: Option<SyncStatus>, deletedAt: Option<int>): (d: Debt)
    ensures d.id == r.id && d.syncStatus == syncStatus && d.deletedAt == deletedAt
  {
    Debt(r.id, r.customerId, r.amount, r.amountPaid, r.date, r.notes, r.isPaid,
         r.paidAt, r.reminderDate, r.lastReminderSent, syncStatus, deletedAt)
  }

  function FromPaymentRow(r: PaymentRow, syncStatus: Option<SyncStatus>): (p: Payment)
    ensures p.id == r.id && p.syncStatus == syncStatus && p.date == r.createdAt
  {
    Payment(r.id, r.debtId, r.amount, r.createdAt, r.notes, syncStatus)
  }

  /** The rows lose nothing but the local-only fields, except a `paidAt` of
      0, which is falsy and so not sent. */
  lemma RowsRoundTrip(c: Customer, d: Debt, p: Payment)
    ensures FromCustomerRow(ToCustomerRow(c), c.syncStatus, c.deletedAt) == c
    ensures d.paidAt != Some(0) ==> FromDebtRow(ToDebtRow(d), d.syncStatus, d.deletedAt) == d
    ensures d.paidAt == Some(0) ==> ToDebtRow(d).paidAt == None
    ensures FromPaymentRow(ToPaymentRow(p), p.syncStatus) == p
  {
  }

  // ---------------------------------------------------------------------
  // What is selected

  /** Pending customers whose `deleted_at` is truthy: deleted remotely. */
  function CustomersToDelete(cs: seq<Customer>): (r: seq<Customer>)
    ensures forall c :: c in r <==> c in cs && c.syncStatus == Some(Pending) && !c.IsLive()
  {
    Filter(cs, (c: Customer) => c.syncStatus == Some(Pending) && !c.IsLive())
  }

  /** Pending customers whose `deleted_at` is falsy: upserted remotely. */
  function CustomersToUpsert(cs: seq<Customer>): (r: seq<Customer>)
    ensures forall c :: c in r <==> c in cs && c.syncStatus == Some(Pending) && c.IsLive()
  {
    Filter(cs, (c: Customer) => c.syncStatus == Some(Pending) && c.IsLive())
  }

  function DebtsToDelete(ds: seq<Debt>): (r: seq<Debt>)
    ensures forall d :: d in r <==> d in ds && d.syncStatus == Some(Pending) && !d.IsLive()
  {
    Filter(ds, (d: Debt) => d.syncStatus == Some(Pending) && !d.IsLive())
  }

  function DebtsToUpsert(ds: seq<Debt>): (r: seq<Debt>)
    ensures forall d :: d in r <==> d in ds && d.syncStatus == Some(Pending) && d.IsLive()
  {
    Filter(ds, (d: Debt) => d.syncStatus == Some(Pending) && d.IsLive())
  }

  function PaymentsToInsert(ps: seq<Payment>): (r: seq<Payment>)
    ensures forall p :: p in r <==> p in ps && p.syncStatus == Some(Pending)
  {
    Filter(ps, (p: Payment) => p.syncStatus == Some(Pending))
  }

  // ---------------------------------------------------------------------
  // The plan of remote calls

  datatype Table = CustomersTable | DebtsTable | PaymentsTable

  datatype Request =
    | DeleteRows(table: Table, ids: seq<string>)
    | UpsertCustomer(customer: CustomerRow)
    | UpsertDebt(debt: DebtRow)
    | InsertPayments(rows: seq<PaymentRow>)

  /** One remote call and the ids whose status is written back after it. */
  datatype Step = Step(request: Request, table: Table, targets: seq<string>)

  function CustomerIds(cs: seq<Customer>): (r: seq<string>)
    ensures |r| == |cs|
    ensures forall id :: id in r <==> exists c :: c in cs && c.id == id
  {
    var r := Map(cs, (c: Customer) => c.id);
    assert forall c :: c in cs ==> c.id in r by {
      forall c | c in cs ensures c.id in r {
        var i :| 0 <= i < |cs| && cs[i] == c;
        assert r[i] == c.id;
      }
    }
    r
  }

  function DebtIds(ds: seq<Debt>): (r: seq<string>)
    ensures |r| == |ds|
    ensures forall id :: id in r <==> exists d :: d in ds && d.id == id
  {
    var r := Map(ds, (d: Debt) => d.id);
    assert forall d :: d in ds ==> d.id in r by {
      forall d | d in ds ensures d.id in r {
        var i :| 0 <= i < |ds| && ds[i] == d;
        assert r[i] == d.id;
      }
    }
    r
  }

  /** One bulk delete, made only when there is something to delete. */
  function DeletionStep(table: Table, ids: seq<string>): seq<Step>
  {
    if |ids| > 0 then [Step(DeleteRows(table, ids), table, ids)] else []
  }

  /** One upsert per customer, in store order. */
  function CustomerUpserts(cs: seq<Customer>): (r: seq<Step>)
    ensures |r| == |cs|
    ensures forall i :: 0 <= i < |cs| ==> r[i] == Step(UpsertCustomer(ToCustomerRow(cs[i])), CustomersTable, [cs[i].id])
  {
    Map(cs, (c: Customer) => Step(UpsertCustomer(ToCustomerRow(c)), CustomersTable, [c.id]))
  }

  function DebtUpserts(ds: seq<Debt>): (r: seq<Step>)
    ensures |r| == |ds|
    ensures forall i :: 0 <= i < |ds| ==> r[i] == Step(UpsertDebt(ToDebtRow(ds[i])), DebtsTable, [ds[i].id])
  {
    Map(ds, (d: Debt) => Step(UpsertDebt(ToDebtRow(d)), DebtsTable, [d.id]))
  }

  /** One bulk insert of every pending payment; no status is written back. */
  function PaymentStep(ps: seq<Payment>): seq<Step>
  {
    if |ps| > 0 then [Step(InsertPayments(Map(ps, ToPaymentRow)), PaymentsTable, [])] else []
  }

  /** The calls of one run, from a snapshot of the store. */
  function Plan(cs: seq<Customer>, ds: seq<Debt>, ps: seq<Payment>): (steps: seq<Step>)
    ensures |steps| == |CustomersToUpsert(cs)| + |DebtsToUpsert(ds)|
      + (if |CustomersToDelete(cs)| > 0 then 1 else 0)
      + (if |DebtsToDelete(ds)| > 0 then 1 else 0)
      + (if |PaymentsToInsert(ps)| > 0 then 1 else 0)
  {
    DeletionStep(CustomersTable, CustomerIds(CustomersToDelete(cs)))
    + DeletionStep(DebtsTable, DebtIds(DebtsToDelete(ds)))
    + CustomerUpserts(CustomersToUpsert(cs))
    + DebtUpserts(DebtsToUpsert(ds))
    + PaymentStep(PaymentsToInsert(ps))
  }

  /** The position of a kind of call in a run. */
  function Phase(r: Request): int
  {
    match r
    case DeleteRows(table, _) => if table == CustomersTable then 0 else 1
    case UpsertCustomer(_) => 2
    case UpsertDebt(_) => 3
    case InsertPayments(_) => 4
  }

  ghost predicate PhasesOrdered(steps: seq<Step>)
  {
    forall i, j :: 0 <= i < j < |steps| ==> Phase(steps[i].request) <= Phase(steps[j].request)
  }

  ghost predicate AllInPhase(steps: seq<Step>, k: int)
  {
    forall i :: 0 <= i < |steps| ==> Phase(steps[i].request) == k
  }

  lemma OrderedAppend(a: seq<Step>, b: seq<Step>, ka: int, kb: int)
    requires PhasesOrdered(a) && (forall i :: 0 <= i < |a| ==> Phase(a[i].request) <= ka)
    requires AllInPhase(b, kb) && ka <= kb
    ensures PhasesOrdered(a + b)
    ensures forall i :: 0 <= i < |a + b| ==> Phase((a + b)[i].request) <= kb
  {
  }

  /** Five runs of calls, each of one kind, in the order of their kinds. */
  lemma FivePhases(s0: seq<Step>, s1: seq<Step>, s2: seq<Step>, s3: seq<Step>, s4: seq<Step>)
    requires AllInPhase(s0, 0) && AllInPhase(s1, 1) && AllInPhase(s2, 2)
    requires AllInPhase(s3, 3) && AllInPhase(s4, 4)
    ensures PhasesOrdered(s0 + s1 + s2 + s3 + s4)
  {
    OrderedAppend(s0, s1, 0, 1);
    OrderedAppend(s0 + s1, s2, 1, 2);
    OrderedAppend(s0 + s1 + s2, s3, 2, 3);
    OrderedAppend(s0 + s1 + s2 + s3, s4, 3, 4);
  }

  /** Each builder of a run yields calls of one kind only, and each bulk
      builder at most one call. */
  lemma BuilderPhases(cids: seq<string>, dids: seq<string>, up: seq<Customer>, dp: seq<Debt>, pp: seq<Payment>)
    ensures AllInPhase(DeletionStep(CustomersTable, cids), 0) && |DeletionStep(CustomersTable, cids)| <= 1
    ensures AllInPhase(DeletionStep(DebtsTable, dids), 1) && |DeletionStep(DebtsTable, dids)| <= 1
    ensures AllInPhase(CustomerUpserts(up), 2)
    ensures AllInPhase(DebtUpserts(dp), 3)
    ensures AllInPhase(PaymentStep(pp), 4) && |PaymentStep(pp)| <= 1
  {
  }

  /** A run deletes customers, then deletes debts, then upserts customers,
      then upserts debts, then inserts payments, and there is at most one
      bulk call of each bulk kind. */
  lemma PlanOrder(cs: seq<Customer>, ds: seq<Debt>, ps: seq<Payment>)
    ensures PhasesOrdered(Plan(cs, ds, ps))
    ensures |DeletionStep(CustomersTable, CustomerIds(CustomersToDelete(cs)))| <= 1
    ensures |DeletionStep(DebtsTable, DebtIds(DebtsToDelete(ds)))| <= 1
    ensures |PaymentStep(PaymentsToInsert(ps))| <= 1
  {
    var cids := CustomerIds(CustomersToDelete(cs));
    var dids := DebtIds(DebtsToDelete(ds));
    var up := CustomersToUpsert(cs);
    var dp := DebtsToUpsert(ds);
    var pp := PaymentsToInsert(ps);
    BuilderPhases(cids, dids, up, dp, pp);
    FivePhases(DeletionStep(CustomersTable, cids), DeletionStep(DebtsTable, dids),
      CustomerUpserts(up), DebtUpserts(dp), PaymentStep(pp));
  }

  // ---------------------------------------------------------------------
  // Status write-backs

  /** A status write-back `update...(id, { sync_status }, { sync: false })`. */
  datatype StatusWrite = StatusWrite(table: Table, id: string, status: SyncStatus)

  function StatusFor(success: bool): SyncStatus
  {
    if success then Synced else Error
  }

  /** The write-backs after one call, one per target in order. */
  function StepWrites(step: Step, success: bool): (ws: seq<StatusWrite>)
    ensures |ws| == |step.targets|
    ensures forall k :: 0 <= k < |ws| ==> ws[k] == StatusWrite(step.table, step.targets[k], StatusFor(success))
  {
    Map(step.targets, (id: string) => StatusWrite(step.table, id, StatusFor(success)))
  }

  /** The write-backs of a whole run, call after call. */
  function WritesOf(plan: seq<Step>, ok: seq<bool>): seq<StatusWrite>
    requires |ok| == |plan|
  {
    if |plan| == 0 then []
    else
      var n := |plan| - 1;
      WritesOf(plan[..n], ok[..n]) + StepWrites(plan[n], ok[n])
  }

  /** The write-backs of the first `i + 1` calls extend those of the first `i`. */
  lemma WritesOfPrefix(plan: seq<Step>, ok: seq<bool>, i: int)
    requires |ok| == |plan| && 0 <= i < |plan|
    ensures WritesOf(plan[..i + 1], ok[..i + 1]) == WritesOf(plan[..i], ok[..i]) + StepWrites(plan[i], ok[i])
  {
    assert plan[..i + 1][..i] == plan[..i];
    assert ok[..i + 1][..i] == ok[..i];
  }

  /** Each target of each call gets the outcome of that call, `synced` when
      it succeeded and `error` when not, and nothing else is written. */
  lemma WritesOfMeaning(plan: seq<Step>, ok: seq<bool>)
    requires |ok| == |plan|
    ensures forall w :: w in WritesOf(plan, ok) ==>
      (exists i :: 0 <= i < |plan| && w.table == plan[i].table && w.id in plan[i].targets && w.status == StatusFor(ok[i]))
    ensures forall i, id :: 0 <= i < |plan| && id in plan[i].targets ==>
      StatusWrite(plan[i].table, id, StatusFor(ok[i])) in WritesOf(plan, ok)
  {
    WritesOfSound(plan, ok);
    WritesOfComplete(plan, ok);
  }

  /** Every write-back is the outcome of a call for one of its targets. */
  lemma {:induction false} WritesOfSound(plan: seq<Step>, ok: seq<bool>)
    requires |ok| == |plan|
    ensures forall w :: w in WritesOf(plan, ok) ==>
      (exists i :: 0 <= i < |plan| && w.table == plan[i].table && w.id in plan[i].targets && w.status == StatusFor(ok[i]))
  {
    if |plan| > 0 {
      var n := |plan| - 1;
      WritesOfSound(plan[..n], ok[..n]);
      var last := StepWrites(plan[n], ok[n]);
      forall w | w in WritesOf(plan, ok)
        ensures exists i :: 0 <= i < |plan| && w.table == plan[i].table && w.id in plan[i].targets && w.status == StatusFor(ok[i])
      {
        if w in last {
          var k :| 0 <= k < |last| && last[k] == w;
          assert plan[n].targets[k] in plan[n].targets;
        } else {
          var i :| 0 <= i < n && w.table == plan[..n][i].table && w.id in plan[..n][i].targets && w.status == StatusFor(ok[..n][i]);
          assert plan[..n][i] == plan[i] && ok[..n][i] == ok[i];
        }
      }
    }
  }

  /** Every target of every call gets a write-back of that call's outcome. */
  lemma {:induction false} WritesOfComplete(plan: seq<Step>, ok: seq<bool>)
    requires |ok| == |plan|
    ensures forall i, id :: 0 <= i < |plan| && id in plan[i].targets ==>
      StatusWrite(plan[i].table, id, StatusFor(ok[i])) in WritesOf(plan, ok)
  {
    if |plan| > 0 {
      var n := |plan| - 1;
      WritesOfComplete(plan[..n], ok[..n]);
      var last := StepWrites(plan[n], ok[n]);
      forall i, id | 0 <= i < |plan| && id in plan[i].targets
        ensures StatusWrite(plan[i].table, id, StatusFor(ok[i])) in WritesOf(plan, ok)
      {
        if i == n {
          var k :| 0 <= k < |plan[n].targets| && plan[n].targets[k] == id;
          assert last[k] == StatusWrite(plan[n].table, id, StatusFor(ok[n]));
        } else {
          assert plan[..n][i] == plan[i];
          assert ok[..n][i] == ok[i];
        }
      }
    }
  }

  /** Some call of `steps` on `table` targets `id`. */
  ghost predicate Targeted(steps: seq<Step>, table: Table, id: string)
  {
    exists i :: 0 <= i < |steps| && steps[i].table == table && id in steps[i].targets
  }

  lemma TargetedAppend(a: seq<Step>, b: seq<Step>, table: Table, id: string)
    ensures Targeted(a + b, table, id) <==> Targeted(a, table, id) || Targeted(b, table, id)
  {
    if Targeted(a + b, table, id) {
      var i :| 0 <= i < |a + b| && (a + b)[i].table == table && id in (a + b)[i].targets;
      if i >= |a| {
        assert b[i - |a|] == (a + b)[i];
      }
    }
    if Targeted(a, table, id) {
      var i :| 0 <= i < |a| && a[i].table == table && id in a[i].targets;
      assert (a + b)[i] == a[i];
    }
    if Targeted(b, table, id) {
      var i :| 0 <= i < |b| && b[i].table == table && id in b[i].targets;
      assert (a + b)[|a| + i] == b[i];
    }
  }

  /** A five-phase run targets `id` exactly when one of its phases does. */
  lemma TargetedFive(s0: seq<Step>, s1: seq<Step>, s2: seq<Step>, s3: seq<Step>, s4: seq<Step>, table: Table, id: string)
    ensures Targeted(s0 + s1 + s2 + s3 + s4, table, id) <==>
      Targeted(s0, table, id) || Targeted(s1, table, id) || Targeted(s2, table, id)
      || Targeted(s3, table, id) || Targeted(s4, table, id)
  {
    TargetedAppend(s0, s1, table, id);
    TargetedAppend(s0 + s1, s2, table, id);
    TargetedAppend(s0 + s1 + s2, s3, table, id);
    TargetedAppend(s0 + s1 + s2 + s3, s4, table, id);
  }

  lemma DeletionTargets(table: Table, ids: seq<string>, t: Table, id: string)
    ensures Targeted(DeletionStep(table, ids), t, id) <==> t == table && id in ids
  {
    if t == table && id in ids {
      assert DeletionStep(table, ids)[0].targets == ids;
    }
  }

  lemma CustomerUpsertTargets(up: seq<Customer>, id: string)
    ensures Targeted(CustomerUpserts(up), CustomersTable, id) <==> exists c :: c in up && c.id == id
  {
    var steps := CustomerUpserts(up);
    if Targeted(steps, CustomersTable, id) {
      var k :| 0 <= k < |steps| && steps[k].table == CustomersTable && id in steps[k].targets;
      assert up[k] in up;
    }
    if c :| c in up && c.id == id {
      var k :| 0 <= k < |up| && up[k] == c;
      assert id in steps[k].targets;
    }
  }

  /** The customer calls of a run target exactly the pending customers: the
      deleted ones through the bulk delete, the others one upsert each. */
  lemma CustomerTargets(cs: seq<Customer>, ds: seq<Debt>, ps: seq<Payment>, id: string)
    ensures Targeted(Plan(cs, ds, ps), CustomersTable, id) <==>
      exists c :: c in cs && c.id == id && c.syncStatus == Some(Pending)
  {
    var del := CustomersToDelete(cs);
    var up := CustomersToUpsert(cs);
    var s0 := DeletionStep(CustomersTable, CustomerIds(del));
    var s1 := DeletionStep(DebtsTable, DebtIds(DebtsToDelete(ds)));
    var s2 := CustomerUpserts(up);
    var s3 := DebtUpserts(DebtsToUpsert(ds));
    var s4 := PaymentStep(PaymentsToInsert(ps));
    TargetedFive(s0, s1, s2, s3, s4, CustomersTable, id);
    DeletionTargets(CustomersTable, CustomerIds(del), CustomersTable, id);
    DeletionTargets(DebtsTable, DebtIds(DebtsToDelete(ds)), CustomersTable, id);
    CustomerUpsertTargets(up, id);
    assert !Targeted(s3, CustomersTable, id);
    assert !Targeted(s4, CustomersTable, id);
    assert Targeted(Plan(cs, ds, ps), CustomersTable, id) <==>
      (exists c :: c in del && c.id == id) || (exists c :: c in up && c.id == id);
  }

  lemma DebtUpsertTargets(up: seq<Debt>, id: string)
    ensures Targeted(DebtUpserts(up), DebtsTable, id) <==> exists d :: d in up && d.id == id
  {
    var steps := DebtUpserts(up);
    if Targeted(steps, DebtsTable, id) {
      var k :| 0 <= k < |steps| && steps[k].table == DebtsTable && id in steps[k].targets;
      assert up[k] in up;
    }
    if d :| d in up && d.id == id {
      var k :| 0 <= k < |up| && up[k] == d;
      assert id in steps[k].targets;
    }
  }

  /** The debt calls of a run target exactly the pending debts. */
  lemma DebtTargets(cs: seq<Customer>, ds: seq<Debt>, ps: seq<Payment>, id: string)
    ensures Targeted(Plan(cs, ds, ps), DebtsTable, id) <==>
      exists d :: d in ds && d.id == id && d.syncStatus == Some(Pending)
  {
    var del := DebtsToDelete(ds);
    var up := DebtsToUpsert(ds);
    var s0 := DeletionStep(CustomersTable, CustomerIds(CustomersToDelete(cs)));
    var s1 := DeletionStep(DebtsTable, DebtIds(del));
    var s2 := CustomerUpserts(CustomersToUpsert(cs));
    var s3 := DebtUpserts(up);
    var s4 := PaymentStep(PaymentsToInsert(ps));
    TargetedFive(s0, s1, s2, s3, s4, DebtsTable, id);
    DeletionTargets(CustomersTable, CustomerIds(CustomersToDelete(cs)), DebtsTable, id);
    DeletionTargets(DebtsTable, DebtIds(del), DebtsTable, id);
    DebtUpsertTargets(up, id);
    assert !Targeted(s2, DebtsTable, id);
    assert !Targeted(s4, DebtsTable, id);
    assert Targeted(Plan(cs, ds, ps), DebtsTable, id) <==>
      (exists d :: d in del && d.id == id) || (exists d :: d in up && d.id == id);
  }

  /** No payment status is ever written back, so a pending payment stays
      pending and is inserted again by every later run. */
  lemma NoPaymentWriteBack(cs: seq<Customer>, ds: seq<Debt>, ps: seq<Payment>, ok: seq<bool>)
    requires |ok| == |Plan(cs, ds, ps)|
    ensures forall w :: w in WritesOf(Plan(cs, ds, ps), ok) ==> w.table != PaymentsTable
  {
    var plan := Plan(cs, ds, ps);
    WritesOfMeaning(plan, ok);
    forall w | w in WritesOf(plan, ok) ensures w.table != PaymentsTable {
      var i :| 0 <= i < |plan| && w.table == plan[i].table && w.id in plan[i].targets && w.status == StatusFor(ok[i]);
      if w.table == PaymentsTable {
        PaymentsNeverTargeted(cs, ds, ps, w.id);
        assert Targeted(plan, PaymentsTable, w.id);
      }
    }
  }

  lemma PaymentsNeverTargeted(cs: seq<Customer>, ds: seq<Debt>, ps: seq<Payment>, id: string)
    ensures !Targeted(Plan(cs, ds, ps), PaymentsTable, id)
  {
    var s0 := DeletionStep(CustomersTable, CustomerIds(CustomersToDelete(cs)));
    var s1 := DeletionStep(DebtsTable, DebtIds(DebtsToDelete(ds)));
    var s2 := CustomerUpserts(CustomersToUpsert(cs));
    var s3 := DebtUpserts(DebtsToUpsert(ds));
    var s4 := PaymentStep(PaymentsToInsert(ps));
    TargetedAppend(s0, s1, PaymentsTable, id);
    TargetedAppend(s0 + s1, s2, PaymentsTable, id);
    TargetedAppend(s0 + s1 + s2, s3, PaymentsTable, id);
    TargetedAppend(s0 + s1 + s2 + s3, s4, PaymentsTable, id);
    DeletionTargets(CustomersTable, CustomerIds(CustomersToDelete(cs)), PaymentsTable, id);
    DeletionTargets(DebtsTable, DebtIds(DebtsToDelete(ds)), PaymentsTable, id);
    assert !Targeted(s2, PaymentsTable, id);
    assert !Targeted(s3, PaymentsTable, id);
    assert !Targeted(s4, PaymentsTable, id);
  }

  // ---------------------------------------------------------------------
  // A run

  /** The status write-backs after one call, in target order. Each is an
      update without syncing, so the store keeps its contents. */
  method WriteBack(store: Store, step: Step, success: bool) returns (ws: seq<StatusWrite>)
    modifies store
    ensures ws == StepWrites(step, success)
    ensures store.customers == old(store.customers) && store.debts == old(store.debts)
    ensures store.payments == old(store.payments) && store.reminderSettings == old(store.reminderSettings)
  {
    var status := StatusFor(success);
    ws := [];
    var k := 0;
    while k < |step.targets|
      invariant 0 <= k <= |step.targets|
      invariant ws == StepWrites(step, success)[..k]
      invariant store.customers == old(store.customers) && store.debts == old(store.debts)
      invariant store.payments == old(store.payments) && store.reminderSettings == old(store.reminderSettings)
    {
      var id := step.targets[k];
      StatusOnlyUpdateIsIdentity(store.customers, store.debts, id, Some(status));
      if step.table == CustomersTable {
        store.UpdateCustomer(id, EMPTY_CUSTOMER_PATCH.(syncStatus := Set(Some(status))), false);
      } else if step.table == DebtsTable {
        store.UpdateDebt(id, EMPTY_DEBT_PATCH.(syncStatus := Set(Some(status))), false);
      }
      ws := ws + [StatusWrite(step.table, id, status)];
      k := k + 1;
    }
  }

  /** One call of a run: sends the `i`-th request, writes its outcome back
      and folds the outcome into the overall result. */
  method RunStep(store: Store, plan: seq<Step>, ok: seq<bool>, i: int,
                 allSuccess: bool, sent: seq<Request>, writes: seq<StatusWrite>)
    returns (allSuccess': bool, sent': seq<Request>, writes': seq<StatusWrite>)
    requires |ok| == |plan| && 0 <= i < |plan|
    requires |sent| == i && forall k :: 0 <= k < i ==> sent[k] == plan[k].request
    requires writes == WritesOf(plan[..i], ok[..i])
    requires allSuccess == (false !in ok[..i])
    modifies store
    ensures |sent'| == i + 1 && forall k :: 0 <= k < i + 1 ==> sent'[k] == plan[k].request
    ensures writes' == WritesOf(plan[..i + 1], ok[..i + 1])
    ensures allSuccess' == (false !in ok[..i + 1])
    ensures store.customers == old(store.customers) && store.debts == old(store.debts)
    ensures store.payments == old(store.payments) && store.reminderSettings == old(store.reminderSettings)
  {
    var step := plan[i];
    sent' := sent + [step.request];
    assert ok[..i + 1] == ok[..i] + [ok[i]];
    allSuccess' := allSuccess;
    if !ok[i] {
      allSuccess' := false;
    }
    var stepWrites := WriteBack(store, step, ok[i]);
    WritesOfPrefix(plan, ok, i);
    writes' := writes + stepWrites;
  }

  /** Makes the calls of `plan` in order, writing each call's outcome back
      and reporting whether every call succeeded. */
  method RunPlan(store: Store, plan: seq<Step>, ok: seq<bool>) returns (allSuccess: bool, sent: seq<Request>, writes: seq<StatusWrite>)
    requires |ok| == |plan|
    modifies store
    ensures |sent| == |plan| && forall k :: 0 <= k < |plan| ==> sent[k] == plan[k].request
    ensures writes == WritesOf(plan, ok)
    ensures allSuccess <==> forall i :: 0 <= i < |ok| ==> ok[i]
    ensures store.customers == old(store.customers) && store.debts == old(store.debts)
    ensures store.payments == old(store.payments) && store.reminderSettings == old(store.reminderSettings)
  {
    allSuccess := true;
    sent := [];
    writes := [];
    var i := 0;
    while i < |plan|
      invariant 0 <= i <= |plan|
      invariant |sent| == i && forall k :: 0 <= k < i ==> sent[k] == plan[k].request
      invariant writes == WritesOf(plan[..i], ok[..i])
      invariant allSuccess == (false !in ok[..i])
      invariant store.customers == old(store.customers) && store.debts == old(store.debts)
      invariant store.payments == old(store.payments) && store.reminderSettings == old(store.reminderSettings)
    {
      allSuccess, sent, writes := RunStep(store, plan, ok, i, allSuccess, sent, writes);
      i := i + 1;
    }
    assert plan[..i] == plan;
    assert ok[..i] == ok;
  }

  /** `syncAllToSupabase`: sends the plan of the store's current contents,
      writes each call's outcome back as a status update without syncing,
      and reports whether every call succeeded. A status update without
      syncing keeps the old status, so the store comes out unchanged and the
      next run sends the same records again. */
  method SyncAll(store: Store, ok: seq<bool>) returns (allSuccess: bool, sent: seq<Request>, writes: seq<StatusWrite>)
    requires |ok| == |Plan(store.customers, store.debts, store.payments)|
    modifies store
    ensures var plan := Plan(old(store.customers), old(store.debts), old(store.payments));
      |sent| == |plan| && forall k :: 0 <= k < |plan| ==> sent[k] == plan[k].request
    ensures writes == WritesOf(Plan(old(store.customers), old(store.debts), old(store.payments)), ok)
    ensures allSuccess <==> forall i :: 0 <= i < |ok| ==> ok[i]
    ensures store.customers == old(store.customers) && store.debts == old(store.debts)
    ensures store.payments == old(store.payments) && store.reminderSettings == old(store.reminderSettings)
  {
    var plan := Plan(store.customers, store.debts, store.payments);
    allSuccess, sent, writes := RunPlan(store, plan, ok);
  }
}
