/** The inductive invariant of the renewal protocol and its preservation by every step. */
module ProtocolInvariant {
  import opened Calendar
  import opened RenewalKeys
  import opened Domain
  import opened Protocol

  /** The k-th period end of a subscription, counted from the row it was born as. */
  function PeriodEnd(born: Subscription, k: nat): Instant {
    Period(born.periodEnd, born.interval, born.intervalCount, k)
  }

  function PeriodKey(born: Subscription, k: nat): PaymentKey {
    PaymentKey(born.tenant, RenewalKey(born.key, PeriodEnd(born, k)))
  }

  /** Period k of a subscription has its payment row. */
  ghost predicate Recorded(payments: Payments, born: Subscription, k: nat) {
    PeriodKey(born, k) in payments
  }

  /** Period k may be charged: the period before it has its row. */
  ghost predicate Payable(payments: Payments, born: Subscription, k: nat) {
    k == 0 || Recorded(payments, born, k - 1)
  }

  /** The columns no statement ever writes again. */
  predicate SameTerms(a: Subscription, b: Subscription) {
    && a.id == b.id && a.tenant == b.tenant && a.key == b.key && a.providerName == b.providerName
    && a.interval == b.interval && a.intervalCount == b.intervalCount && a.currency == b.currency
    && a.trialEndsAt == b.trialEndsAt
  }

  ghost predicate AtPeriod(born: Subscriptions, payments: Payments, row: Subscription, k: nat) {
    && row.id in born && SameTerms(row, born[row.id])
    && row.periodEnd == PeriodEnd(born[row.id], k)
    && Payable(payments, born[row.id], k)
  }

  /** A row, stored or remembered, whose period end is that of some payable period. */
  ghost predicate GoodRow(born: Subscriptions, payments: Payments, row: Subscription) {
    exists k: nat :: AtPeriod(born, payments, row, k)
  }

  predicate Renews(born: Subscriptions, id: Uuid, tenant: Uuid, providerName: string, key: string, k: nat) {
    && id in born && tenant == born[id].tenant && providerName == born[id].providerName
    && PaymentKey(tenant, key) == PeriodKey(born[id], k)
  }

  ghost predicate GoodRequest(born: Subscriptions, payments: Payments, req: Request) {
    IsRenewalKey(req.key) ==>
      exists k: nat :: Renews(born, req.subscriptionId, req.tenant, req.providerName, req.key, k)
                       && Payable(payments, born[req.subscriptionId], k)
  }

  ghost predicate GoodPayment(born: Subscriptions, charges: Charges, pk: PaymentKey, row: Payment) {
    var ck := ChargeKey(row.tenant, row.providerName, row.key);
    && pk == PaymentKey(row.tenant, row.key)
    && ck in charges && charges[ck].id == row.chargeId
    && (IsRenewalKey(row.key) ==>
          exists k: nat :: Renews(born, row.subscriptionId, row.tenant, row.providerName, row.key, k))
  }

  ghost predicate GoodCall(payments: Payments, charges: Charges, sent: set<Request>, call: Call) {
    && call.req in sent
    && (call.stage.Charged? ==>
          ChargeKeyOf(call.req) in charges && charges[ChargeKeyOf(call.req)].id == call.stage.charge.id)
    && (call.stage.Conflicted? ==> PaymentKeyOf(call.req) in payments)
  }

  ghost predicate Listed(listings: set<Listing>, row: Subscription) {
    exists l :: l in listings && l.row == row
  }

  ghost predicate GoodQueue(born: Subscriptions, payments: Payments, listings: set<Listing>, queue: seq<Subscription>) {
    forall row <- queue :: GoodRow(born, payments, row) && Listed(listings, row)
  }

  /** A status job's rows are rows its query selects, and the trial job reads no clock ahead of the real one. */
  predicate GoodStatusJob(queue: seq<Subscription>, q: Query, clock: Instant) {
    && !q.DueForRenewal? && (q.ExpiredTrials? ==> AtOrBefore(q.now, clock))
    && forall row <- queue :: Selects(q, row)
  }

  ghost predicate GoodProcess(s: System, proc: Process) {
    match proc
    case ApiPayment(call) =>
      GoodCall(s.payments, s.charges, s.sent, call) && !IsRenewalKey(call.req.key)
    case Renewing(queue) => GoodQueue(s.born, s.payments, s.listings, queue)
    case Paying(queue, call) =>
      && GoodQueue(s.born, s.payments, s.listings, queue) && queue != []
      && GoodCall(s.payments, s.charges, s.sent, call) && call.req == RenewalRequest(queue[0])
    case Advancing(queue) =>
      && GoodQueue(s.born, s.payments, s.listings, queue) && queue != []
      && PaymentKeyOf(RenewalRequest(queue[0])) in s.payments
    case Failing(queue) => GoodQueue(s.born, s.payments, s.listings, queue) && queue != []
    case StatusJob(queue, q) =>
      GoodStatusJob(queue, q, s.clock)
      && forall row <- queue :: GoodRow(s.born, s.payments, row)
    case Patching(seen, patch) => GoodRow(s.born, s.payments, seen) && PatchAllowed(seen, patch, s.payPerUse)
  }

  ghost predicate InvBorn(born: Subscriptions) {
    && Keyed(born)
    && (forall id <- born :: born[id].intervalCount != 0 && IsUuid(born[id].key))
    && (forall i, j :: i in born && j in born && born[i].key == born[j].key ==> i == j)
  }

  ghost predicate InvRows(born: Subscriptions, subs: Subscriptions, payments: Payments) {
    && subs.Keys == born.Keys && Keyed(subs)
    && forall id <- subs :: GoodRow(born, payments, subs[id])
  }

  ghost predicate InvSent(born: Subscriptions, payments: Payments, sent: set<Request>) {
    forall req <- sent :: GoodRequest(born, payments, req)
  }

  ghost predicate InvCharges(charges: Charges, sent: set<Request>) {
    forall ck <- charges :: exists req :: req in sent && ChargeKeyOf(req) == ck
  }

  ghost predicate InvPayments(born: Subscriptions, payments: Payments, charges: Charges) {
    forall pk <- payments :: GoodPayment(born, charges, pk, payments[pk])
  }

  ghost predicate InvPrefix(born: Subscriptions, payments: Payments) {
    forall id, k: nat :: id in born && Recorded(payments, born[id], k) ==> Payable(payments, born[id], k)
  }

  ghost predicate InvReturned(payments: Payments, returned: seq<Return>) {
    && (forall r <- returned :: r.key in payments && payments[r.key] == r.payment)
    && (forall i, j :: 0 <= i < j < |returned| && returned[i].key == returned[j].key ==> !returned[j].created)
  }

  /** Renewal requests and listed rows are backed by a listing that selected the row. */
  ghost predicate InvListings(s: System) {
    && (forall l <- s.listings :: Selects(DueForRenewal(l.now), l.row) && AtOrBefore(l.now, s.clock))
    && (forall req <- s.sent :: IsRenewalKey(req.key) ==>
          exists l :: l in s.listings && RenewalRequest(l.row) == req)
  }

  ghost predicate InvProcesses(s: System) {
    forall p <- s.processes :: GoodProcess(s, s.processes[p])
  }

  ghost predicate Inv(s: System) {
    && InvBorn(s.born)
    && InvRows(s.born, s.subs, s.payments)
    && InvSent(s.born, s.payments, s.sent)
    && InvCharges(s.charges, s.sent)
    && InvPayments(s.born, s.payments, s.charges)
    && InvPrefix(s.born, s.payments)
    && InvReturned(s.payments, s.returned)
    && InvListings(s)
    && InvProcesses(s)
  }

  // ----- What only grows -----

  /** Tables and records that only gain entries, and charges that keep their ids. */
  ghost predicate Grows(s: System, t: System) {
    && (forall id <- s.born :: id in t.born && t.born[id] == s.born[id])
    && (forall pk <- s.payments :: pk in t.payments && t.payments[pk] == s.payments[pk])
    && (forall ck <- s.charges :: ck in t.charges && t.charges[ck].id == s.charges[ck].id)
    && s.sent <= t.sent && s.listings <= t.listings
    && s.returned <= t.returned
    && AtOrBefore(s.clock, t.clock)
    && t.payPerUse == s.payPerUse
  }

  lemma CreateGrows(s: System, row: Subscription)
    requires Enabled(s, CreateSubscription(row))
    ensures Grows(s, Apply(s, CreateSubscription(row)))
  {
    hide CalculatePeriodEnd, KnownInterval;
  }

  lemma ChargeGrows(s: System, a: Action)
    requires a.ReachProvider? || a.SettleCharge?
    requires Enabled(s, a)
    ensures Grows(s, Apply(s, a))
  {
  }

  lemma InsertGrows(s: System, p: nat, replied: bool)
    requires Enabled(s, InsertRow(p, replied))
    ensures Grows(s, Apply(s, InsertRow(p, replied)))
  {
    hide CallEnded, AtStage, PaymentRow;
  }

  predicate WritesRecords(a: Action) {
    a.CreateSubscription? || a.ReachProvider? || a.SettleCharge? || a.InsertRow?
  }

  predicate WritesRows(a: Action) {
    a.Tick? || a.WritePatch? || a.CancelSubscription? || a.Advance? || a.MarkPastDue? || a.WriteStatus?
  }

  lemma RowStepGrows(s: System, a: Action)
    requires Enabled(s, a) && WritesRows(a)
    ensures Grows(s, Apply(s, a))
  {
    hide WithPatch, WithCancel, WithStatus, WithPeriod, NextPeriodEnd;
  }

  lemma ProcessStepGrows(s: System, a: Action)
    requires Enabled(s, a) && !WritesRecords(a) && !WritesRows(a)
    ensures Grows(s, Apply(s, a))
  {
    hide IsPage, ValidRequest, IsRenewalKey, TargetOf, CallEnded, AtStage, RenewalRequest;
  }

  /** No step loses or rewrites a payment row, a charge or a record of the past. */
  lemma StepGrows(s: System, a: Action)
    requires Enabled(s, a)
    ensures Grows(s, Apply(s, a))
  {
    hide Grows, Enabled, Apply;
    match a
    case CreateSubscription(row) => CreateGrows(s, row);
    case ReachProvider(_, _) => ChargeGrows(s, a);
    case SettleCharge(_, _) => ChargeGrows(s, a);
    case InsertRow(p, replied) => InsertGrows(s, p, replied);
    case _ => if WritesRows(a) { RowStepGrows(s, a); } else { ProcessStepGrows(s, a); }
  }

  lemma PeriodGrows(s: System, t: System, row: Subscription, k: nat)
    requires Grows(s, t) && AtPeriod(s.born, s.payments, row, k)
    ensures AtPeriod(t.born, t.payments, row, k)
  {
    hide PeriodKey, PeriodEnd, SameTerms;
  }

  lemma RowGrows(s: System, t: System, row: Subscription)
    requires Grows(s, t) && GoodRow(s.born, s.payments, row)
    ensures GoodRow(t.born, t.payments, row)
  {
    var k: nat :| AtPeriod(s.born, s.payments, row, k);
    PeriodGrows(s, t, row, k);
  }

  lemma QueueGrows(s: System, t: System, queue: seq<Subscription>)
    requires Grows(s, t) && GoodQueue(s.born, s.payments, s.listings, queue)
    ensures GoodQueue(t.born, t.payments, t.listings, queue)
  {
    hide GoodRow;
    forall row | row in queue
      ensures GoodRow(t.born, t.payments, row) && Listed(t.listings, row)
    {
      RowGrows(s, t, row);
    }
  }

  lemma RowsGrow(s: System, t: System, queue: seq<Subscription>)
    requires Grows(s, t) && forall row <- queue :: GoodRow(s.born, s.payments, row)
    ensures forall row <- queue :: GoodRow(t.born, t.payments, row)
  {
    hide GoodRow;
    forall row | row in queue
      ensures GoodRow(t.born, t.payments, row)
    {
      RowGrows(s, t, row);
    }
  }

  lemma RequestGrows(s: System, t: System, req: Request)
    requires Grows(s, t) && GoodRequest(s.born, s.payments, req)
    ensures GoodRequest(t.born, t.payments, req)
  {
    hide PeriodKey, IsRenewalKey;
    if IsRenewalKey(req.key) {
      var k: nat :| Renews(s.born, req.subscriptionId, req.tenant, req.providerName, req.key, k)
                    && Payable(s.payments, s.born[req.subscriptionId], k);
      assert Renews(t.born, req.subscriptionId, req.tenant, req.providerName, req.key, k)
             && Payable(t.payments, t.born[req.subscriptionId], k);
    }
  }

  lemma PaymentGrows(s: System, t: System, pk: PaymentKey, row: Payment)
    requires Grows(s, t) && GoodPayment(s.born, s.charges, pk, row)
    ensures GoodPayment(t.born, t.charges, pk, row)
  {
    hide PeriodKey, IsRenewalKey;
    if IsRenewalKey(row.key) {
      var k: nat :| Renews(s.born, row.subscriptionId, row.tenant, row.providerName, row.key, k);
      assert Renews(t.born, row.subscriptionId, row.tenant, row.providerName, row.key, k);
    }
  }

  lemma ProcessGrows(s: System, t: System, proc: Process)
    requires Grows(s, t) && GoodProcess(s, proc)
    ensures GoodProcess(t, proc)
  {
    hide GoodQueue, RenewalRequest, IsRenewalKey;
    match proc
    case Renewing(queue) => QueueGrows(s, t, queue);
    case Paying(queue, _) => QueueGrows(s, t, queue);
    case Advancing(queue) => QueueGrows(s, t, queue);
    case Failing(queue) => QueueGrows(s, t, queue);
    case StatusJob(queue, _) => RowsGrow(s, t, queue);
    case Patching(seen, _) => RowGrows(s, t, seen);
    case _ =>
  }

  /** Processes, requests and rows that a step leaves alone stay good. */
  lemma OthersStayGood(s: System, t: System)
    requires Inv(s) && Grows(s, t)
    ensures forall p <- s.processes :: GoodProcess(t, s.processes[p])
    ensures forall req <- s.sent :: GoodRequest(t.born, t.payments, req)
    ensures forall id <- s.subs :: GoodRow(t.born, t.payments, s.subs[id])
    ensures forall pk <- s.payments :: GoodPayment(t.born, t.charges, pk, s.payments[pk])
  {
    hide GoodProcess, GoodRequest, GoodRow, GoodPayment;
    forall p | p in s.processes
      ensures GoodProcess(t, s.processes[p])
    {
      ProcessGrows(s, t, s.processes[p]);
    }
    forall req | req in s.sent
      ensures GoodRequest(t.born, t.payments, req)
    {
      RequestGrows(s, t, req);
    }
    forall id | id in s.subs
      ensures GoodRow(t.born, t.payments, s.subs[id])
    {
      RowGrows(s, t, s.subs[id]);
    }
    forall pk | pk in s.payments
      ensures GoodPayment(t.born, t.charges, pk, s.payments[pk])
    {
      PaymentGrows(s, t, pk, s.payments[pk]);
    }
  }

  // ----- Preservation -----

  /** Over all subscriptions and all their periods, a payment key names one period of one
      subscription. */
  lemma PeriodKeyInjective(born: Subscriptions, i: Uuid, k: nat, j: Uuid, l: nat)
    requires InvBorn(born) && i in born && j in born
    requires PeriodKey(born[i], k).key == PeriodKey(born[j], l).key
    ensures i == j && k == l
  {
    hide RenewalKey, Period, IsUuid;
    var a, b := born[i], born[j];
    PeriodKeysInjective(a.key, a.periodEnd, a.interval, a.intervalCount, k,
                        b.key, b.periodEnd, b.interval, b.intervalCount, l);
  }

  /** Rewriting columns that are neither terms nor the period end. */
  lemma RewriteKeepsRows(born: Subscriptions, subs: Subscriptions, payments: Payments, id: Uuid, row: Subscription)
    requires InvRows(born, subs, payments) && id in subs
    requires SameTerms(row, subs[id]) && row.periodEnd == subs[id].periodEnd
    ensures InvRows(born, subs[id := row], payments)
  {
    hide PeriodEnd, Payable;
    var k: nat :| AtPeriod(born, payments, subs[id], k);
    assert AtPeriod(born, payments, row, k);
  }

  lemma TickKeeps(s: System, to: Instant)
    requires Inv(s) && Enabled(s, Tick(to))
    ensures Inv(Apply(s, Tick(to)))
  {
    hide GoodRequest, GoodRow, GoodPayment, GoodProcess, Selects, RenewalRequest, IsRenewalKey, InvPrefix;
    StepGrows(s, Tick(to));
    OthersStayGood(s, Apply(s, Tick(to)));
  }

  /** A fresh subscription key appears in no payment. */
  lemma FreshRowUnrecorded(s: System, row: Subscription, k: nat)
    requires Inv(s) && Insertable(s.born, row)
    ensures PeriodKey(row, k) !in s.payments
  {
    hide RenewalKey, PeriodEnd, GoodRequest, GoodRow, GoodProcess, Selects, RenewalRequest, CalculatePeriodEnd;
    var pk := PeriodKey(row, k);
    if pk in s.payments {
      assert GoodPayment(s.born, s.charges, pk, s.payments[pk]);
      RenewalKeyIsRenewal(row.key, PeriodEnd(row, k));
      var pay := s.payments[pk];
      var l: nat :| Renews(s.born, pay.subscriptionId, pay.tenant, pay.providerName, pay.key, l);
      RenewalKeyIdentifies(row.key, PeriodEnd(row, k), s.born[pay.subscriptionId].key,
                           PeriodEnd(s.born[pay.subscriptionId], l));
    }
  }

  lemma CreateKeepsPrefix(s: System, row: Subscription)
    requires Inv(s) && Insertable(s.born, row)
    ensures InvPrefix(s.born[row.id := row], s.payments)
  {
    hide Inv, Insertable, Recorded, Payable;
    var born := s.born[row.id := row];
    forall id, k: nat | id in born && Recorded(s.payments, born[id], k)
      ensures Payable(s.payments, born[id], k)
    {
      if id == row.id {
        FreshRowUnrecorded(s, row, k);
        UnrecordedPeriod(s.payments, row, k);
      } else {
        PrefixOf(s, id, k);
      }
    }
  }

  lemma UnrecordedPeriod(payments: Payments, row: Subscription, k: nat)
    requires PeriodKey(row, k) !in payments
    ensures !Recorded(payments, row, k)
  {
  }

  lemma PrefixOf(s: System, id: Uuid, k: nat)
    requires Inv(s) && id in s.born && Recorded(s.payments, s.born[id], k)
    ensures Payable(s.payments, s.born[id], k)
  {
  }

  lemma CreateKeepsRows(s: System, row: Subscription)
    requires Inv(s) && Insertable(s.born, row)
    requires forall id <- s.subs :: GoodRow(s.born[row.id := row], s.payments, s.subs[id])
    ensures InvBorn(s.born[row.id := row])
    ensures InvRows(s.born[row.id := row], s.subs[row.id := row], s.payments)
  {
    hide GoodRow, CalculatePeriodEnd, KnownInterval, InvSent, InvCharges, InvPayments, InvPrefix, InvReturned,
         InvListings, InvProcesses;
    NewRowGood(s.born[row.id := row], s.payments, row);
  }

  lemma CreateKeeps(s: System, row: Subscription)
    requires Inv(s) && Enabled(s, CreateSubscription(row))
    ensures Inv(Apply(s, CreateSubscription(row)))
  {
    hide GoodRequest, GoodRow, GoodPayment, GoodProcess, Selects, RenewalRequest, IsRenewalKey, Insertable,
         InvPrefix, InvBorn, InvRows;
    var a := CreateSubscription(row);
    var t := Apply(s, a);
    StepGrows(s, a);
    OthersStayGood(s, t);
    CreateKeepsRows(s, row);
    CreateKeepsPrefix(s, row);
  }

  lemma NewRowGood(born: Subscriptions, payments: Payments, row: Subscription)
    requires row.id in born && born[row.id] == row
    ensures GoodRow(born, payments, row)
  {
    assert PeriodEnd(row, 0) == row.periodEnd;
    assert AtPeriod(born, payments, row, 0);
  }

  /** A statement that rewrites one row and no records. */
  lemma RewriteKeeps(s: System, t: System)
    requires Inv(s) && Grows(s, t)
    requires t == s.(subs := t.subs)
    requires InvRows(s.born, t.subs, s.payments)
    ensures Inv(t)
  {
    hide GoodRequest, GoodRow, GoodPayment, GoodProcess, Selects, RenewalRequest, IsRenewalKey, InvPrefix, InvRows,
         InvBorn;
    OthersStayGood(s, t);
  }

  /** PATCH, Cancel and UpdateStatus keep a row's terms and period end. */
  lemma ColumnsKept(s: System, id: Uuid, patch: Patch, atPeriodEnd: bool, status: Status)
    requires Inv(s)
    ensures InvRows(s.born, WithPatch(s.subs, id, patch), s.payments)
    ensures InvRows(s.born, WithCancel(s.subs, id, atPeriodEnd), s.payments)
    ensures InvRows(s.born, WithStatus(s.subs, id, status), s.payments)
  {
    hide InvRows, InvBorn, InvSent, InvCharges, InvPayments, InvPrefix, InvReturned, InvListings, InvProcesses;
    if id in s.subs {
      RewriteKeepsRows(s.born, s.subs, s.payments, id, PatchedRow(s.subs[id], patch));
      RewriteKeepsRows(s.born, s.subs, s.payments, id, CanceledRow(s.subs[id], atPeriodEnd));
      RewriteKeepsRows(s.born, s.subs, s.payments, id, s.subs[id].(status := status));
    }
  }

  lemma CancelKeeps(s: System, id: Uuid, atPeriodEnd: bool)
    requires Inv(s) && Enabled(s, CancelSubscription(id, atPeriodEnd))
    ensures Inv(Apply(s, CancelSubscription(id, atPeriodEnd)))
  {
    hide Inv, WithCancel, Grows;
    StepGrows(s, CancelSubscription(id, atPeriodEnd));
    ColumnsKept(s, id, Patch(None, None, None), atPeriodEnd, Active);
    RewriteKeeps(s, Apply(s, CancelSubscription(id, atPeriodEnd)));
  }

  /** Only process p changed its stage; the other processes stay good because records only grow. */
  lemma ProcessesKept(s: System, t: System, p: nat)
    requires Inv(s) && Grows(s, t)
    requires forall q <- t.processes :: q != p ==> q in s.processes && t.processes[q] == s.processes[q]
    requires p in t.processes ==> GoodProcess(t, t.processes[p])
    ensures InvProcesses(t)
  {
    hide Grows, GoodProcess, GoodRequest, GoodRow, GoodPayment, InvBorn, InvRows, InvSent, InvCharges, InvPayments,
         InvPrefix, InvReturned, InvListings;
    OthersStayGood(s, t);
  }

  /** A step of process p that leaves the tables and the provider alone. */
  lemma StageKeeps(s: System, t: System, p: nat)
    requires Inv(s) && Grows(s, t)
    requires t == s.(processes := t.processes)
    requires forall q <- t.processes :: q != p ==> q in s.processes && t.processes[q] == s.processes[q]
    requires p in t.processes ==> GoodProcess(t, t.processes[p])
    ensures Inv(t)
  {
    hide Grows, GoodProcess, InvBorn, InvRows, InvSent, InvCharges, InvPayments, InvPrefix, InvReturned, Selects,
         RenewalRequest, IsRenewalKey;
    ProcessesKept(s, t, p);
  }

  lemma StartApiPaymentKeeps(s: System, p: nat, req: Request)
    requires Inv(s) && Enabled(s, StartApiPayment(p, req))
    ensures Inv(Apply(s, StartApiPayment(p, req)))
  {
    hide GoodRow, GoodPayment, Selects, RenewalRequest, IsRenewalKey, InvBorn, InvRows, InvPayments, InvPrefix,
         InvReturned, Grows, ValidRequest;
    var t := Apply(s, StartApiPayment(p, req));
    StepGrows(s, StartApiPayment(p, req));
    assert GoodProcess(t, t.processes[p]);
    ProcessesKept(s, t, p);
    hide GoodProcess;
    assert InvCharges(t.charges, t.sent);
  }

  lemma ReachProviderKeeps(s: System, req: Request, made: Charge)
    requires Inv(s) && Enabled(s, ReachProvider(req, made))
    ensures Inv(Apply(s, ReachProvider(req, made)))
  {
    hide GoodRequest, GoodRow, GoodPayment, GoodProcess, Selects, RenewalRequest, IsRenewalKey, InvBorn, InvRows,
         InvPrefix, InvReturned, Grows;
    var t := Apply(s, ReachProvider(req, made));
    StepGrows(s, ReachProvider(req, made));
    OthersStayGood(s, t);
  }

  lemma SettleChargeKeeps(s: System, key: ChargeKey, status: ChargeStatus)
    requires Inv(s) && Enabled(s, SettleCharge(key, status))
    ensures Inv(Apply(s, SettleCharge(key, status)))
  {
    hide GoodRequest, GoodRow, GoodPayment, GoodProcess, Selects, RenewalRequest, IsRenewalKey, InvBorn, InvRows,
         InvPrefix, InvReturned, Grows;
    var t := Apply(s, SettleCharge(key, status));
    StepGrows(s, SettleCharge(key, status));
    OthersStayGood(s, t);
  }

  lemma RespondKeeps(s: System, p: nat)
    requires Inv(s) && Enabled(s, Respond(p))
    ensures Inv(Apply(s, Respond(p)))
  {
    hide GoodQueue, RenewalRequest, IsRenewalKey, InvBorn, InvRows, InvSent, InvCharges, InvPayments, InvPrefix,
         InvReturned, InvListings, Grows;
    var t := Apply(s, Respond(p));
    StepGrows(s, Respond(p));
    assert GoodProcess(s, s.processes[p]);
    assert GoodProcess(t, t.processes[p]);
    StageKeeps(s, t, p);
  }

  lemma AbortCallKeeps(s: System, p: nat)
    requires Inv(s) && Enabled(s, AbortCall(p))
    ensures Inv(Apply(s, AbortCall(p)))
  {
    hide GoodQueue, RenewalRequest, IsRenewalKey, InvBorn, InvRows, InvSent, InvCharges, InvPayments, InvPrefix,
         InvReturned, InvListings, Grows;
    var t := Apply(s, AbortCall(p));
    StepGrows(s, AbortCall(p));
    assert GoodProcess(s, s.processes[p]);
    StageKeeps(s, t, p);
  }

  lemma RefuseKeeps(s: System, p: nat)
    requires Inv(s) && Enabled(s, Refuse(p))
    ensures Inv(Apply(s, Refuse(p)))
  {
    hide GoodQueue, RenewalRequest, IsRenewalKey, InvBorn, InvRows, InvSent, InvCharges, InvPayments, InvPrefix,
         InvReturned, InvListings, Grows;
    var t := Apply(s, Refuse(p));
    StepGrows(s, Refuse(p));
    assert GoodProcess(s, s.processes[p]);
    StageKeeps(s, t, p);
  }

  lemma CrashKeeps(s: System, p: nat)
    requires Inv(s) && Enabled(s, Crash(p))
    ensures Inv(Apply(s, Crash(p)))
  {
    hide GoodProcess, InvBorn, InvRows, InvSent, InvCharges, InvPayments, InvPrefix, InvReturned, InvListings, Grows;
    StepGrows(s, Crash(p));
    StageKeeps(s, Apply(s, Crash(p)), p);
  }

  lemma PageOfGoodRows(born: Subscriptions, subs: Subscriptions, payments: Payments, q: Query, rows: seq<Subscription>)
    requires InvRows(born, subs, payments) && IsPage(subs, q, rows)
    ensures forall row <- rows :: GoodRow(born, payments, row) && Selects(q, row)
  {
    hide GoodRow, Selects, OrderColumn;
  }

  lemma ListForStatusKeeps(s: System, p: nat, q: Query, rows: seq<Subscription>)
    requires Inv(s) && Enabled(s, ListForStatus(p, q, rows))
    ensures Inv(Apply(s, ListForStatus(p, q, rows)))
  {
    hide GoodRow, Selects, IsPage, InvBorn, InvRows, InvSent, InvCharges, InvPayments, InvPrefix, InvReturned,
         InvListings, Grows;
    var t := Apply(s, ListForStatus(p, q, rows));
    StepGrows(s, ListForStatus(p, q, rows));
    PageOfGoodRows(s.born, s.subs, s.payments, q, rows);
    assert GoodProcess(t, t.processes[p]);
    StageKeeps(s, t, p);
  }

  /** A step of process p that may also rewrite a subscription row. */
  lemma RowStageKeeps(s: System, t: System, p: nat)
    requires Inv(s) && Grows(s, t)
    requires t == s.(processes := t.processes, subs := t.subs)
    requires InvRows(s.born, t.subs, s.payments)
    requires forall q <- t.processes :: q != p ==> q in s.processes && t.processes[q] == s.processes[q]
    requires p in t.processes ==> GoodProcess(t, t.processes[p])
    ensures Inv(t)
  {
    hide Grows, GoodProcess, InvBorn, InvRows, InvSent, InvCharges, InvPayments, InvPrefix, InvReturned, Selects,
         RenewalRequest, IsRenewalKey;
    ProcessesKept(s, t, p);
  }

  lemma TailGood(born: Subscriptions, payments: Payments, listings: set<Listing>, queue: seq<Subscription>)
    requires queue != [] && GoodQueue(born, payments, listings, queue)
    ensures GoodQueue(born, payments, listings, queue[1..])
  {
    hide GoodRow, Listed;
  }

  lemma MarkPastDueKeeps(s: System, p: nat, written: bool)
    requires Inv(s) && Enabled(s, MarkPastDue(p, written))
    ensures Inv(Apply(s, MarkPastDue(p, written)))
  {
    hide GoodQueue, WithStatus, InvBorn, InvRows, InvSent, InvCharges, InvPayments, InvPrefix, InvReturned,
         InvListings, Grows;
    var t := Apply(s, MarkPastDue(p, written));
    StepGrows(s, MarkPastDue(p, written));
    assert GoodProcess(s, s.processes[p]);
    var queue := s.processes[p].queue;
    TailGood(s.born, s.payments, s.listings, queue);
    ColumnsKept(s, queue[0].id, Patch(None, None, None), false, PastDue);
    RowStageKeeps(s, t, p);
  }

  lemma WriteStatusKeeps(s: System, p: nat, written: bool)
    requires Inv(s) && Enabled(s, WriteStatus(p, written))
    ensures Inv(Apply(s, WriteStatus(p, written)))
  {
    hide WithStatus, InvBorn, InvRows, InvSent, InvCharges, InvPayments, InvPrefix, InvReturned, InvListings, Grows;
    var t := Apply(s, WriteStatus(p, written));
    StepGrows(s, WriteStatus(p, written));
    ColumnsKept(s, s.processes[p].queue[0].id, Patch(None, None, None), false, TargetOf(s.processes[p].q));
    RowStageKeeps(s, t, p);
  }

  lemma ReadForPatchKeeps(s: System, p: nat, id: Uuid, patch: Patch)
    requires Inv(s) && Enabled(s, ReadForPatch(p, id, patch))
    ensures Inv(Apply(s, ReadForPatch(p, id, patch)))
  {
    hide GoodRow, PatchAllowed, InvBorn, InvSent, InvCharges, InvPayments, InvPrefix, InvReturned, InvListings, Grows;
    var t := Apply(s, ReadForPatch(p, id, patch));
    StepGrows(s, ReadForPatch(p, id, patch));
    assert GoodProcess(t, t.processes[p]);
    StageKeeps(s, t, p);
  }

  lemma WritePatchKeeps(s: System, p: nat, written: bool)
    requires Inv(s) && Enabled(s, WritePatch(p, written))
    ensures Inv(Apply(s, WritePatch(p, written)))
  {
    hide GoodProcess, WithPatch, InvBorn, InvRows, InvSent, InvCharges, InvPayments, InvPrefix, InvReturned,
         InvListings, Grows;
    StepGrows(s, WritePatch(p, written));
    ColumnsKept(s, s.processes[p].seen.id, s.processes[p].patch, false, Active);
    RowStageKeeps(s, Apply(s, WritePatch(p, written)), p);
  }

  /** Once period k of a listed row has its payment, moving the stored row past it is safe, whatever
      the stored row says now. */
  lemma AdvanceKeepsRows(s: System, row: Subscription)
    requires Inv(s) && GoodRow(s.born, s.payments, row)
    requires PaymentKeyOf(RenewalRequest(row)) in s.payments
    ensures var end := NextPeriodEnd(row.periodEnd, row.interval, row.intervalCount);
            InvRows(s.born, WithPeriod(s.subs, row.id, row.periodEnd, end), s.payments)
  {
    hide RenewalKey, NextPeriodEnd, InvSent, InvCharges, InvPayments, InvPrefix, InvReturned, InvListings,
         InvProcesses;
    var k: nat :| AtPeriod(s.born, s.payments, row, k);
    var born := s.born[row.id];
    assert Recorded(s.payments, born, k);
    var end := NextPeriodEnd(row.periodEnd, row.interval, row.intervalCount);
    assert PeriodEnd(born, k + 1) == end;
    var l: nat :| AtPeriod(s.born, s.payments, s.subs[row.id], l);
    var moved := s.subs[row.id].(periodStart := row.periodEnd, periodEnd := end);
    assert AtPeriod(s.born, s.payments, moved, k + 1);
    assert GoodRow(s.born, s.payments, moved);
  }

  lemma AdvanceKeeps(s: System, p: nat, written: bool)
    requires Inv(s) && Enabled(s, Advance(p, written))
    ensures Inv(Apply(s, Advance(p, written)))
  {
    hide GoodRow, Listed, WithPeriod, NextPeriodEnd, RenewalRequest, InvBorn, InvRows, InvSent, InvCharges,
         InvPayments, InvPrefix, InvReturned, InvListings, Grows;
    var t := Apply(s, Advance(p, written));
    StepGrows(s, Advance(p, written));
    assert GoodProcess(s, s.processes[p]);
    var queue := s.processes[p].queue;
    TailGood(s.born, s.payments, s.listings, queue);
    AdvanceKeepsRows(s, queue[0]);
    RowStageKeeps(s, t, p);
  }

  lemma ListDueKeeps(s: System, p: nat, now: Instant, rows: seq<Subscription>)
    requires Inv(s) && Enabled(s, ListDue(p, now, rows))
    ensures Inv(Apply(s, ListDue(p, now, rows)))
  {
    hide GoodRow, GoodRequest, Selects, RenewalRequest, IsRenewalKey, InvBorn, InvCharges, InvPayments, InvPrefix,
         InvReturned, Grows;
    var t := Apply(s, ListDue(p, now, rows));
    StepGrows(s, ListDue(p, now, rows));
    forall row | row in rows
      ensures GoodRow(t.born, t.payments, row) && Listed(t.listings, row)
    {
      assert Listing(row, now) in t.listings;
    }
    assert GoodProcess(t, t.processes[p]);
    ProcessesKept(s, t, p);
    hide GoodProcess;
    assert InvListings(t);
  }

  /** The request of a listed row renews the period the row stands at. */
  lemma RenewalRequestGood(born: Subscriptions, payments: Payments, row: Subscription)
    requires GoodRow(born, payments, row)
    ensures IsRenewalKey(RenewalRequest(row).key)
    ensures GoodRequest(born, payments, RenewalRequest(row))
  {
    hide RenewalKey, PeriodEnd;
    var k: nat :| AtPeriod(born, payments, row, k);
    RenewalKeyIsRenewal(row.key, row.periodEnd);
    var req := RenewalRequest(row);
    assert Renews(born, req.subscriptionId, req.tenant, req.providerName, req.key, k);
  }

  lemma PayKeeps(s: System, p: nat)
    requires Inv(s) && Enabled(s, Pay(p))
    ensures Inv(Apply(s, Pay(p)))
  {
    hide GoodRow, GoodRequest, Selects, RenewalRequest, IsRenewalKey, InvBorn, InvRows, InvPayments, InvPrefix,
         InvReturned, Grows, ValidRequest;
    var t := Apply(s, Pay(p));
    StepGrows(s, Pay(p));
    assert GoodProcess(s, s.processes[p]);
    var row := s.processes[p].queue[0];
    RenewalRequestGood(s.born, s.payments, row);
    assert Listed(s.listings, row);
    assert GoodProcess(t, t.processes[p]);
    ProcessesKept(s, t, p);
    hide GoodProcess;
    assert InvCharges(t.charges, t.sent);
  }

  lemma FetchRowKeeps(s: System, p: nat)
    requires Inv(s) && Enabled(s, FetchRow(p))
    ensures Inv(Apply(s, FetchRow(p)))
  {
    hide GoodQueue, RenewalRequest, IsRenewalKey, InvBorn, InvRows, InvSent, InvCharges, InvPayments, InvPrefix,
         Selects, Grows;
    var t := Apply(s, FetchRow(p));
    StepGrows(s, FetchRow(p));
    assert GoodProcess(s, s.processes[p]);
    assert p in t.processes ==> GoodProcess(t, t.processes[p]);
    ProcessesKept(s, t, p);
  }

  /** A new row records a period whose predecessor is recorded, and no other period. */
  lemma InsertKeepsPrefix(s: System, req: Request, row: Payment)
    requires InvBorn(s.born) && InvPrefix(s.born, s.payments) && GoodRequest(s.born, s.payments, req)
    requires row.tenant == req.tenant && row.key == req.key
    ensures InvPrefix(s.born, InsertedPayment(s.payments, row))
  {
    hide RenewalKey, PeriodEnd, IsUuid;
    var payments := InsertedPayment(s.payments, row);
    forall id, k: nat | id in s.born && Recorded(payments, s.born[id], k)
      ensures Payable(payments, s.born[id], k)
    {
      if !Recorded(s.payments, s.born[id], k) {
        RenewalKeyIsRenewal(s.born[id].key, PeriodEnd(s.born[id], k));
        var l: nat :| Renews(s.born, req.subscriptionId, req.tenant, req.providerName, req.key, l)
                      && Payable(s.payments, s.born[req.subscriptionId], l);
        PeriodKeyInjective(s.born, id, k, req.subscriptionId, l);
      }
    }
  }

  lemma InsertKeepsPayments(s: System, t: System, req: Request, charge: Charge)
    requires Inv(s) && Grows(s, t) && req in s.sent
    requires t.born == s.born && t.charges == s.charges
    requires t.payments == InsertedPayment(s.payments, PaymentRow(req, charge))
    requires ChargeKeyOf(req) in s.charges && s.charges[ChargeKeyOf(req)].id == charge.id
    ensures InvPayments(t.born, t.payments, t.charges)
    ensures InvPrefix(t.born, t.payments)
  {
    hide PeriodKey, GoodRow, GoodProcess, Selects, RenewalRequest, IsRenewalKey, Grows, InvBorn, InvRows,
         InvPrefix, InvReturned, ConvertChargeStatus;
    var row := PaymentRow(req, charge);
    OthersStayGood(s, t);
    assert GoodRequest(s.born, s.payments, req);
    InsertKeepsPrefix(s, req, row);
    assert GoodPayment(t.born, t.charges, PaymentKeyOf(req), row) by {
      if IsRenewalKey(req.key) {
        var k: nat :| Renews(s.born, req.subscriptionId, req.tenant, req.providerName, req.key, k)
                      && Payable(s.payments, s.born[req.subscriptionId], k);
      }
    }
    hide GoodRequest, GoodPayment;
  }

  /** A row reported as created was not there before, so no earlier call returned it. */
  lemma InsertKeepsReturned(payments: Payments, returned: seq<Return>, row: Payment)
    requires InvReturned(payments, returned)
    ensures InvReturned(InsertedPayment(payments, row), returned)
    ensures PaymentKey(row.tenant, row.key) !in payments ==>
              InvReturned(InsertedPayment(payments, row),
                          returned + [Return(PaymentKey(row.tenant, row.key), row, true)])
  {
  }

  lemma InsertRowKeeps(s: System, p: nat, replied: bool)
    requires Inv(s) && Enabled(s, InsertRow(p, replied))
    ensures Inv(Apply(s, InsertRow(p, replied)))
  {
    hide GoodQueue, GoodRow, GoodRequest, GoodPayment, RenewalRequest, IsRenewalKey, InvBorn, InvCharges,
         InvPayments, InvPrefix, InvReturned, Selects, Grows, ConvertChargeStatus;
    var t := Apply(s, InsertRow(p, replied));
    StepGrows(s, InsertRow(p, replied));
    OthersStayGood(s, t);
    assert GoodProcess(s, s.processes[p]);
    ProcessGrows(s, t, s.processes[p]);
    var call := s.processes[p].call;
    InsertKeepsPayments(s, t, call.req, call.stage.charge);
    InsertKeepsReturned(s.payments, s.returned, PaymentRow(call.req, call.stage.charge));
    assert p in t.processes ==> GoodProcess(t, t.processes[p]);
    ProcessesKept(s, t, p);
  }

  /** Every step keeps the invariant. */
  lemma Preserved(s: System, a: Action)
    requires Inv(s) && Enabled(s, a)
    ensures Inv(Apply(s, a))
  {
    hide Inv, Enabled, Apply;
    match a
    case Tick(to) => TickKeeps(s, to);
    case CreateSubscription(row) => CreateKeeps(s, row);
    case ReadForPatch(p, id, patch) => ReadForPatchKeeps(s, p, id, patch);
    case WritePatch(p, written) => WritePatchKeeps(s, p, written);
    case CancelSubscription(id, atPeriodEnd) => CancelKeeps(s, id, atPeriodEnd);
    case StartApiPayment(p, req) => StartApiPaymentKeeps(s, p, req);
    case ReachProvider(req, made) => ReachProviderKeeps(s, req, made);
    case SettleCharge(key, status) => SettleChargeKeeps(s, key, status);
    case Respond(p) => RespondKeeps(s, p);
    case InsertRow(p, replied) => InsertRowKeeps(s, p, replied);
    case FetchRow(p) => FetchRowKeeps(s, p);
    case AbortCall(p) => AbortCallKeeps(s, p);
    case ListDue(p, now, rows) => ListDueKeeps(s, p, now, rows);
    case Pay(p) => PayKeeps(s, p);
    case Refuse(p) => RefuseKeeps(s, p);
    case Advance(p, written) => AdvanceKeeps(s, p, written);
    case MarkPastDue(p, written) => MarkPastDueKeeps(s, p, written);
    case ListForStatus(p, q, rows) => ListForStatusKeeps(s, p, q, rows);
    case WriteStatus(p, written) => WriteStatusKeeps(s, p, written);
    case Crash(p) => CrashKeeps(s, p);
  }

  lemma {:induction false} RunsKeepInvariant(s: System, actions: seq<Action>)
    requires Inv(s)
    ensures Inv(Exec(s, actions)) && Grows(s, Exec(s, actions))
    decreases |actions|
  {
    hide Inv, Enabled, Apply;
    if actions == [] {
    } else {
      var a := actions[0];
      if Enabled(s, a) {
        Preserved(s, a);
        StepGrows(s, a);
      }
      RunsKeepInvariant(Step(s, a), actions[1..]);
    }
  }

  lemma InitialInvariant(clock: Instant, payPerUse: set<string>)
    ensures Inv(Initial(clock, payPerUse))
  {
  }
}
