/** What the invariant means for the ledger: theorems over every run of the renewal protocol. */
module Ledger {
  import opened Calendar
  import opened RenewalKeys
  import opened Domain
  import opened Protocol
  import opened ProtocolInvariant

  /** The states that some interleaving of runners, API calls, the provider and crashes reaches. */
  ghost predicate Reachable(s: System) {
    exists clock, payPerUse, actions :: s == Exec(Initial(clock, payPerUse), actions)
  }

  lemma ReachableInvariant(s: System)
    requires Reachable(s)
    ensures Inv(s)
  {
    hide Inv, Enabled, Apply, Exec, Grows;
    var clock, payPerUse, actions :| s == Exec(Initial(clock, payPerUse), actions);
    InitialInvariant(clock, payPerUse);
    RunsKeepInvariant(Initial(clock, payPerUse), actions);
  }

  /** The key period k of a subscription is charged under. */
  function PeriodCharge(born: Subscription, k: nat): ChargeKey {
    ChargeKey(born.tenant, born.providerName, PeriodKey(born, k).key)
  }

  /** The renewal ledger of a subscription stands at m: it has exactly one payment row for each of the
      first m period ends and no other renewal row, those periods are charged and at most the next
      one is charged besides, and the stored period end is one of the first m + 1. */
  ghost predicate LedgerAt(s: System, id: Uuid, m: nat)
    requires id in s.born && id in s.subs
  {
    var born := s.born[id];
    && (forall k: nat :: Recorded(s.payments, born, k) <==> k < m)
    && (forall pk <- s.payments :: s.payments[pk].subscriptionId == id && IsRenewalKey(pk.key) ==>
          exists k: nat :: k < m && pk == PeriodKey(born, k))
    && (forall k: nat :: k < m ==>
          PeriodKey(born, k) in s.payments && s.payments[PeriodKey(born, k)].subscriptionId == id)
    && (forall k: nat :: k < m ==> PeriodCharge(born, k) in s.charges)
    && (forall k: nat :: PeriodCharge(born, k) in s.charges ==> k <= m)
    && (exists k: nat :: k <= m && s.subs[id].periodEnd == PeriodEnd(born, k))
  }

  // ----- The recorded periods are a prefix -----

  lemma {:induction false} RecordedBelow(born: Subscriptions, payments: Payments, id: Uuid, j: nat, k: nat)
    requires InvPrefix(born, payments) && id in born && j <= k && Recorded(payments, born[id], k)
    ensures Recorded(payments, born[id], j)
    decreases k - j
  {
    hide PeriodKey;
    if j == k {
    } else {
      assert Payable(payments, born[id], k);
      RecordedBelow(born, payments, id, j, k - 1);
    }
  }

  ghost function FirstKeys(born: Subscription, n: nat): set<PaymentKey> {
    set k: nat | k < n :: PeriodKey(born, k)
  }

  lemma {:induction false} FirstKeysCount(born: Subscriptions, id: Uuid, n: nat)
    requires InvBorn(born) && id in born
    ensures |FirstKeys(born[id], n)| == n
  {
    hide PeriodKey, InvBorn;
    if n == 0 {
      assert FirstKeys(born[id], 0) == {};
    } else {
      FirstKeysCount(born, id, n - 1);
      var last := PeriodKey(born[id], n - 1);
      if last in FirstKeys(born[id], n - 1) {
        var k: nat :| k < n - 1 && PeriodKey(born[id], k) == last;
        PeriodKeyInjective(born, id, k, id, n - 1);
      }
      assert FirstKeys(born[id], n) == FirstKeys(born[id], n - 1) + {last};
    }
  }

  lemma {:induction false} FirstGap(s: System, id: Uuid, n: nat) returns (m: nat)
    requires InvBorn(s.born) && InvPrefix(s.born, s.payments) && id in s.born
    requires forall k: nat :: k < n ==> Recorded(s.payments, s.born[id], k)
    ensures forall k: nat :: Recorded(s.payments, s.born[id], k) <==> k < m
    decreases |s.payments| - n
  {
    hide PeriodKey, InvPrefix, InvBorn;
    if Recorded(s.payments, s.born[id], n) {
      FirstKeysCount(s.born, id, n + 1);
      forall pk | pk in FirstKeys(s.born[id], n + 1)
        ensures pk in s.payments.Keys
      {
        var k: nat :| k < n + 1 && PeriodKey(s.born[id], k) == pk;
        assert Recorded(s.payments, s.born[id], k);
      }
      SubsetSize(FirstKeys(s.born[id], n + 1), s.payments.Keys);
      m := FirstGap(s, id, n + 1);
    } else {
      m := n;
      forall k: nat | k >= n
        ensures !Recorded(s.payments, s.born[id], k)
      {
        if Recorded(s.payments, s.born[id], k) {
          RecordedBelow(s.born, s.payments, id, n, k);
        }
      }
    }
  }

  lemma {:induction false} SubsetSize(a: set<PaymentKey>, b: set<PaymentKey>)
    requires a <= b
    ensures |a| <= |b|
  {
    assert b == a + (b - a);
  }

  // ----- Rows and charges of a period -----

  lemma RowOfPeriod(s: System, id: Uuid, k: nat)
    requires Inv(s) && id in s.born && Recorded(s.payments, s.born[id], k)
    ensures s.payments[PeriodKey(s.born[id], k)].subscriptionId == id
    ensures PeriodCharge(s.born[id], k) in s.charges
    ensures s.payments[PeriodKey(s.born[id], k)].chargeId == s.charges[PeriodCharge(s.born[id], k)].id
  {
    hide RenewalKey, PeriodEnd, InvRows, InvSent, InvCharges, InvPrefix, InvReturned, InvListings, InvProcesses,
         IsUuid;
    var pk := PeriodKey(s.born[id], k);
    var row := s.payments[pk];
    assert GoodPayment(s.born, s.charges, pk, row);
    RenewalKeyIsRenewal(s.born[id].key, PeriodEnd(s.born[id], k));
    var l: nat :| Renews(s.born, row.subscriptionId, row.tenant, row.providerName, row.key, l);
    PeriodKeyInjective(s.born, id, k, row.subscriptionId, l);
  }

  lemma PeriodOfRow(s: System, pk: PaymentKey)
    requires Inv(s) && pk in s.payments && IsRenewalKey(pk.key)
    ensures s.payments[pk].subscriptionId in s.born
    ensures exists k: nat :: pk == PeriodKey(s.born[s.payments[pk].subscriptionId], k)
  {
    hide PeriodKey, InvBorn, InvRows, InvSent, InvCharges, InvPrefix, InvReturned, InvListings, InvProcesses,
         IsRenewalKey;
    var row := s.payments[pk];
    assert GoodPayment(s.born, s.charges, pk, row);
    var l: nat :| Renews(s.born, row.subscriptionId, row.tenant, row.providerName, row.key, l);
  }

  lemma ChargedIsPayable(s: System, id: Uuid, k: nat)
    requires Inv(s) && id in s.born && PeriodCharge(s.born[id], k) in s.charges
    ensures Payable(s.payments, s.born[id], k)
  {
    hide RenewalKey, PeriodEnd, InvRows, InvPayments, InvPrefix, InvReturned, InvListings, InvProcesses, IsUuid;
    var req :| req in s.sent && ChargeKeyOf(req) == PeriodCharge(s.born[id], k);
    RenewalKeyIsRenewal(s.born[id].key, PeriodEnd(s.born[id], k));
    assert GoodRequest(s.born, s.payments, req);
    var l: nat :| Renews(s.born, req.subscriptionId, req.tenant, req.providerName, req.key, l)
                  && Payable(s.payments, s.born[req.subscriptionId], l);
    PeriodKeyInjective(s.born, id, k, req.subscriptionId, l);
  }

  lemma StoredPeriod(s: System, id: Uuid) returns (k: nat)
    requires Inv(s) && id in s.subs
    ensures id in s.born && s.subs[id].periodEnd == PeriodEnd(s.born[id], k) && Payable(s.payments, s.born[id], k)
  {
    hide PeriodEnd, PeriodKey, InvBorn, InvSent, InvCharges, InvPayments, InvPrefix, InvReturned, InvListings,
         InvProcesses;
    assert GoodRow(s.born, s.payments, s.subs[id]);
    k :| AtPeriod(s.born, s.payments, s.subs[id], k);
  }

  /** In every reachable state every subscription's renewal ledger is a gapless prefix of its period
      ends, with at most one charge beyond it. */
  lemma RenewalLedger(s: System, id: Uuid) returns (m: nat)
    requires Reachable(s) && id in s.subs
    ensures id in s.born && LedgerAt(s, id, m)
  {
    hide Reachable, Inv, PeriodKey, PeriodEnd, PeriodCharge, IsRenewalKey, Payable;
    ReachableInvariant(s);
    assert id in s.born && InvBorn(s.born) && InvPrefix(s.born, s.payments) by { InvParts(s, id); }
    m := FirstGap(s, id, 0);
    var born := s.born[id];
    forall k: nat | k < m
      ensures PeriodKey(born, k) in s.payments && s.payments[PeriodKey(born, k)].subscriptionId == id
      ensures PeriodCharge(born, k) in s.charges
    {
      assert Recorded(s.payments, born, k);
      RowOfPeriod(s, id, k);
    }
    forall k: nat | PeriodCharge(born, k) in s.charges
      ensures k <= m
    {
      ChargedIsPayable(s, id, k);
      PayableWithin(s.payments, born, k, m);
    }
    forall pk | pk in s.payments && s.payments[pk].subscriptionId == id && IsRenewalKey(pk.key)
      ensures exists k: nat :: k < m && pk == PeriodKey(born, k)
    {
      PeriodOfRow(s, pk);
      var k: nat :| pk == PeriodKey(born, k);
      assert Recorded(s.payments, born, k);
    }
    var k := StoredPeriod(s, id);
    PayableWithin(s.payments, born, k, m);
  }

  lemma InvParts(s: System, id: Uuid)
    requires Inv(s) && id in s.subs
    ensures id in s.born && InvBorn(s.born) && InvPrefix(s.born, s.payments)
  {
  }

  lemma PayableWithin(payments: Payments, born: Subscription, k: nat, m: nat)
    requires Payable(payments, born, k)
    requires forall j: nat :: Recorded(payments, born, j) <==> j < m
    ensures k <= m
  {
    hide Recorded;
  }

  /** A charge without a row is not lost: whatever happens later, once its period has a row, that row
      names this same charge. */
  lemma OrphanChargeIsTheOneRecorded(s: System, id: Uuid, k: nat, later: seq<Action>)
    requires Reachable(s) && id in s.born && PeriodCharge(s.born[id], k) in s.charges
    ensures var t := Exec(s, later);
            id in t.born && t.born[id] == s.born[id]
            && (Recorded(t.payments, t.born[id], k) ==>
                  t.payments[PeriodKey(t.born[id], k)].chargeId == s.charges[PeriodCharge(s.born[id], k)].id)
  {
    hide Reachable, Inv, PeriodKey, PeriodCharge, Exec;
    ReachableInvariant(s);
    RunsKeepInvariant(s, later);
    var t := Exec(s, later);
    if Recorded(t.payments, t.born[id], k) {
      RowOfPeriod(t, id, k);
    }
  }

  /** And however runners and calls interleave, a renewal of that period that gets as far as its advance
      has recorded exactly that charge. */
  lemma AdvancingRecordsOrphan(s: System, id: Uuid, k: nat, later: seq<Action>, p: nat)
    requires Reachable(s) && id in s.born && PeriodCharge(s.born[id], k) in s.charges
    requires var t := Exec(s, later);
             p in t.processes && t.processes[p].Advancing? && t.processes[p].queue != []
             && t.processes[p].queue[0].id == id && t.processes[p].queue[0].periodEnd == PeriodEnd(s.born[id], k)
    ensures var t := Exec(s, later);
            && Recorded(t.payments, s.born[id], k)
            && t.payments[PeriodKey(s.born[id], k)].chargeId == s.charges[PeriodCharge(s.born[id], k)].id
  {
    hide Reachable, Exec, PeriodCharge, PeriodEnd, RenewalKey, InvBorn, InvRows, InvSent, InvCharges, InvPayments,
         InvPrefix, InvReturned, InvListings, Payable;
    ReachableInvariant(s);
    RunsKeepInvariant(s, later);
    OrphanChargeIsTheOneRecorded(s, id, k, later);
    var t := Exec(s, later);
    assert GoodProcess(t, t.processes[p]);
    var row := t.processes[p].queue[0];
    assert row in t.processes[p].queue;
    var l: nat :| AtPeriod(t.born, t.payments, row, l);
  }

  /** Renewal keys are injective over all subscriptions of a run and all their periods. */
  lemma RenewalKeysInjective(s: System, i: Uuid, k: nat, j: Uuid, l: nat)
    requires Reachable(s) && i in s.born && j in s.born
    requires RenewalKey(s.born[i].key, PeriodEnd(s.born[i], k)) == RenewalKey(s.born[j].key, PeriodEnd(s.born[j], l))
    ensures i == j && k == l
  {
    hide Reachable, InvRows, InvSent, InvCharges, InvPayments, InvPrefix, InvReturned, InvListings, InvProcesses,
         RenewalKey, PeriodEnd;
    ReachableInvariant(s);
    PeriodKeyInjective(s.born, i, k, j, l);
  }

  /** A step, or an API call with any key at all, a renewal key included. */
  ghost function OpenStep(s: System, a: Action): System {
    if a.StartApiPayment? && a.p !in s.processes && ValidRequest(a.req) then
      s.(processes := s.processes[a.p := ApiPayment(Call(a.req, Awaiting))], sent := s.sent + {a.req})
    else Step(s, a)
  }

  ghost function OpenExec(s: System, actions: seq<Action>): System
    decreases |actions|
  {
    if actions == [] then s else OpenExec(OpenStep(s, actions[0]), actions[1..])
  }

  lemma OtherStepReturnsNothing(s: System, a: Action)
    requires !a.InsertRow? && !a.FetchRow?
    ensures OpenStep(s, a).payments == s.payments && OpenStep(s, a).returned == s.returned
  {
    hide Enabled, ValidRequest, TargetOf, CallEnded, AtStage, RenewalRequest, WithPatch, WithCancel, WithStatus,
         WithPeriod, NextPeriodEnd, Processed;
  }

  lemma ReturningStep(s: System, a: Action)
    requires InvReturned(s.payments, s.returned) && (a.InsertRow? || a.FetchRow?)
    ensures var t := OpenStep(s, a);
            InvReturned(t.payments, t.returned)
            && forall pk <- s.payments :: pk in t.payments && t.payments[pk] == s.payments[pk]
  {
    hide CallEnded, AtStage, PaymentRow;
    if a.InsertRow? && Enabled(s, a) {
      var call := s.processes[a.p].call;
      RowOfCall(call.req, call.stage.charge);
      InsertKeepsReturned(s.payments, s.returned, PaymentRow(call.req, call.stage.charge));
    }
  }

  lemma RowOfCall(req: Request, charge: Charge)
    ensures PaymentRow(req, charge).tenant == req.tenant && PaymentRow(req, charge).key == req.key
  {
  }

  lemma OpenStepKeepsReturned(s: System, a: Action)
    requires InvReturned(s.payments, s.returned)
    ensures var t := OpenStep(s, a);
            InvReturned(t.payments, t.returned)
            && forall pk <- s.payments :: pk in t.payments && t.payments[pk] == s.payments[pk]
  {
    hide OpenStep, InvReturned;
    if a.InsertRow? || a.FetchRow? {
      ReturningStep(s, a);
    } else {
      OtherStepReturnsNothing(s, a);
    }
  }

  lemma {:induction false} OpenRunKeepsReturned(s: System, actions: seq<Action>)
    requires InvReturned(s.payments, s.returned)
    ensures var t := OpenExec(s, actions);
            InvReturned(t.payments, t.returned)
            && forall pk <- s.payments :: pk in t.payments && t.payments[pk] == s.payments[pk]
    decreases |actions|
  {
    hide OpenStep, InvReturned;
    if actions == [] {
    } else {
      OpenStepKeepsReturned(s, actions[0]);
      OpenRunKeepsReturned(OpenStep(s, actions[0]), actions[1..]);
    }
  }

  /** All CreatePayment calls with one key, however many, however interleaved and whatever the key: a row
      once inserted never changes, every call that returns without error returns that row, and at most the
      first of them reports it as created. */
  lemma CreatePaymentIdempotent(clock: Instant, payPerUse: set<string>, before: seq<Action>, later: seq<Action>)
    ensures var s := OpenExec(Initial(clock, payPerUse), before);
            var t := OpenExec(s, later);
            && (forall pk <- s.payments :: pk in t.payments && t.payments[pk] == s.payments[pk])
            && (forall r <- t.returned :: r.key in t.payments && t.payments[r.key] == r.payment)
            && (forall i, j :: 0 <= i < j < |t.returned| && t.returned[i].key == t.returned[j].key ==>
                  t.returned[i].payment == t.returned[j].payment && !t.returned[j].created)
  {
    hide OpenExec;
    OpenRunKeepsReturned(Initial(clock, payPerUse), before);
    OpenRunKeepsReturned(OpenExec(Initial(clock, payPerUse), before), later);
  }

  /** Every renewal charge goes back to a listing at which its subscription was active, not flagged
      for cancellation, and had a period end no later than the clock. */
  lemma ChargesAreBacked(s: System, ck: ChargeKey)
    requires Reachable(s) && ck in s.charges && IsRenewalKey(ck.key)
    ensures exists l :: l in s.listings && ChargeKeyOf(RenewalRequest(l.row)) == ck
                        && l.row.status == Active && !l.row.cancelAtPeriodEnd
                        && AtOrBefore(l.row.periodEnd, l.now) && AtOrBefore(l.now, s.clock)
  {
    hide Reachable, InvBorn, InvRows, InvSent, InvPayments, InvPrefix, InvReturned, InvProcesses, IsRenewalKey,
         RenewalRequest;
    ReachableInvariant(s);
    var req :| req in s.sent && ChargeKeyOf(req) == ck;
    var l :| l in s.listings && RenewalRequest(l.row) == req;
    assert Selects(DueForRenewal(l.now), l.row);
  }

  /** An advance writes the end after its snapshot's period, whatever the row has come to. It moves the
      stored period back exactly when the row is two or more periods past the snapshot, and leaves it where
      it is exactly when another runner has advanced it from the same snapshot. For a positive count back is
      to an earlier date, for a negative one to a later date. */
  lemma AdvanceRewindsIff(s: System, p: nat, k: nat, l: nat)
    requires Reachable(s) && Enabled(s, Advance(p, true))
    requires var row := s.processes[p].queue[0];
             row.id in s.born && row.id in s.subs && row.periodEnd == PeriodEnd(s.born[row.id], k)
             && s.subs[row.id].periodEnd == PeriodEnd(s.born[row.id], l)
    ensures var id := s.processes[p].queue[0].id;
            var t := Apply(s, Advance(p, true));
            && t.subs[id].periodEnd == PeriodEnd(s.born[id], k + 1)
            && (s.born[id].intervalCount > 0 ==> (t.subs[id].periodEnd.day < s.subs[id].periodEnd.day <==> k + 1 < l))
            && (s.born[id].intervalCount < 0 ==> (t.subs[id].periodEnd.day > s.subs[id].periodEnd.day <==> k + 1 < l))
            && (t.subs[id].periodEnd == s.subs[id].periodEnd <==> k + 1 == l)
  {
    hide Reachable, NextPeriodEnd, GoodCall, InvBorn, InvRows, InvSent, InvCharges, InvPayments, InvPrefix,
         InvReturned, InvListings, PeriodKey;
    ReachableInvariant(s);
    assert GoodProcess(s, s.processes[p]);
    var row := s.processes[p].queue[0];
    assert row in s.processes[p].queue;
    var j: nat :| AtPeriod(s.born, s.payments, row, j);
    var born := s.born[row.id];
    BornCount(s, row.id);
    hide Inv, Enabled;
    PeriodsCompare(born, k + 1, l);
  }

  lemma BornCount(s: System, id: Uuid)
    requires Inv(s) && id in s.born
    ensures s.born[id].intervalCount != 0
  {
    hide InvRows, InvSent, InvCharges, InvPayments, InvPrefix, InvReturned, InvListings, InvProcesses;
  }

  lemma PeriodsCompare(born: Subscription, i: nat, j: nat)
    requires born.intervalCount != 0
    ensures born.intervalCount > 0 ==> (PeriodEnd(born, i).day < PeriodEnd(born, j).day <==> i < j)
    ensures born.intervalCount < 0 ==> (PeriodEnd(born, i).day > PeriodEnd(born, j).day <==> i < j)
    ensures PeriodEnd(born, i) == PeriodEnd(born, j) <==> i == j
  {
    hide Period;
    if i < j {
      PeriodsMonotone(born.periodEnd, born.interval, born.intervalCount, i, j);
    } else if j < i {
      PeriodsMonotone(born.periodEnd, born.interval, born.intervalCount, j, i);
    }
  }

  // ----- Failed payments -----

  /** Whether an advance moves the period past a failed payment is decided before it is written, by the row
      that CreatePayment returned: the payment of the period is there, it stays as it is in every later
      state, and the step writes the next period whatever its status. */
  lemma AdvancesPastFailedIff(s: System, p: nat, later: seq<Action>)
    requires Reachable(s) && Enabled(s, Advance(p, true))
    ensures var row := s.processes[p].queue[0];
            var pk := PaymentKeyOf(RenewalRequest(row));
            var t := Apply(s, Advance(p, true));
            var u := Exec(t, later);
            && row.id in t.subs && t.subs[row.id].periodStart == row.periodEnd
            && t.subs[row.id].periodEnd == NextPeriodEnd(row.periodEnd, row.interval, row.intervalCount)
            && pk in s.payments && pk in u.payments
            && (u.payments[pk].status == Failed <==> s.payments[pk].status == Failed)
  {
    hide Reachable, Exec, RenewalRequest, NextPeriodEnd, PeriodEnd, PeriodKey, InvBorn, InvSent, InvCharges,
         InvPayments, InvPrefix, InvReturned, InvListings;
    ReachableInvariant(s);
    assert GoodProcess(s, s.processes[p]);
    var row := s.processes[p].queue[0];
    assert row in s.processes[p].queue;
    var k: nat :| AtPeriod(s.born, s.payments, row, k);
    hide Inv, Enabled, Apply, GoodProcess;
    Preserved(s, Advance(p, true));
    StepGrows(s, Advance(p, true));
    RunsKeepInvariant(Apply(s, Advance(p, true)), later);
  }

  // ----- Billing terms -----

  /** Outside the pay-per-use gate the amount is that of creation, in the table and in every listing; and
      listed rows have the terms of creation. */
  ghost predicate AmountsFixed(s: System) {
    && (forall id <- s.subs ::
          id in s.born && (s.subs[id].providerName !in s.payPerUse ==> s.subs[id].amount == s.born[id].amount))
    && (forall l <- s.listings ::
          l.row.id in s.born && SameTerms(l.row, s.born[l.row.id])
          && (l.row.providerName !in s.payPerUse ==> l.row.amount == s.born[l.row.id].amount))
  }

  lemma ListingKeepsAmounts(s: System, p: nat, now: Instant, rows: seq<Subscription>)
    requires Inv(s) && AmountsFixed(s) && Enabled(s, ListDue(p, now, rows))
    ensures AmountsFixed(Apply(s, ListDue(p, now, rows)))
  {
    hide Selects, OrderColumn, Lists, AtOrBefore, Selected, Inv, SameTerms;
    var t := Apply(s, ListDue(p, now, rows));
    forall l | l in t.listings
      ensures l.row.id in t.born && SameTerms(l.row, t.born[l.row.id])
      ensures l.row.providerName !in t.payPerUse ==> l.row.amount == t.born[l.row.id].amount
    {
      if l !in s.listings {
        var i :| 0 <= i < |rows| && rows[i] == l.row;
        assert s.subs[rows[i].id] == rows[i];
        StoredTerms(s, rows[i].id);
      }
    }
  }

  lemma StoredTerms(s: System, id: Uuid)
    requires Inv(s) && id in s.subs
    ensures id in s.born && SameTerms(s.subs[id], s.born[id])
  {
    hide InvBorn, InvSent, InvCharges, InvPayments, InvPrefix, InvReturned, InvListings, InvProcesses, PeriodEnd,
         Payable, SameTerms;
    assert GoodRow(s.born, s.payments, s.subs[id]);
  }

  /** The provider of a row a PATCH has read is still the provider of the stored row. */
  lemma PatchReadProvider(s: System, p: nat, written: bool)
    requires Inv(s) && Enabled(s, WritePatch(p, written))
    ensures var job := s.processes[p];
            && job.seen.id in s.subs && s.subs[job.seen.id].providerName == job.seen.providerName
            && PatchAllowed(job.seen, job.patch, s.payPerUse)
  {
    hide PeriodEnd, Payable, InvBorn, InvSent, InvCharges, InvPayments, InvPrefix, InvReturned, InvListings,
         GoodQueue, GoodCall, RenewalRequest, IsRenewalKey, PatchAllowed, GoodStatusJob;
    assert GoodProcess(s, s.processes[p]);
    var seen := s.processes[p].seen;
    var k: nat :| AtPeriod(s.born, s.payments, seen, k);
    assert GoodRow(s.born, s.payments, s.subs[seen.id]);
    var l: nat :| AtPeriod(s.born, s.payments, s.subs[seen.id], l);
  }

  lemma PatchKeepsAmounts(s: System, p: nat, written: bool)
    requires Inv(s) && AmountsFixed(s) && Enabled(s, WritePatch(p, written))
    ensures AmountsFixed(Apply(s, WritePatch(p, written)))
  {
    hide Inv, TransitionAllowed;
    PatchReadProvider(s, p, written);
  }

  /** Amount and provider are the same in every row. */
  ghost predicate SameColumns(subs: Subscriptions, subs': Subscriptions) {
    subs'.Keys == subs.Keys
    && forall id <- subs :: subs'[id].amount == subs[id].amount && subs'[id].providerName == subs[id].providerName
  }

  lemma StatementsKeepColumns(subs: Subscriptions, id: Uuid, status: Status, start: Instant, end: Instant,
                              atPeriodEnd: bool)
    ensures SameColumns(subs, subs) && SameColumns(subs, WithStatus(subs, id, status))
    ensures SameColumns(subs, WithPeriod(subs, id, start, end)) && SameColumns(subs, WithCancel(subs, id, atPeriodEnd))
  {
  }

  /** Every other statement leaves the amount and provider columns alone. */
  lemma RowStepKeepsColumns(s: System, a: Action)
    requires Enabled(s, a) && WritesRows(a) && !a.WritePatch?
    ensures SameColumns(s.subs, Apply(s, a).subs)
    ensures Apply(s, a).(subs := s.subs, clock := s.clock, processes := s.processes) == s
  {
    hide NextPeriodEnd, WithStatus, WithPeriod, WithCancel, WithPatch, SameColumns, IsPage, PatchAllowed, ValidRequest,
         Insertable, RenewalRequest, CallEnded, AtStage, InsertedPayment, PaymentRow, Processed, AtOrBefore, TargetOf;
    StatementsKeepColumns(s.subs, "", Active, s.clock, s.clock, false);
    match a
    case CancelSubscription(id, atPeriodEnd) =>
      StatementsKeepColumns(s.subs, id, Active, s.clock, s.clock, atPeriodEnd);
    case Advance(p, _) =>
      var row := s.processes[p].queue[0];
      var end := NextPeriodEnd(row.periodEnd, row.interval, row.intervalCount);
      StatementsKeepColumns(s.subs, row.id, Active, row.periodEnd, end, false);
    case MarkPastDue(p, _) =>
      StatementsKeepColumns(s.subs, s.processes[p].queue[0].id, PastDue, s.clock, s.clock, false);
    case WriteStatus(p, _) =>
      StatementsKeepColumns(s.subs, s.processes[p].queue[0].id, TargetOf(s.processes[p].q), s.clock, s.clock, false);
    case Tick(_) =>
  }

  lemma ColumnsKeepAmounts(s: System, t: System)
    requires AmountsFixed(s) && SameColumns(s.subs, t.subs)
    requires t.(subs := s.subs, clock := s.clock, processes := s.processes) == s
    ensures AmountsFixed(t)
  {
  }

  lemma RowStepKeepsAmounts(s: System, a: Action)
    requires Inv(s) && AmountsFixed(s) && Enabled(s, a) && WritesRows(a)
    ensures AmountsFixed(Apply(s, a))
  {
    hide Enabled, Apply, AmountsFixed, Inv, SameColumns;
    if a.WritePatch? {
      PatchKeepsAmounts(s, a.p, a.written);
    } else {
      RowStepKeepsColumns(s, a);
      ColumnsKeepAmounts(s, Apply(s, a));
    }
  }

  lemma OtherStepKeepsAmounts(s: System, a: Action)
    requires AmountsFixed(s) && Enabled(s, a) && !WritesRows(a) && !a.ListDue?
    ensures AmountsFixed(Apply(s, a))
  {
    hide IsPage, ValidRequest, IsRenewalKey, TargetOf, CallEnded, AtStage, RenewalRequest, InsertedPayment,
         Processed, PaymentRow, CalculatePeriodEnd, KnownInterval, SameTerms;
  }

  lemma {:induction false} RunsKeepAmounts(s: System, actions: seq<Action>)
    requires Inv(s) && AmountsFixed(s)
    ensures AmountsFixed(Exec(s, actions))
    decreases |actions|
  {
    hide Enabled, Apply, AmountsFixed, InvBorn, GoodRow, InvSent, InvCharges, InvPayments, InvPrefix, InvReturned,
         InvListings, InvProcesses;
    if actions == [] {
    } else {
      var a := actions[0];
      if Enabled(s, a) {
        Preserved(s, a);
        match a
        case ListDue(p, now, rows) => ListingKeepsAmounts(s, p, now, rows);
        case _ => if WritesRows(a) { RowStepKeepsAmounts(s, a); } else { OtherStepKeepsAmounts(s, a); }
      }
      RunsKeepAmounts(Step(s, a), actions[1..]);
    }
  }

  lemma ReachableAmounts(s: System)
    requires Reachable(s)
    ensures Inv(s) && AmountsFixed(s)
  {
    hide Enabled, Apply, Exec, Inv, SameTerms;
    ReachableInvariant(s);
    var clock, payPerUse, actions :| s == Exec(Initial(clock, payPerUse), actions);
    InitialInvariant(clock, payPerUse);
    RunsKeepAmounts(Initial(clock, payPerUse), actions);
  }

  /** Billing terms never change: of every row in every reachable state the tenant, key, provider, interval,
      count, currency and end of trial are those of creation, and outside the pay-per-use gate so is the
      amount. */
  lemma BillingTermsFixed(s: System, id: Uuid)
    requires Reachable(s) && id in s.subs
    ensures id in s.born
    ensures var row, born := s.subs[id], s.born[id];
            && row.id == born.id == id && row.tenant == born.tenant && row.key == born.key
            && row.providerName == born.providerName && row.currency == born.currency
            && row.interval == born.interval && row.intervalCount == born.intervalCount
            && row.trialEndsAt == born.trialEndsAt
            && (born.providerName !in s.payPerUse ==> row.amount == born.amount)
  {
    hide Reachable, Inv;
    ReachableAmounts(s);
    StoredTerms(s, id);
    BornId(s, id);
  }

  lemma BornId(s: System, id: Uuid)
    requires Inv(s) && id in s.born
    ensures s.born[id].id == id
  {
    hide InvRows, InvSent, InvCharges, InvPayments, InvPrefix, InvReturned, InvListings, InvProcesses;
  }

  /** Every renewal request ever sent carries the tenant, provider and currency of its subscription as created,
      and outside the pay-per-use gate its amount. */
  lemma RenewalRequestsAsCreated(s: System, req: Request)
    requires Reachable(s) && req in s.sent && IsRenewalKey(req.key)
    ensures req.subscriptionId in s.born
    ensures var born := s.born[req.subscriptionId];
            && req.tenant == born.tenant && req.providerName == born.providerName && req.currency == born.currency
            && (req.providerName !in s.payPerUse ==> req.amount == born.amount)
  {
    hide Reachable, InvBorn, InvRows, InvSent, InvCharges, InvPayments, InvPrefix, InvReturned, InvProcesses,
         RenewalKey, Selects, IsRenewalKey;
    ReachableAmounts(s);
    var l :| l in s.listings && RenewalRequest(l.row) == req;
  }

  // ----- Payment rows and the requests they come from -----

  /** The row has the columns of the request. */
  predicate CopiedFrom(row: Payment, req: Request) {
    && row.tenant == req.tenant && row.subscriptionId == req.subscriptionId && row.key == req.key
    && row.providerName == req.providerName && row.amount == req.amount && row.currency == req.currency
  }

  ghost predicate AllCopied(s: System) {
    forall pk <- s.payments :: exists req :: req in s.sent && CopiedFrom(s.payments[pk], req)
  }

  /** What an insert that finds no row records and returns: the columns of the call's request, and the id and the
      status of the charge the call was answered, where an unknown status counts as pending. */
  lemma InsertRecords(s: System, p: nat)
    requires Enabled(s, InsertRow(p, true))
    requires PaymentKey(s.processes[p].call.req.tenant, s.processes[p].call.req.key) !in s.payments
    ensures var call := s.processes[p].call;
            var pk := PaymentKey(call.req.tenant, call.req.key);
            var t := Apply(s, InsertRow(p, true));
            && pk in t.payments && t.returned == s.returned + [Return(pk, t.payments[pk], true)]
            && var row := t.payments[pk];
               && CopiedFrom(row, call.req) && row.chargeId == call.stage.charge.id
               && (row.status == Succeeded <==> call.stage.charge.status == ChargeSucceeded)
               && (row.status == Failed <==> call.stage.charge.status == ChargeFailed)
               && (row.status == Pending
                   <==> call.stage.charge.status == ChargePending || call.stage.charge.status == ChargeUnknown)
  {
    hide CallEnded, AtStage;
  }

  lemma InsertKeepsCopied(s: System, p: nat, replied: bool)
    requires Inv(s) && AllCopied(s) && Enabled(s, InsertRow(p, replied))
    ensures AllCopied(Apply(s, InsertRow(p, replied)))
  {
    hide InvBorn, InvRows, InvSent, InvCharges, InvPayments, InvPrefix, InvReturned, InvListings, GoodQueue,
         CallEnded, AtStage, RenewalRequest, IsRenewalKey, ConvertChargeStatus;
    assert GoodProcess(s, s.processes[p]);
    var call := s.processes[p].call;
    assert CopiedFrom(PaymentRow(call.req, call.stage.charge), call.req);
  }

  lemma OtherStepKeepsCopied(s: System, a: Action)
    requires AllCopied(s) && Enabled(s, a) && !a.InsertRow?
    ensures AllCopied(Apply(s, a))
  {
    hide Enabled, CopiedFrom, TargetOf, CallEnded, AtStage, RenewalRequest, WithPatch, WithCancel, WithStatus,
         WithPeriod, NextPeriodEnd, Processed;
    var t := Apply(s, a);
    assert t.payments == s.payments && s.sent <= t.sent;
  }

  lemma {:induction false} RunsKeepCopied(s: System, actions: seq<Action>)
    requires Inv(s) && AllCopied(s)
    ensures AllCopied(Exec(s, actions))
    decreases |actions|
  {
    hide Enabled, Apply, AllCopied, Inv;
    if actions == [] {
    } else {
      var a := actions[0];
      if Enabled(s, a) {
        Preserved(s, a);
        if a.InsertRow? { InsertKeepsCopied(s, a.p, a.replied); } else { OtherStepKeepsCopied(s, a); }
      }
      RunsKeepCopied(Step(s, a), actions[1..]);
    }
  }

  /** Every payment row has the columns of some request that was sent. */
  lemma RowsCopiedFromRequests(s: System, pk: PaymentKey) returns (req: Request)
    requires Reachable(s) && pk in s.payments
    ensures req in s.sent
    ensures var row := s.payments[pk];
            && pk.tenant == row.tenant && pk.key == row.key
            && row.tenant == req.tenant && row.subscriptionId == req.subscriptionId && row.key == req.key
            && row.providerName == req.providerName && row.amount == req.amount && row.currency == req.currency
  {
    hide Enabled, Apply, Exec, InvBorn, InvRows, InvSent, InvCharges, InvPrefix, InvReturned, InvListings,
         InvProcesses, IsRenewalKey;
    ReachableInvariant(s);
    assert GoodPayment(s.born, s.charges, pk, s.payments[pk]);
    var clock, payPerUse, actions :| s == Exec(Initial(clock, payPerUse), actions);
    InitialInvariant(clock, payPerUse);
    RunsKeepCopied(Initial(clock, payPerUse), actions);
    req :| req in s.sent && CopiedFrom(s.payments[pk], req);
  }

  /** Every renewal payment carries the provider and currency of its subscription as created, and outside the
      pay-per-use gate its amount. */
  lemma RenewalRowsAsCreated(s: System, pk: PaymentKey)
    requires Reachable(s) && pk in s.payments && IsRenewalKey(pk.key)
    ensures s.payments[pk].subscriptionId in s.born
    ensures var row, born := s.payments[pk], s.born[s.payments[pk].subscriptionId];
            && row.tenant == born.tenant && row.providerName == born.providerName && row.currency == born.currency
            && (row.providerName !in s.payPerUse ==> row.amount == born.amount)
  {
    hide Reachable, IsRenewalKey;
    var req := RowsCopiedFromRequests(s, pk);
    RenewalRequestsAsCreated(s, req);
  }
}
