/** Runs that really happen: a charge left without a row, a period moved past a failed payment, a stored
    period moved back, and a canceled subscription reopened. They show that the theorems of Ledger and
    Reopening are not about unreachable states, and why those of StatusHistory are about passes without
    interleaving. */
module Scenarios {
  import opened Calendar
  import opened RenewalKeys
  import opened Domain
  import opened Protocol
  import opened ProtocolInvariant
  import opened Ledger
  import opened Lifecycle
  import opened Refinement

  /** A first subscription that the runner would renew at some clock reading. */
  predicate Renewable(row: Subscription, clock: Instant) {
    Insertable(map[], row) && Selects(DueForRenewal(clock), row) && ValidRequest(RenewalRequest(row))
  }

  predicate PeriodIs(s: System, id: Uuid, end: Instant) {
    id in s.subs && s.subs[id].periodEnd == end
  }

  predicate StatusIs(s: System, id: Uuid, status: Status) {
    id in s.subs && s.subs[id].status == status
  }

  predicate PaymentIs(s: System, pk: PaymentKey, status: PaymentStatus) {
    pk in s.payments && s.payments[pk].status == status
  }

  lemma OneRowPage(row: Subscription, q: Query)
    requires Selects(q, row)
    ensures IsPage(map[row.id := row], q, [row])
  {
    hide Selects, OrderColumn;
    assert Selected(map[row.id := row], q) == {row.id};
    assert [row][0].id == row.id;
  }

  lemma ReachableRun(s: System, actions: seq<Action>)
    requires Reachable(s)
    ensures Reachable(Exec(s, actions))
  {
    hide Exec;
    var clock, payPerUse, before :| s == Exec(Initial(clock, payPerUse), before);
    ExecConcat(Initial(clock, payPerUse), before, actions);
  }

  lemma ReachableStep(s: System, a: Action)
    requires Reachable(s) && Enabled(s, a)
    ensures Reachable(Apply(s, a))
  {
    hide Reachable, Enabled, Apply;
    OneStep(s, a, []);
    assert [a] + [] == [a];
    NoStep(Apply(s, a));
    ReachableRun(s, [a]);
  }

  lemma InitiallyReachable(clock: Instant)
    ensures Reachable(Initial(clock, {}))
  {
    assert Initial(clock, {}) == Exec(Initial(clock, {}), []);
  }

  /** A runner has listed the only subscription. */
  lemma ListedAlone(row: Subscription, clock: Instant) returns (s: System)
    requires Renewable(row, clock)
    ensures Reachable(s) && s.clock == clock
    ensures s.subs == map[row.id := row] && s.born == map[row.id := row] && s.payments == map[] && s.charges == map[]
    ensures s.processes == map[0 := Renewing([row])]
  {
    hide Reachable, RenewalRequest, ValidRequest, Selects, IsPage;
    InitiallyReachable(clock);
    s := Initial(clock, {});
    ReachableStep(s, CreateSubscription(row));
    s := Apply(s, CreateSubscription(row));
    OneRowPage(row, DueForRenewal(clock));
    ReachableStep(s, ListDue(0, clock, [row]));
    s := Apply(s, ListDue(0, clock, [row]));
  }

  /** And its charge has reached the provider. */
  lemma ChargeReaches(row: Subscription, clock: Instant, made: Charge) returns (s: System)
    requires Renewable(row, clock)
    ensures var req := RenewalRequest(row);
            && Reachable(s) && s.clock == clock
            && s.subs == map[row.id := row] && s.born == map[row.id := row] && s.payments == map[]
            && s.charges == map[ChargeKeyOf(req) := made]
            && s.processes == map[0 := Paying([row], Call(req, Awaiting))]
  {
    hide Reachable, RenewalRequest, ValidRequest, Selects, IsPage;
    s := ListedAlone(row, clock);
    ReachableStep(s, Pay(0));
    s := Apply(s, Pay(0));
    ReachableStep(s, ReachProvider(RenewalRequest(row), made));
    s := Apply(s, ReachProvider(RenewalRequest(row), made));
  }

  /** A charge without a row happens: the runner crashes between the charge and the insert. */
  lemma OrphanHappens(row: Subscription, clock: Instant, made: Charge) returns (s: System)
    requires Renewable(row, clock)
    ensures Reachable(s) && row.id in s.born && s.born[row.id] == row && s.processes == map[]
    ensures PeriodCharge(row, 0) in s.charges && !Recorded(s.payments, row, 0)
  {
    hide Reachable, Renewable, RenewalKey;
    s := ChargeReaches(row, clock, made);
    ReachableStep(s, Crash(0));
    s := Apply(s, Crash(0));
  }

  /** The first runner has recorded the payment and not yet written the period. */
  lemma AboutToAdvance(row: Subscription, clock: Instant, made: Charge) returns (s: System)
    requires Renewable(row, clock)
    ensures Reachable(s) && s.clock == clock
    ensures s.subs == map[row.id := row] && s.born == map[row.id := row]
    ensures s.processes == map[0 := Advancing([row])]
    ensures s.payments == map[PeriodKey(row, 0) := PaymentRow(RenewalRequest(row), made)]
    ensures s.charges == map[PeriodCharge(row, 0) := made]
  {
    hide Reachable, Renewable, RenewalKey, ConvertChargeStatus;
    s := ChargeReaches(row, clock, made);
    ReachableStep(s, Respond(0));
    s := Apply(s, Respond(0));
    ReachableStep(s, InsertRow(0, true));
    s := Apply(s, InsertRow(0, true));
  }

  /** A failed payment does move the period: the provider answers that the charge was made and failed, the
      payment is recorded as failed, and the advance follows. */
  lemma FailedPaymentAdvances(row: Subscription, clock: Instant, made: Charge) returns (s: System)
    requires Renewable(row, clock) && made.status == ChargeFailed
    ensures Reachable(s) && s.born == map[row.id := row] && PaymentIs(s, PeriodKey(row, 0), Failed)
    ensures PeriodIs(s, row.id, PeriodEnd(row, 0))
    ensures Enabled(s, Advance(0, true)) && PeriodIs(Apply(s, Advance(0, true)), row.id, PeriodEnd(row, 1))
  {
    hide Reachable, Renewable, RenewalKey, NextPeriodEnd;
    s := AboutToAdvance(row, clock, made);
    assert PeriodEnd(row, 1) == NextPeriodEnd(PeriodEnd(row, 0), row.interval, row.intervalCount);
  }

  /** Time passes in any reachable state. */
  lemma TimePasses(s: System, to: Instant) returns (t: System)
    requires Reachable(s) && AtOrBefore(s.clock, to)
    ensures Reachable(t) && t == s.(clock := to)
  {
    hide Reachable;
    ReachableStep(s, Tick(to));
    t := Apply(s, Tick(to));
  }

  /** A pending payment can stay pending for good: its charge settles at the provider after the row was inserted,
      and no statement ever updates the row. */
  lemma PendingRowStaysPending(row: Subscription, clock: Instant, made: Charge, settled: ChargeStatus,
                               later: seq<Action>)
      returns (s: System)
    requires Renewable(row, clock) && made.status == ChargePending
    ensures Reachable(s)
    ensures PeriodCharge(row, 0) in s.charges && s.charges[PeriodCharge(row, 0)] == Charge(made.id, settled)
    ensures PaymentIs(Exec(s, later), PeriodKey(row, 0), Pending)
  {
    hide Reachable, Exec, Renewable, RenewalKey, Inv;
    s := AboutToAdvance(row, clock, made);
    ReachableStep(s, SettleCharge(PeriodCharge(row, 0), settled));
    s := Apply(s, SettleCharge(PeriodCharge(row, 0), settled));
    ReachableInvariant(s);
    RunsKeepInvariant(s, later);
  }

  /** Another runner lists the only subscription and renews it without trouble. */
  lemma AnotherRenews(s: System, p: nat, row: Subscription, made: Charge) returns (t: System)
    requires Reachable(s) && p !in s.processes && s.subs == map[row.id := row]
    requires Selects(DueForRenewal(s.clock), row) && ValidRequest(RenewalRequest(row))
    ensures Reachable(t) && t.clock == s.clock
    ensures t.processes == s.processes[p := Renewing([])]
    ensures t.subs == map[row.id := NextRow(row)] && Grows(s, t)
  {
    hide Reachable, RenewalRequest, ValidRequest, Selects, IsPage, NextRow, RenewOne, Exec, RenewalSteps, Inv, Grows;
    var x := Weather(Some(map[]), Answered(made), Written, true, Written, Written);
    OneRowPage(row, DueForRenewal(s.clock));
    var list := ListDue(p, s.clock, [row]);
    var s1 := Apply(s, list);
    var steps := RenewalSteps(s1, p, row, x);
    RenewOneRefines(s1, p, [row], x);
    RenewalCompletes(WorldOf(s1), row, x);
    OneStep(s, list, steps);
    t := Exec(s, [list] + steps);
    ReachableRun(s, [list] + steps);
    ReachableInvariant(s);
    RunsKeepInvariant(s, [list] + steps);
    assert [row][1..] == [];
  }

  lemma TwoPeriods(row: Subscription, clock: Instant)
    requires Renewable(row, clock) && AtOrBefore(PeriodEnd(row, 1), clock)
    ensures NextRow(row).periodEnd == PeriodEnd(row, 1) && NextRow(NextRow(row)).periodEnd == PeriodEnd(row, 2)
    ensures Selects(DueForRenewal(clock), NextRow(row)) && ValidRequest(RenewalRequest(NextRow(row)))
  {
    hide Insertable, AtOrBefore, NextPeriodEnd, FormatDate, CivilDate, Blank, SupportedCurrency;
    RenewalKeyNotBlank(row.key, NextRow(row).periodEnd);
    assert PeriodEnd(row, 1) == NextPeriodEnd(PeriodEnd(row, 0), row.interval, row.intervalCount);
    assert PeriodEnd(row, 2) == NextPeriodEnd(PeriodEnd(row, 1), row.interval, row.intervalCount);
  }

  /** The stored period does move back: while the first runner pauses before its write, two others renew
      the subscription once each; then the first one writes. This happens to any subscription that is two
      periods behind. */
  lemma RewindHappens(row: Subscription, clock: Instant, made: Charge) returns (s: System)
    requires Renewable(row, clock) && AtOrBefore(PeriodEnd(row, 1), clock)
    ensures Reachable(s) && row.id in s.born && s.born[row.id] == row && PeriodIs(s, row.id, PeriodEnd(row, 2))
    ensures Enabled(s, Advance(0, true)) && PeriodIs(Apply(s, Advance(0, true)), row.id, PeriodEnd(row, 1))
  {
    hide Reachable, Insertable, RenewalRequest, ValidRequest, Selects, AtOrBefore, NextPeriodEnd, PeriodEnd;
    TwoPeriods(row, clock);
    s := AboutToAdvance(row, clock, made);
    s := AnotherRenews(s, 1, row, made);
    s := AnotherRenews(s, 2, NextRow(row), made);
  }

  /** PATCH checks the transition on the row it read: one that read an expired row, overtaken by a
      cancellation, writes past_due over a canceled one, a transition that the service forbids. */
  lemma StalePatchReopensCanceled(s: System, p: nat, id: Uuid) returns (t: System)
    requires Reachable(s) && p !in s.processes && StatusIs(s, id, Expired)
    ensures Reachable(t) && StatusIs(t, id, Canceled) && !TransitionAllowed(Canceled, PastDue)
    ensures Enabled(t, WritePatch(p, true)) && StatusIs(Apply(t, WritePatch(p, true)), id, PastDue)
  {
    hide Reachable, Insertable, IsPage, ValidRequest, RenewalRequest;
    var patch := Patch(Some(PastDue), None, None);
    ReadKeepsId(s, id);
    ReachableStep(s, ReadForPatch(p, id, patch));
    t := Apply(s, ReadForPatch(p, id, patch));
    ReachableStep(t, CancelSubscription(id, false));
    t := Apply(t, CancelSubscription(id, false));
  }

  lemma ReadKeepsId(s: System, id: Uuid)
    requires Reachable(s) && id in s.subs
    ensures s.subs[id].id == id
  {
    hide Reachable, GoodRow, InvBorn, InvSent, InvCharges, InvPayments, InvPrefix, InvReturned, InvListings,
         InvProcesses;
    ReachableInvariant(s);
  }

  /** UpdateStatus has no guard: a runner that listed a subscription before it was canceled, and whose
      charge fails, makes it past_due again. */
  lemma StaleMarkReopensCanceled(row: Subscription, clock: Instant) returns (s: System)
    requires Renewable(row, clock)
    ensures Reachable(s) && StatusIs(s, row.id, Canceled)
    ensures Enabled(s, MarkPastDue(0, true)) && StatusIs(Apply(s, MarkPastDue(0, true)), row.id, PastDue)
  {
    hide Reachable, RenewalRequest, ValidRequest, Selects, IsPage;
    s := ListedAlone(row, clock);
    ReachableStep(s, Refuse(0));
    s := Apply(s, Refuse(0));
    ReachableStep(s, CancelSubscription(row.id, false));
    s := Apply(s, CancelSubscription(row.id, false));
  }
}
