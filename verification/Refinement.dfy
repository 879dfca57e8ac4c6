/** The uninterleaved renewal pass is one of the interleavings of the protocol: whatever the weather,
    some run of single steps has the effect of the whole pass. */
module Refinement {
  import opened Calendar
  import opened RenewalKeys
  import opened Domain
  import opened Protocol
  import opened ProtocolInvariant
  import opened Ledger
  import opened Lifecycle

  function WorldOf(s: System): World {
    World(s.subs, s.payments, s.charges)
  }

  function Tail(p: nat, x: Weather): Action {
    MarkPastDue(p, !x.mark.NotWritten?)
  }

  /** The statements after the provider has answered. */
  function RecordSteps(s: System, p: nat, req: Request, x: Weather): seq<Action> {
    var pk := PaymentKeyOf(req);
    var advance := Advance(p, !x.advance.NotWritten?);
    if x.insert.NotWritten? || (pk !in s.payments && req.subscriptionId !in s.subs) then [AbortCall(p), Tail(p, x)]
    else if x.insert.WrittenUnheard? then [InsertRow(p, false), Tail(p, x)]
    else if pk !in s.payments then [InsertRow(p, true), advance]
    else if x.fetched then [InsertRow(p, true), FetchRow(p), advance]
    else [InsertRow(p, true), AbortCall(p), Tail(p, x)]
  }

  /** The steps of one renewal. */
  function RenewalSteps(s: System, p: nat, row: Subscription, x: Weather): seq<Action> {
    var req := RenewalRequest(row);
    if x.config.None? || row.providerName == "" || !ValidRequest(req) || !ValidConfig(x.config.value) then
      [Refuse(p), Tail(p, x)]
    else match x.answer
      case Unreached => [Pay(p), AbortCall(p), Tail(p, x)]
      case AnswerLost(made) => [Pay(p), ReachProvider(req, made), AbortCall(p), Tail(p, x)]
      case Answered(made) => [Pay(p), ReachProvider(req, made), Respond(p)] + RecordSteps(s, p, req, x)
  }

  /** Process p has finished the first row of its queue and nothing else about processes changed. */
  ghost predicate Finished(s: System, t: System, p: nat, queue: seq<Subscription>) {
    && queue != []
    && t.processes == s.processes[p := Renewing(queue[1..])]
    && t.clock == s.clock
  }

  lemma OneStep(s: System, a: Action, rest: seq<Action>)
    requires Enabled(s, a)
    ensures Exec(s, [a] + rest) == Exec(Apply(s, a), rest)
  {
    hide Enabled, Apply;
    assert ([a] + rest)[0] == a && ([a] + rest)[1..] == rest;
  }

  lemma NoStep(s: System)
    ensures Exec(s, []) == s
  {
  }

  lemma MarkStep(s: System, p: nat, queue: seq<Subscription>, x: Weather)
    requires p in s.processes && s.processes[p] == Failing(queue) && queue != []
    ensures var t := Exec(s, [Tail(p, x)]);
            Finished(s, t, p, queue)
            && WorldOf(t) == WorldOf(s).(subs := AfterStatus(s.subs, queue[0].id, PastDue, x.mark))
  {
    hide WithStatus;
    OneStep(s, Tail(p, x), []);
    NoStep(Apply(s, Tail(p, x)));
    assert [Tail(p, x)] + [] == [Tail(p, x)];
  }

  lemma AdvanceStep(s: System, p: nat, queue: seq<Subscription>, x: Weather)
    requires p in s.processes && s.processes[p] == Advancing(queue) && queue != []
    ensures var t := Exec(s, [Advance(p, !x.advance.NotWritten?)]);
            var row := queue[0];
            Finished(s, t, p, queue)
            && WorldOf(t) == if x.advance.NotWritten? then WorldOf(s)
                             else WorldOf(s).(subs := WithPeriod(s.subs, row.id, row.periodEnd, Following(row)))
  {
    hide WithPeriod, NextPeriodEnd;
    var a := Advance(p, !x.advance.NotWritten?);
    OneStep(s, a, []);
    NoStep(Apply(s, a));
    assert [a] + [] == [a];
  }

  lemma AbortStep(s: System, p: nat, queue: seq<Subscription>, call: Call, x: Weather)
    requires p in s.processes && s.processes[p] == Paying(queue, call) && queue != []
    ensures var t := Exec(s, [AbortCall(p), Tail(p, x)]);
            Finished(s, t, p, queue) && WorldOf(t) == Settled(WorldOf(s), queue[0], PaymentFailed, x)
  {
    hide AfterStatus;
    assert [AbortCall(p)] + [Tail(p, x)] == [AbortCall(p), Tail(p, x)];
    OneStep(s, AbortCall(p), [Tail(p, x)]);
    MarkStep(Apply(s, AbortCall(p)), p, queue, x);
  }

  lemma RefuseStep(s: System, p: nat, queue: seq<Subscription>, x: Weather)
    requires p in s.processes && s.processes[p] == Renewing(queue) && queue != []
    ensures var t := Exec(s, [Refuse(p), Tail(p, x)]);
            Finished(s, t, p, queue) && WorldOf(t) == Settled(WorldOf(s), queue[0], PaymentFailed, x)
  {
    hide AfterStatus;
    assert [Refuse(p)] + [Tail(p, x)] == [Refuse(p), Tail(p, x)];
    OneStep(s, Refuse(p), [Tail(p, x)]);
    MarkStep(Apply(s, Refuse(p)), p, queue, x);
  }

  /** An insert that finds no row: heard of or not, the row is there. */
  lemma FreshInsertRefines(s: System, p: nat, queue: seq<Subscription>, req: Request, charge: Charge, x: Weather)
    requires p in s.processes && s.processes[p] == Paying(queue, Call(req, Charged(charge))) && queue != []
    requires !x.insert.NotWritten?
    requires x.insert.WrittenUnheard? || PaymentKeyOf(req) !in s.payments
    requires PaymentKeyOf(req) in s.payments || req.subscriptionId in s.subs
    ensures var t := Exec(s, RecordSteps(s, p, req, x));
            var (w, result) := AfterRecord(WorldOf(s), req, charge, x);
            Finished(s, t, p, queue) && WorldOf(t) == Settled(w, queue[0], result, x)
  {
    hide AfterStatus, WithPeriod, Following, PaymentRow, InsertedPayment;
    var a := InsertRow(p, !x.insert.WrittenUnheard?);
    var s1 := Apply(s, a);
    if x.insert.WrittenUnheard? {
      assert RecordSteps(s, p, req, x) == [a] + [Tail(p, x)];
      OneStep(s, a, [Tail(p, x)]);
      MarkStep(s1, p, queue, x);
    } else {
      assert RecordSteps(s, p, req, x) == [a] + [Advance(p, !x.advance.NotWritten?)];
      OneStep(s, a, [Advance(p, !x.advance.NotWritten?)]);
      AdvanceStep(s1, p, queue, x);
    }
  }

  /** An insert that runs into an existing row leaves the tables as they are. */
  lemma ConflictStep(s: System, p: nat, queue: seq<Subscription>, req: Request, charge: Charge)
    requires p in s.processes && s.processes[p] == Paying(queue, Call(req, Charged(charge)))
    requires PaymentKeyOf(req) in s.payments
    ensures Enabled(s, InsertRow(p, true))
    ensures Apply(s, InsertRow(p, true)) == s.(processes := s.processes[p := Paying(queue, Call(req, Conflicted))])
  {
    hide ConvertChargeStatus;
  }

  lemma FetchStep(s: System, p: nat, queue: seq<Subscription>, req: Request, x: Weather)
    requires p in s.processes && s.processes[p] == Paying(queue, Call(req, Conflicted)) && queue != []
    requires PaymentKeyOf(req) in s.payments
    ensures var t := Exec(s, [FetchRow(p), Advance(p, !x.advance.NotWritten?)]);
            Finished(s, t, p, queue)
            && WorldOf(t) == Settled(WorldOf(s), queue[0], Paid(s.payments[PaymentKeyOf(req)], false), x)
  {
    hide AfterStatus, WithPeriod, Following;
    var advance := Advance(p, !x.advance.NotWritten?);
    assert [FetchRow(p), advance] == [FetchRow(p)] + [advance];
    OneStep(s, FetchRow(p), [advance]);
    AdvanceStep(Apply(s, FetchRow(p)), p, queue, x);
  }

  lemma ConflictRefines(s: System, p: nat, queue: seq<Subscription>, req: Request, charge: Charge, x: Weather)
    requires p in s.processes && s.processes[p] == Paying(queue, Call(req, Charged(charge))) && queue != []
    requires x.insert.Written? && PaymentKeyOf(req) in s.payments
    ensures var t := Exec(s, RecordSteps(s, p, req, x));
            var (w, result) := AfterRecord(WorldOf(s), req, charge, x);
            Finished(s, t, p, queue) && WorldOf(t) == Settled(w, queue[0], result, x)
  {
    hide Settled, ConvertChargeStatus, Enabled, Apply, Exec;
    ConflictStep(s, p, queue, req, charge);
    var s1 := Apply(s, InsertRow(p, true));
    var rest := if x.fetched then [FetchRow(p), Advance(p, !x.advance.NotWritten?)] else [AbortCall(p), Tail(p, x)];
    assert RecordSteps(s, p, req, x) == [InsertRow(p, true)] + rest;
    OneStep(s, InsertRow(p, true), rest);
    if x.fetched {
      FetchStep(s1, p, queue, req, x);
    } else {
      AbortStep(s1, p, queue, Call(req, Conflicted), x);
      assert AfterRecord(WorldOf(s), req, charge, x) == (WorldOf(s), PaymentFailed);
    }
  }

  lemma RecordRefines(s: System, p: nat, queue: seq<Subscription>, req: Request, charge: Charge, x: Weather)
    requires p in s.processes && s.processes[p] == Paying(queue, Call(req, Charged(charge))) && queue != []
    ensures var t := Exec(s, RecordSteps(s, p, req, x));
            var (w, result) := AfterRecord(WorldOf(s), req, charge, x);
            Finished(s, t, p, queue) && WorldOf(t) == Settled(w, queue[0], result, x)
  {
    hide AfterStatus, WithPeriod, Following, PaymentRow, InsertedPayment, Enabled, Apply, Exec, Finished;
    if x.insert.NotWritten? || (PaymentKeyOf(req) !in s.payments && req.subscriptionId !in s.subs) {
      AbortStep(s, p, queue, s.processes[p].call, x);
    } else if x.insert.WrittenUnheard? || PaymentKeyOf(req) !in s.payments {
      FreshInsertRefines(s, p, queue, req, charge, x);
    } else {
      ConflictRefines(s, p, queue, req, charge, x);
    }
  }

  /** Paying, reaching the provider and hearing back. */
  lemma ChargeRefines(s: System, p: nat, queue: seq<Subscription>, made: Charge, rest: seq<Action>) returns (s3: System)
    requires p in s.processes && s.processes[p] == Renewing(queue) && queue != []
    requires ValidRequest(RenewalRequest(queue[0]))
    ensures var req := RenewalRequest(queue[0]);
            var charges := Processed(s.charges, req, made);
            && Exec(s, [Pay(p), ReachProvider(req, made), Respond(p)] + rest) == Exec(s3, rest)
            && WorldOf(s3) == WorldOf(s).(charges := charges)
            && s3.processes == s.processes[p := Paying(queue, Call(req, Charged(charges[ChargeKeyOf(req)])))]
            && s3.clock == s.clock
  {
    hide RenewalRequest, ValidRequest;
    var req := RenewalRequest(queue[0]);
    var steps := [Pay(p), ReachProvider(req, made), Respond(p)] + rest;
    var s1 := Apply(s, Pay(p));
    assert steps == [Pay(p)] + steps[1..];
    OneStep(s, Pay(p), steps[1..]);
    var s2 := Apply(s1, ReachProvider(req, made));
    assert steps[1..] == [ReachProvider(req, made)] + steps[2..];
    OneStep(s1, ReachProvider(req, made), steps[2..]);
    s3 := Apply(s2, Respond(p));
    assert steps[2..] == [Respond(p)] + rest;
    OneStep(s2, Respond(p), rest);
  }

  lemma LostAnswerRefines(s: System, p: nat, queue: seq<Subscription>, x: Weather)
    requires p in s.processes && s.processes[p] == Renewing(queue) && queue != []
    requires ValidRequest(RenewalRequest(queue[0])) && !x.answer.Answered?
    ensures var req := RenewalRequest(queue[0]);
            var steps := if x.answer.Unreached? then [Pay(p), AbortCall(p), Tail(p, x)]
                         else [Pay(p), ReachProvider(req, x.answer.made), AbortCall(p), Tail(p, x)];
            var t := Exec(s, steps);
            Finished(s, t, p, queue)
            && WorldOf(t) == Settled(AfterCharge(WorldOf(s), req, x.answer), queue[0], PaymentFailed, x)
  {
    hide RenewalRequest, ValidRequest, AfterStatus, Processed;
    var req := RenewalRequest(queue[0]);
    var abort := [AbortCall(p), Tail(p, x)];
    var s1 := Apply(s, Pay(p));
    if x.answer.Unreached? {
      assert [Pay(p), AbortCall(p), Tail(p, x)] == [Pay(p)] + abort;
      OneStep(s, Pay(p), abort);
      AbortStep(s1, p, queue, s1.processes[p].call, x);
    } else {
      var reach := ReachProvider(req, x.answer.made);
      assert [Pay(p), reach, AbortCall(p), Tail(p, x)] == [Pay(p)] + ([reach] + abort);
      OneStep(s, Pay(p), [reach] + abort);
      OneStep(s1, reach, abort);
      var s2 := Apply(s1, reach);
      AbortStep(s2, p, queue, s2.processes[p].call, x);
    }
  }

  /** The renewal of one row is a run of single steps of its process. */
  lemma RenewOneRefines(s: System, p: nat, queue: seq<Subscription>, x: Weather)
    requires p in s.processes && s.processes[p] == Renewing(queue) && queue != []
    ensures var t := Exec(s, RenewalSteps(s, p, queue[0], x));
            Finished(s, t, p, queue) && WorldOf(t) == RenewOne(WorldOf(s), queue[0], x)
  {
    hide RenewalRequest, ValidRequest, AfterStatus, WithPeriod, Following, Processed, PaymentRow, InsertedPayment,
         Exec, RecordSteps;
    var row := queue[0];
    var req := RenewalRequest(row);
    if x.config.None? || row.providerName == "" || !ValidRequest(req) || !ValidConfig(x.config.value) {
      RefuseStep(s, p, queue, x);
    } else if !x.answer.Answered? {
      LostAnswerRefines(s, p, queue, x);
    } else {
      var steps := RecordSteps(s, p, req, x);
      var s3 := ChargeRefines(s, p, queue, x.answer.made, steps);
      assert steps == RecordSteps(s3, p, req, x) by { SameRecordSteps(s, s3, p, req, x); }
      RecordRefines(s3, p, queue, req, s3.processes[p].call.stage.charge, x);
    }
  }

  lemma SameRecordSteps(s: System, t: System, p: nat, req: Request, x: Weather)
    requires s.subs == t.subs && s.payments == t.payments
    ensures RecordSteps(s, p, req, x) == RecordSteps(t, p, req, x)
  {
  }

  lemma {:induction false} RenewAllRefines(s: System, p: nat, rows: seq<Subscription>, xs: seq<Weather>)
      returns (actions: seq<Action>)
    requires p in s.processes && s.processes[p] == Renewing(rows) && |xs| == |rows|
    ensures WorldOf(Exec(s, actions)) == RenewAll(WorldOf(s), rows, xs)
    decreases |rows|
  {
    hide RenewOne, RenewalSteps;
    if rows == [] {
      actions := [];
    } else {
      var first := RenewalSteps(s, p, rows[0], xs[0]);
      RenewOneRefines(s, p, rows, xs[0]);
      var t := Exec(s, first);
      var rest := RenewAllRefines(t, p, rows[1..], xs[1..]);
      ExecConcat(s, first, rest);
      actions := first + rest;
    }
  }

  /** From every reachable state, every uninterleaved renewal pass over a page of due subscriptions,
      whatever its weather, leads to the tables of another reachable state: all theorems about
      interleavings hold after it. */
  lemma PassIsARun(s: System, p: nat, now: Instant, rows: seq<Subscription>, xs: seq<Weather>) returns (t: System)
    requires Reachable(s) && p !in s.processes && AtOrBefore(now, s.clock)
    requires IsPage(s.subs, DueForRenewal(now), rows) && |xs| == |rows|
    ensures Reachable(t) && WorldOf(t) == RenewAll(WorldOf(s), rows, xs)
    ensures exists actions :: t == Exec(s, actions)
  {
    hide RenewAll, IsPage, AtOrBefore;
    var list := ListDue(p, now, rows);
    var s1 := Apply(s, list);
    var rest := RenewAllRefines(s1, p, rows, xs);
    OneStep(s, list, rest);
    var clock, payPerUse, actions :| s == Exec(Initial(clock, payPerUse), actions);
    ExecConcat(Initial(clock, payPerUse), actions, [list] + rest);
    t := Exec(s, [list] + rest);
    assert t == Exec(Initial(clock, payPerUse), actions + ([list] + rest));
  }

  /** A charge without a row is recorded by the next pass that lists its subscription at that period and
      in which that renewal goes well, whatever befalls the other rows: the row names the charge already
      made, no other charge is made for the period, and the period moves on. */
  lemma NextPassRecordsOrphan(s: System, p: nat, now: Instant, rows: seq<Subscription>, xs: seq<Weather>,
                              i: nat, k: nat)
      returns (t: System)
    requires Reachable(s) && p !in s.processes && AtOrBefore(now, s.clock)
    requires IsPage(s.subs, DueForRenewal(now), rows) && |xs| == |rows| && i < |rows|
    requires AllGoesWell(xs[i]) && ValidRequest(RenewalRequest(rows[i]))
    requires rows[i].id in s.born && rows[i].periodEnd == PeriodEnd(s.born[rows[i].id], k)
    requires PeriodCharge(s.born[rows[i].id], k) in s.charges
    ensures Reachable(t) && WorldOf(t) == RenewAll(WorldOf(s), rows, xs)
    ensures var born := s.born[rows[i].id];
            && Recorded(t.payments, born, k)
            && t.payments[PeriodKey(born, k)].chargeId == s.charges[PeriodCharge(born, k)].id
            && PeriodCharge(born, k) in t.charges
            && t.charges[PeriodCharge(born, k)].id == s.charges[PeriodCharge(born, k)].id
            && rows[i].id in t.subs && t.subs[rows[i].id].periodEnd == PeriodEnd(born, k + 1)
  {
    hide Reachable, Inv, RenewAll, IsPage, AtOrBefore, Exec, PeriodKey, PeriodCharge, PeriodEnd, AllGoesWell,
         ValidRequest, RenewalRequest, NextRow;
    var row := rows[i];
    t := PassIsARun(s, p, now, rows, xs);
    var actions :| t == Exec(s, actions);
    ReachableInvariant(s);
    RunsKeepInvariant(s, actions);
    PageParts(s.subs, DueForRenewal(now), rows);
    ListedRowCompletes(WorldOf(s), rows, xs, i);
    ListedRowTerms(s, row, k);
    OrphanChargeIsTheOneRecorded(s, row.id, k, actions);
  }

  /** The request of a row that stands at period k is for that period, and the next period is k + 1. */
  lemma ListedRowTerms(s: System, row: Subscription, k: nat)
    requires Inv(s) && row.id in s.subs && s.subs[row.id] == row && row.id in s.born
    requires row.periodEnd == PeriodEnd(s.born[row.id], k)
    ensures PaymentKeyOf(RenewalRequest(row)) == PeriodKey(s.born[row.id], k)
    ensures NextRow(row).periodEnd == PeriodEnd(s.born[row.id], k + 1)
  {
    hide InvBorn, InvSent, InvCharges, InvPayments, InvPrefix, InvReturned, InvListings, InvProcesses, RenewalKey,
         NextPeriodEnd;
    assert GoodRow(s.born, s.payments, s.subs[row.id]);
  }
}
