/** Terminal statuses under every interleaving: exactly which steps take a subscription out of canceled or
    expired, and what those who take them had read. */
module Reopening {
  import opened Calendar
  import opened RenewalKeys
  import opened Domain
  import opened Protocol
  import opened ProtocolInvariant
  import opened Ledger
  import opened StatusHistory

  /** A write of a status that is not terminal to the row with some id: a renewal that failed, the trial
      job, or a PATCH. */
  ghost predicate StepReopens(s: System, a: Action, id: Uuid) {
    Enabled(s, a) &&
    match a
    case MarkPastDue(p, written) => written && s.processes[p].queue[0].id == id
    case WriteStatus(p, written) => written && s.processes[p].queue[0].id == id && !Terminal(TargetOf(s.processes[p].q))
    case WritePatch(p, written) =>
      var job := s.processes[p];
      written && job.seen.id == id && job.patch.status.Some? && !Terminal(job.patch.status.value)
    case _ => false
  }

  predicate WritesStatus(a: Action) {
    a.MarkPastDue? || a.WriteStatus? || a.WritePatch?
  }

  /** The row as the writer had read it. */
  ghost function ReadBy(s: System, a: Action): Subscription
    requires Enabled(s, a) && WritesStatus(a)
  {
    if a.WritePatch? then s.processes[a.p].seen else s.processes[a.p].queue[0]
  }

  /** A PATCH to past_due by someone who had read the row expired. On a row that still is, this is the one
      transition out of a terminal status that the service allows. */
  ghost predicate IsReopeningPatch(s: System, a: Action) {
    Enabled(s, a) && a.WritePatch? && s.processes[a.p].seen.status == Expired
    && s.processes[a.p].patch.status == Some(PastDue)
  }

  lemma OtherStepLeavesStatus(s: System, a: Action, id: Uuid)
    requires s.subs.Keys == s.born.Keys && Enabled(s, a) && id in s.subs && !WritesStatus(a) && !a.CancelSubscription?
    ensures id in Apply(s, a).subs && Apply(s, a).subs[id].status == s.subs[id].status
  {
    hide IsPage, ValidRequest, IsRenewalKey, TargetOf, CallEnded, AtStage, RenewalRequest, InsertedPayment, Processed,
         PaymentRow, CalculatePeriodEnd, NextPeriodEnd, KnownInterval, PatchAllowed, IsUuid;
  }

  lemma StatusWrite(s: System, a: Action, id: Uuid)
    requires Enabled(s, a) && id in s.subs && Terminal(s.subs[id].status) && (WritesStatus(a) || a.CancelSubscription?)
    ensures id in Apply(s, a).subs
    ensures !Terminal(Apply(s, a).subs[id].status) <==> StepReopens(s, a, id)
  {
  }

  lemma StepLeavesTerminalIff(s: System, a: Action, id: Uuid)
    requires s.subs.Keys == s.born.Keys && Enabled(s, a) && id in s.subs && Terminal(s.subs[id].status)
    ensures id in Apply(s, a).subs
    ensures !Terminal(Apply(s, a).subs[id].status) <==> StepReopens(s, a, id)
  {
    hide Enabled, Apply;
    if WritesStatus(a) || a.CancelSubscription? {
      StatusWrite(s, a, id);
    } else {
      OtherStepLeavesStatus(s, a, id);
    }
  }

  /** Canceled and expired are left by a step exactly if it writes a non-terminal status to the row. */
  lemma TerminalLeftIff(s: System, a: Action, id: Uuid)
    requires Reachable(s) && Enabled(s, a) && id in s.subs && Terminal(s.subs[id].status)
    ensures id in Apply(s, a).subs
    ensures !Terminal(Apply(s, a).subs[id].status) <==> StepReopens(s, a, id)
  {
    hide Reachable, Enabled, Apply, StepReopens, InvBorn, InvSent, InvCharges, InvPayments, InvPrefix, InvReturned,
         InvListings, InvProcesses, GoodRow;
    ReachableInvariant(s);
    StepLeavesTerminalIff(s, a, id);
  }

  /** Whoever reopens a row had read it when it was active (a renewal), trialing (the trial job) or not
      terminal (a PATCH), unless it is a PATCH to past_due that had read it expired. The reopening is other
      than the allowed transition from expired to past_due exactly when the writer's reading is out of date,
      which the writer could find out before it writes. */
  lemma ReopenerHadReadItOpen(s: System, a: Action, id: Uuid)
    requires Reachable(s) && StepReopens(s, a, id)
    ensures var row := ReadBy(s, a);
            && row.id == id
            && (a.MarkPastDue? ==> row.status == Active)
            && (a.WriteStatus? ==> row.status == Trialing)
            && (!Terminal(row.status) || IsReopeningPatch(s, a))
            && (id in s.subs && Terminal(s.subs[id].status) ==>
                  (row.status != s.subs[id].status <==> !(s.subs[id].status == Expired && IsReopeningPatch(s, a))))
  {
    hide Reachable, Apply, InvBorn, InvRows, InvSent, InvCharges, InvPayments, InvPrefix, InvReturned, GoodRow,
         GoodCall, RenewalRequest, IsRenewalKey, AtOrBefore;
    ReachableInvariant(s);
    assert GoodProcess(s, s.processes[a.p]);
    var row := ReadBy(s, a);
    if a.MarkPastDue? {
      assert row in s.processes[a.p].queue;
      var l :| l in s.listings && l.row == row;
      assert Selects(DueForRenewal(l.now), l.row);
    } else if a.WriteStatus? {
      assert row in s.processes[a.p].queue;
    }
  }

  /** Under every interleaving: the status jobs write active only over a subscription whose trial, as it was
      created, has ended by the clock, and expired only over one that the job had read past_due with a period
      end at or before the end of its grace period. */
  lemma StatusWriteHadReason(s: System, p: nat)
    requires Reachable(s) && Enabled(s, WriteStatus(p, true))
    ensures var id := s.processes[p].queue[0].id;
            var t := Apply(s, WriteStatus(p, true));
            && id in s.born && id in t.subs && (t.subs[id].status == Active || t.subs[id].status == Expired)
            && (t.subs[id].status == Active ==>
                  s.born[id].trialEndsAt.Some? && AtOrBefore(s.born[id].trialEndsAt.value, s.clock))
            && (t.subs[id].status == Expired ==>
                  var seen := s.processes[p].queue[0];
                  seen.status == PastDue && s.processes[p].q.PendingExpiry?
                  && AtOrBefore(seen.periodEnd, s.processes[p].q.graceEnd))
  {
    hide Reachable, Inv, GoodProcess, PeriodEnd, Payable;
    ReachableInvariant(s);
    StatusJobGood(s, p);
    var row := s.processes[p].queue[0];
    var k: nat :| AtPeriod(s.born, s.payments, row, k);
    if row.trialEndsAt.Some? && s.processes[p].q.ExpiredTrials? {
      AtOrBeforeIsOrder(row.trialEndsAt.value, s.processes[p].q.now, s.clock);
    }
  }

  lemma StatusJobGood(s: System, p: nat)
    requires Inv(s) && p in s.processes && s.processes[p].StatusJob? && s.processes[p].queue != []
    ensures var job := s.processes[p];
            && GoodStatusJob(job.queue, job.q, s.clock) && Selects(job.q, job.queue[0])
            && GoodRow(s.born, s.payments, job.queue[0]) && s.subs.Keys == s.born.Keys
  {
    hide InvBorn, InvSent, InvCharges, InvPayments, InvPrefix, InvReturned, InvListings, GoodRow, Selects;
    assert GoodProcess(s, s.processes[p]);
    assert s.processes[p].queue[0] in s.processes[p].queue;
  }

  lemma {:induction false} FirstReopening(s: System, later: seq<Action>, id: Uuid) returns (i: nat)
    requires Inv(s) && id in s.subs && Terminal(s.subs[id].status)
    requires id in Exec(s, later).subs ==> !Terminal(Exec(s, later).subs[id].status)
    ensures i < |later|
    ensures var u := Exec(s, later[..i]);
            id in u.subs && Terminal(u.subs[id].status) && StepReopens(u, later[i], id)
    decreases |later|
  {
    hide Inv, Enabled, Apply, Terminal, StepReopens;
    var a := later[0];
    if Enabled(s, a) {
      SameKeys(s);
      StepLeavesTerminalIff(s, a, id);
      Preserved(s, a);
    } else {
      assert !StepReopens(s, a, id) by { NotEnabled(s, a, id); }
    }
    if StepReopens(s, a, id) {
      i := 0;
      assert later[..0] == [];
    } else {
      var k := FirstReopening(Step(s, a), later[1..], id);
      i := k + 1;
      assert later[..i][1..] == later[1..][..k];
    }
  }

  lemma SameKeys(s: System)
    requires Inv(s)
    ensures s.subs.Keys == s.born.Keys
  {
  }

  lemma NotEnabled(s: System, a: Action, id: Uuid)
    requires !Enabled(s, a)
    ensures !StepReopens(s, a, id)
  {
    hide Enabled;
  }

  /** Over any run, every interleaving included: a subscription that was canceled or expired and no longer is
      was reopened in between, by the allowed PATCH of an expired row to past_due or else by a writer whose
      reading was out of date. */
  lemma TerminalLeftOnlyByWriters(s: System, later: seq<Action>, id: Uuid) returns (i: nat)
    requires Reachable(s) && id in s.subs && Terminal(s.subs[id].status)
    requires id in Exec(s, later).subs ==> !Terminal(Exec(s, later).subs[id].status)
    ensures i < |later|
    ensures var u := Exec(s, later[..i]);
            && id in u.subs && Terminal(u.subs[id].status) && StepReopens(u, later[i], id)
            && (ReadBy(u, later[i]).status != u.subs[id].status
                <==> !(u.subs[id].status == Expired && IsReopeningPatch(u, later[i])))
  {
    hide Inv, Exec, Terminal;
    ReachableInvariant(s);
    i := FirstReopening(s, later, id);
    var clock, payPerUse, before :| s == Exec(Initial(clock, payPerUse), before);
    ExecConcat(Initial(clock, payPerUse), before, later[..i]);
    ReopenerHadReadItOpen(Exec(s, later[..i]), later[i], id);
  }
}
