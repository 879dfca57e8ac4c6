/** The renewal protocol as a step relation.

    Any number of lifecycle runners and API payment calls run as processes against the shared
    tables and the provider. Every database statement and every message is a step of its own, so
    that crashes, lost replies, stale snapshots and other processes can fall between any two. A
    request once sent may reach the provider at any later time and any number of times. */
module Protocol {
  import opened Calendar
  import opened RenewalKeys
  import opened Domain

  /** Where a CreatePayment call stands: waiting for the provider, about to insert the row, or about
      to fetch the row that the insert ran into. */
  datatype Stage = Awaiting | Charged(charge: Charge) | Conflicted

  datatype Call = Call(req: Request, stage: Stage)

  /** A process and its snapshot: the listed rows it has not finished, the current one first; or the row
      a PATCH has read and let through its gates. */
  datatype Process =
    | ApiPayment(call: Call)
    | Renewing(queue: seq<Subscription>)
    | Paying(queue: seq<Subscription>, call: Call)
    | Advancing(queue: seq<Subscription>)
    | Failing(queue: seq<Subscription>)
    | StatusJob(queue: seq<Subscription>, q: Query)
    | Patching(seen: Subscription, patch: Patch)

  /** A row as a renewal pass listed it, and the clock reading of that pass. */
  datatype Listing = Listing(row: Subscription, now: Instant)

  /** What a CreatePayment call returned without error. */
  datatype Return = Return(key: PaymentKey, payment: Payment, created: bool)

  /** The shared state. `born` holds every subscription as it was inserted, `sent` every request ever
      sent, `listings` every row ever listed for renewal and `returned` every result: they record
      the past and no step reads `born`, `listings` or `returned`. */
  datatype System = System(
    clock: Instant,
    subs: Subscriptions,
    payments: Payments,
    charges: Charges,
    processes: map<nat, Process>,
    payPerUse: set<string>,
    sent: set<Request>,
    born: Subscriptions,
    listings: set<Listing>,
    returned: seq<Return>)

  datatype Action =
    | Tick(to: Instant)
    | CreateSubscription(row: Subscription)
    | ReadForPatch(p: nat, id: Uuid, patch: Patch)
    | WritePatch(p: nat, written: bool)
    | CancelSubscription(id: Uuid, atPeriodEnd: bool)
    | StartApiPayment(p: nat, req: Request)
    | ReachProvider(req: Request, made: Charge)
    | SettleCharge(key: ChargeKey, status: ChargeStatus)
    | Respond(p: nat)
    | InsertRow(p: nat, replied: bool)
    | FetchRow(p: nat)
    | AbortCall(p: nat)
    | ListDue(p: nat, now: Instant, rows: seq<Subscription>)
    | Pay(p: nat)
    | Refuse(p: nat)
    | Advance(p: nat, written: bool)
    | MarkPastDue(p: nat, written: bool)
    | ListForStatus(p: nat, q: Query, rows: seq<Subscription>)
    | WriteStatus(p: nat, written: bool)
    | Crash(p: nat)

  function Initial(clock: Instant, payPerUse: set<string>): System {
    System(clock, map[], map[], map[], map[], payPerUse, {}, map[], {}, [])
  }

  predicate HasCall(proc: Process) {
    proc.ApiPayment? || proc.Paying?
  }

  predicate InCall(s: System, p: nat) {
    p in s.processes && HasCall(s.processes[p])
  }

  /** A renewal pass that is between two rows and has a row left. */
  predicate AtRow(s: System, p: nat) {
    p in s.processes && s.processes[p].Renewing? && s.processes[p].queue != []
  }

  /** The status a status job writes for the rows it listed. */
  function TargetOf(q: Query): Status
    requires !q.DueForRenewal?
  {
    if q.ExpiredTrials? then Active else Expired
  }

  /** A row as Create inserts it; both creation paths rule out a zero interval count. */
  predicate Insertable(born: Subscriptions, row: Subscription) {
    && row.id !in born && IsUuid(row.key)
    && (forall id <- born :: born[id].key != row.key)
    && row.intervalCount != 0 && KnownInterval(row.interval)
    && row.periodEnd == CalculatePeriodEnd(row.periodStart, row.interval, row.intervalCount)
    && (row.status == Active || row.status == Trialing)
    && !row.cancelAtPeriodEnd
  }

  ghost predicate Enabled(s: System, a: Action) {
    match a
    case Tick(to) => AtOrBefore(s.clock, to)
    case CreateSubscription(row) => Insertable(s.born, row)
    case ReadForPatch(p, id, patch) =>
      p !in s.processes && id in s.subs && PatchAllowed(s.subs[id], patch, s.payPerUse)
    case WritePatch(p, _) => p in s.processes && s.processes[p].Patching?
    case CancelSubscription(id, _) => id in s.subs
    case StartApiPayment(p, req) => p !in s.processes && ValidRequest(req) && !IsRenewalKey(req.key)
    case ReachProvider(req, _) => req in s.sent
    case SettleCharge(key, _) => key in s.charges
    case Respond(p) =>
      InCall(s, p) && s.processes[p].call.stage.Awaiting? && ChargeKeyOf(s.processes[p].call.req) in s.charges
    case InsertRow(p, _) =>
      && InCall(s, p) && s.processes[p].call.stage.Charged?
      && (PaymentKeyOf(s.processes[p].call.req) in s.payments || s.processes[p].call.req.subscriptionId in s.subs)
    case FetchRow(p) =>
      InCall(s, p) && s.processes[p].call.stage.Conflicted? && PaymentKeyOf(s.processes[p].call.req) in s.payments
    case AbortCall(p) => InCall(s, p)
    case ListDue(p, now, rows) =>
      p !in s.processes && AtOrBefore(now, s.clock) && IsPage(s.subs, DueForRenewal(now), rows)
    case Pay(p) => AtRow(s, p) && ValidRequest(RenewalRequest(s.processes[p].queue[0]))
    case Refuse(p) => AtRow(s, p)
    case Advance(p, _) => p in s.processes && s.processes[p].Advancing? && s.processes[p].queue != []
    case MarkPastDue(p, _) => p in s.processes && s.processes[p].Failing? && s.processes[p].queue != []
    case ListForStatus(p, q, rows) =>
      && p !in s.processes && !q.DueForRenewal? && IsPage(s.subs, q, rows)
      && (q.ExpiredTrials? ==> AtOrBefore(q.now, s.clock))
    case WriteStatus(p, _) =>
      && p in s.processes && s.processes[p].StatusJob? && s.processes[p].queue != []
      && !s.processes[p].q.DueForRenewal?
    case Crash(p) => p in s.processes
  }

  /** The process table after a call ends without error, or with one. An API call is over; a renewal
      goes on to advance the period, or to mark the row past_due. */
  function CallEnded(processes: map<nat, Process>, p: nat, ok: bool): map<nat, Process>
    requires p in processes && HasCall(processes[p])
  {
    if processes[p].ApiPayment? then processes - {p}
    else processes[p := if ok then Advancing(processes[p].queue) else Failing(processes[p].queue)]
  }

  function AtStage(processes: map<nat, Process>, p: nat, stage: Stage): map<nat, Process>
    requires p in processes && HasCall(processes[p])
  {
    processes[p := processes[p].(call := Call(processes[p].call.req, stage))]
  }

  ghost function Apply(s: System, a: Action): System
    requires Enabled(s, a)
  {
    match a
    case Tick(to) => s.(clock := to)
    case CreateSubscription(row) => s.(subs := s.subs[row.id := row], born := s.born[row.id := row])
    case ReadForPatch(p, id, patch) => s.(processes := s.processes[p := Patching(s.subs[id], patch)])
    case WritePatch(p, written) =>
      var job := s.processes[p];
      s.(processes := s.processes - {p}, subs := if written then WithPatch(s.subs, job.seen.id, job.patch) else s.subs)
    case CancelSubscription(id, atPeriodEnd) => s.(subs := WithCancel(s.subs, id, atPeriodEnd))
    case StartApiPayment(p, req) =>
      s.(processes := s.processes[p := ApiPayment(Call(req, Awaiting))], sent := s.sent + {req})
    case ReachProvider(req, made) => s.(charges := Processed(s.charges, req, made))
    case SettleCharge(key, status) => s.(charges := s.charges[key := s.charges[key].(status := status)])
    case Respond(p) =>
      s.(processes := AtStage(s.processes, p, Charged(s.charges[ChargeKeyOf(s.processes[p].call.req)])))
    case InsertRow(p, replied) =>
      var call := s.processes[p].call;
      var row := PaymentRow(call.req, call.stage.charge);
      var s1 := s.(payments := InsertedPayment(s.payments, row));
      if !replied then s1.(processes := CallEnded(s.processes, p, false))
      else if PaymentKeyOf(call.req) in s.payments then s1.(processes := AtStage(s.processes, p, Conflicted))
      else s1.(processes := CallEnded(s.processes, p, true),
               returned := s.returned + [Return(PaymentKeyOf(call.req), row, true)])
    case FetchRow(p) =>
      var pk := PaymentKeyOf(s.processes[p].call.req);
      s.(processes := CallEnded(s.processes, p, true), returned := s.returned + [Return(pk, s.payments[pk], false)])
    case AbortCall(p) => s.(processes := CallEnded(s.processes, p, false))
    case ListDue(p, now, rows) =>
      s.(processes := s.processes[p := Renewing(rows)], listings := s.listings + (set row <- rows :: Listing(row, now)))
    case Pay(p) =>
      var req := RenewalRequest(s.processes[p].queue[0]);
      s.(processes := s.processes[p := Paying(s.processes[p].queue, Call(req, Awaiting))], sent := s.sent + {req})
    case Refuse(p) => s.(processes := s.processes[p := Failing(s.processes[p].queue)])
    case Advance(p, written) =>
      var sub := s.processes[p].queue[0];
      var end := NextPeriodEnd(sub.periodEnd, sub.interval, sub.intervalCount);
      s.(processes := s.processes[p := Renewing(s.processes[p].queue[1..])],
         subs := if written then WithPeriod(s.subs, sub.id, sub.periodEnd, end) else s.subs)
    case MarkPastDue(p, written) =>
      s.(processes := s.processes[p := Renewing(s.processes[p].queue[1..])],
         subs := if written then WithStatus(s.subs, s.processes[p].queue[0].id, PastDue) else s.subs)
    case ListForStatus(p, q, rows) => s.(processes := s.processes[p := StatusJob(rows, q)])
    case WriteStatus(p, written) =>
      var job := s.processes[p];
      s.(processes := s.processes[p := job.(queue := job.queue[1..])],
         subs := if written then WithStatus(s.subs, job.queue[0].id, TargetOf(job.q)) else s.subs)
    case Crash(p) => s.(processes := s.processes - {p})
  }

  /** One step; an action that is not enabled does nothing. */
  ghost function Step(s: System, a: Action): System {
    if Enabled(s, a) then Apply(s, a) else s
  }

  /** The state after a run of actions. */
  ghost function Exec(s: System, actions: seq<Action>): System
    decreases |actions|
  {
    if actions == [] then s else Exec(Step(s, actions[0]), actions[1..])
  }

  lemma {:induction false} ExecConcat(s: System, a: seq<Action>, b: seq<Action>)
    ensures Exec(s, a + b) == Exec(Exec(s, a), b)
    decreases |a|
  {
    if a == [] {
      assert a + b == b;
    } else {
      assert (a + b)[1..] == a[1..] + b;
      ExecConcat(Step(s, a[0]), a[1..], b);
    }
  }
}
