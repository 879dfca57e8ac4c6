/** The repositories, services and the lifecycle runner as the objects that update the tables, each
    method proved against the function that specifies it. Every call takes the way its statements
    turn out as a parameter. */
module Runner {
  import opened Calendar
  import opened RenewalKeys
  import opened Domain
  import opened Lifecycle
  import opened StatusHistory

  /** The subscriptions table behind its repository. `idempotency` is the unique
      (tenant_id, idempotency_key) index. */
  class SubscriptionRepository {
    var subs: Subscriptions
    var idempotency: map<PaymentKey, Uuid>

    /** Every indexed key leads to a stored row of its tenant. */
    ghost predicate Valid()
      reads this
    {
      && Keyed(subs)
      && forall k <- idempotency :: idempotency[k] in subs && subs[idempotency[k]].tenant == k.tenant
    }

    constructor ()
      ensures Valid() && subs == map[] && idempotency == map[]
    {
      subs := map[];
      idempotency := map[];
    }

    /** Inserts a row, or returns the row created under the same idempotency key. */
    method Create(row: Subscription, idempotencyKey: string) returns (r: Option<Subscription>, created: bool)
      requires Valid()
      modifies this
      ensures Valid()
      ensures var k := PaymentKey(row.tenant, idempotencyKey);
              if k in old(idempotency) then
                r == Some(old(subs)[old(idempotency)[k]]) && !created && unchanged(this)
              else if row.id in old(subs) || (exists id :: id in old(subs) && old(subs)[id].key == row.key) then
                r == None && !created && unchanged(this)
              else
                r == Some(row) && created && subs == old(subs)[row.id := row]
                && idempotency == old(idempotency)[k := row.id]
    {
      var k := PaymentKey(row.tenant, idempotencyKey);
      if k in idempotency {
        return Some(subs[idempotency[k]]), false;
      }
      if row.id in subs || exists id :: id in subs && subs[id].key == row.key {
        return None, false;
      }
      subs := subs[row.id := row];
      idempotency := idempotency[k := row.id];
      return Some(row), true;
    }

    method UpdateStatus(id: Uuid, status: Status, x: Write) returns (ok: bool)
      modifies this`subs
      ensures subs == AfterStatus(old(subs), id, status, x)
      ensures ok <==> x.Written? && id in old(subs)
    {
      if !x.NotWritten? && id in subs {
        subs := subs[id := subs[id].(status := status)];
      }
      ok := x.Written? && id in subs;
    }

    method AdvancePeriod(id: Uuid, newStart: Instant, newEnd: Instant, x: Write) returns (ok: bool)
      modifies this`subs
      ensures subs == if x.NotWritten? then old(subs) else WithPeriod(old(subs), id, newStart, newEnd)
      ensures ok <==> x.Written? && id in old(subs)
    {
      if !x.NotWritten? && id in subs {
        subs := subs[id := subs[id].(periodStart := newStart, periodEnd := newEnd)];
      }
      ok := x.Written? && id in subs;
    }

    /** Adds one column assignment for every field present in the patch. */
    method Update(id: Uuid, patch: Patch) returns (r: Option<Subscription>)
      modifies this`subs
      ensures subs == WithPatch(old(subs), id, patch)
      ensures r == if id in old(subs) then Some(subs[id]) else None
    {
      if id !in subs {
        return None;
      }
      var row := subs[id];
      if patch.status.Some? {
        row := row.(status := patch.status.value);
      }
      if patch.cancelAtPeriodEnd.Some? {
        row := row.(cancelAtPeriodEnd := patch.cancelAtPeriodEnd.value);
      }
      if patch.amount.Some? {
        row := row.(amount := patch.amount.value);
      }
      subs := subs[id := row];
      r := Some(row);
    }

    method Cancel(id: Uuid, atPeriodEnd: bool) returns (r: Option<Subscription>)
      modifies this`subs
      ensures subs == WithCancel(old(subs), id, atPeriodEnd)
      ensures r == if id in old(subs) then Some(subs[id]) else None
    {
      if id !in subs {
        return None;
      }
      subs := subs[id := CanceledRow(subs[id], atPeriodEnd)];
      r := Some(subs[id]);
    }

    /** One of the three due lists: any page that answers the query. */
    method List(q: Query) returns (rows: seq<Subscription>)
      requires Keyed(subs)
      ensures IsPage(subs, q, rows)
    {
      PageExists(subs, q);
      rows :| IsPage(subs, q, rows);
    }
  }

  /** The service in front of the repository: the PATCH gates. */
  class SubscriptionService {
    const repo: SubscriptionRepository
    const payPerUse: set<string>

    constructor (repo: SubscriptionRepository, payPerUse: set<string>)
      ensures this.repo == repo && this.payPerUse == payPerUse
    {
      this.repo := repo;
      this.payPerUse := payPerUse;
    }

    /** Reads the row, checks the gates on it and writes the patch; `meanwhile` is what other statements do
        to the table between the reading and the write. */
    method Update(id: Uuid, patch: Patch, meanwhile: Subscriptions -> Subscriptions) returns (r: Option<Subscription>)
      modifies repo`subs
      ensures var before := old(repo.subs);
              if id in before && PatchAllowed(before[id], patch, payPerUse) then
                repo.subs == WithPatch(meanwhile(before), id, patch)
                && r == if id in meanwhile(before) then Some(repo.subs[id]) else None
              else
                repo.subs == before && r == None
      ensures meanwhile(old(repo.subs)) == old(repo.subs) ==>
                repo.subs == Occur(World(old(repo.subs), map[], map[]), PatchCall(id, patch), payPerUse).subs
    {
      if id !in repo.subs {
        return None;
      }
      var current := repo.subs[id];
      if patch.amount.Some? {
        if current.providerName == "" {
          return None;
        }
        if current.providerName !in payPerUse {
          return None;
        }
      }
      if patch.status.Some? {
        if !TransitionAllowed(current.status, patch.status.value) {
          return None;
        }
      }
      repo.subs := meanwhile(repo.subs);
      r := repo.Update(id, patch);
    }
  }

  /** The payments table behind its repository; a payment row references a subscription. */
  class PaymentRepository {
    var payments: Payments
    const subscriptions: SubscriptionRepository

    constructor (subscriptions: SubscriptionRepository)
      ensures payments == map[] && this.subscriptions == subscriptions
    {
      this.subscriptions := subscriptions;
      payments := map[];
    }

    /** INSERT ... ON CONFLICT DO NOTHING, and on a conflict a SELECT of the row in the way. */
    method Create(row: Payment, insert: Write, fetched: bool) returns (r: PaymentResult)
      modifies this
      ensures var pk := PaymentKey(row.tenant, row.key);
              && payments == (if insert.NotWritten? then old(payments)
                              else if pk !in old(payments) && row.subscriptionId !in subscriptions.subs then
                                old(payments)
                              else InsertedPayment(old(payments), row))
              && (r.Paid? <==> pk in payments && insert.Written? && (pk in old(payments) ==> fetched))
              && (r.Paid? ==> r.payment == payments[pk] && (r.created <==> pk !in old(payments)))
    {
      var pk := PaymentKey(row.tenant, row.key);
      if insert.NotWritten? {
        return PaymentFailed;
      }
      var inserted := false;
      if pk !in payments {
        if row.subscriptionId !in subscriptions.subs {
          return PaymentFailed;
        }
        payments := payments[pk := row];
        inserted := true;
      }
      if insert.WrittenUnheard? {
        return PaymentFailed;
      }
      if inserted {
        return Paid(row, true);
      }
      var existing := GetByKey(pk, fetched);
      if existing.None? {
        return PaymentFailed;
      }
      r := Paid(existing.value, false);
    }

    method GetByKey(pk: PaymentKey, fetched: bool) returns (r: Option<Payment>)
      ensures r == if fetched && pk in payments then Some(payments[pk]) else None
    {
      r := if fetched && pk in payments then Some(payments[pk]) else None;
    }
  }

  /** The payment provider as the service sees it. */
  class PaymentProvider {
    var charges: Charges

    constructor ()
      ensures charges == map[]
    {
      charges := map[];
    }

    method CreateCharge(req: Request, answer: Answer) returns (r: Option<Charge>)
      modifies this
      ensures charges == if answer.Unreached? then old(charges) else Processed(old(charges), req, answer.made)
      ensures r.Some? <==> answer.Answered?
      ensures r.Some? ==> ChargeKeyOf(req) in charges && r.value == charges[ChargeKeyOf(req)]
    {
      if answer.Unreached? {
        return None;
      }
      if ChargeKeyOf(req) !in charges {
        charges := charges[ChargeKeyOf(req) := answer.made];
      }
      r := if answer.Answered? then Some(charges[ChargeKeyOf(req)]) else None;
    }
  }

  class PaymentService {
    const repo: PaymentRepository
    const provider: PaymentProvider

    constructor (repo: PaymentRepository, provider: PaymentProvider)
      ensures this.repo == repo && this.provider == provider
    {
      this.repo := repo;
      this.provider := provider;
    }

    ghost function Tables(): World
      reads repo, repo.subscriptions, provider
    {
      World(repo.subscriptions.subs, repo.payments, provider.charges)
    }

    method CreatePayment(req: Request, x: Weather) returns (r: PaymentResult)
      modifies repo, provider
      ensures (Tables(), r) == Lifecycle.CreatePayment(old(Tables()), req, x)
    {
      if !ValidRequest(req) || (x.config.Some? && !ValidConfig(x.config.value)) {
        return PaymentFailed;
      }
      var charge := provider.CreateCharge(req, x.answer);
      if charge.None? {
        return PaymentFailed;
      }
      r := repo.Create(PaymentRow(req, charge.value), x.insert, x.fetched);
    }
  }

  /** The first n answers of a source of answers. */
  function FirstOf<T>(f: nat -> T, n: nat): (s: seq<T>)
    ensures |s| == n
    ensures forall i: nat :: i < n ==> s[i] == f(i)
  {
    seq(n, (i: nat) => f(i))
  }

  /** The rows a list query hands to its job: a page, or nothing when the query fails. */
  predicate Answers(listed: bool, subs: Subscriptions, q: Query, rows: seq<Subscription>) {
    if listed then IsPage(subs, q, rows) else rows == []
  }

  class LifecycleRunner {
    const subRepo: SubscriptionRepository
    const paySvc: PaymentService
    const graceDays: int

    constructor (subRepo: SubscriptionRepository, paySvc: PaymentService, graceDays: int)
      requires paySvc.repo.subscriptions == subRepo
      ensures Valid()
      ensures this.subRepo == subRepo && this.paySvc == paySvc && this.graceDays == graceDays
    {
      this.subRepo := subRepo;
      this.paySvc := paySvc;
      this.graceDays := graceDays;
    }

    /** The runner and the payment service see the same subscriptions table. */
    ghost predicate Valid() {
      paySvc.repo.subscriptions == subRepo
    }

    method RenewSubscription(sub: Subscription, x: Weather) returns (ok: bool)
      requires Valid()
      modifies subRepo`subs, paySvc.repo, paySvc.provider
      ensures paySvc.Tables() == RenewOne(old(paySvc.Tables()), sub, x)
      ensures ok ==> PaymentKeyOf(RenewalRequest(sub)) in paySvc.repo.payments
                     && sub.id in subRepo.subs && subRepo.subs[sub.id].periodEnd == Following(sub)
    {
      if x.config.None? || sub.providerName == "" {
        var _ := subRepo.UpdateStatus(sub.id, PastDue, x.mark);
        return false;
      }
      var r := paySvc.CreatePayment(RenewalRequest(sub), x);
      if r.PaymentFailed? {
        var _ := subRepo.UpdateStatus(sub.id, PastDue, x.mark);
        return false;
      }
      ok := subRepo.AdvancePeriod(sub.id, sub.periodEnd, Following(sub), x.advance);
    }

    /** The renewal job; a listing that fails ends it. */
    method RunRenewals(now: Instant, listed: bool, weather: nat -> Weather) returns (ghost rows: seq<Subscription>)
      requires Valid() && Keyed(subRepo.subs)
      modifies subRepo`subs, paySvc.repo, paySvc.provider
      ensures Answers(listed, old(subRepo.subs), DueForRenewal(now), rows)
      ensures paySvc.Tables() == RenewAll(old(paySvc.Tables()), rows, FirstOf(weather, |rows|))
    {
      if !listed {
        return [];
      }
      var subs := subRepo.List(DueForRenewal(now));
      rows := subs;
      ghost var xs := FirstOf(weather, |rows|);
      for n := 0 to |subs|
        invariant RenewAll(old(paySvc.Tables()), subs, xs) == RenewAll(paySvc.Tables(), subs[n..], xs[n..])
      {
        assert subs[n..][0] == subs[n] && xs[n..][0] == weather(n);
        assert subs[n..][1..] == subs[n + 1..] && xs[n..][1..] == xs[n + 1..];
        var _ := RenewSubscription(subs[n], weather(n));
      }
    }

    /** The trial and grace jobs: list, then write one status for every row. */
    method RunStatusJob(q: Query, status: Status, listed: bool, writes: nat -> Write)
        returns (ghost rows: seq<Subscription>)
      requires Keyed(subRepo.subs)
      modifies subRepo`subs
      ensures Answers(listed, old(subRepo.subs), q, rows)
      ensures subRepo.subs == WriteAll(old(subRepo.subs), rows, status, FirstOf(writes, |rows|))
    {
      if !listed {
        return [];
      }
      var subs := subRepo.List(q);
      rows := subs;
      ghost var xs := FirstOf(writes, |rows|);
      for n := 0 to |subs|
        invariant WriteAll(old(subRepo.subs), subs, status, xs) == WriteAll(subRepo.subs, subs[n..], status, xs[n..])
      {
        assert subs[n..][0] == subs[n] && xs[n..][0] == writes(n);
        assert subs[n..][1..] == subs[n + 1..] && xs[n..][1..] == xs[n + 1..];
        var _ := subRepo.UpdateStatus(subs[n].id, status, writes(n));
      }
    }

    /** All three jobs in sequence; a job whose list query fails does nothing and does not stop the next.
        The grace period is counted back from the clock reading at the start of the pass; the other two
        jobs read the clock again. */
    method RunAllJobs(began: Instant, renewNow: Instant, trialNow: Instant, listed: (bool, bool, bool),
                      weather: nat -> Weather, trialWrites: nat -> Write, expiryWrites: nat -> Write)
      returns (ghost es: seq<Event>)
      requires Valid() && Keyed(subRepo.subs)
      modifies subRepo`subs, paySvc.repo, paySvc.provider
      ensures |es| == 3 && es[0].RenewalPass? && es[1].TrialPass? && es[2].GracePass?
      ensures es[0].now == renewNow && es[1].now == trialNow && es[2].graceEnd == AddDate(began, 0, 0, -graceDays)
      ensures Answers(listed.0, old(subRepo.subs), DueForRenewal(renewNow), es[0].rows)
              && Possible(old(paySvc.Tables()), es[0])
      ensures var w1 := Occur(old(paySvc.Tables()), es[0], {});
              Answers(listed.1, w1.subs, ExpiredTrials(trialNow), es[1].rows) && Possible(w1, es[1])
              && Answers(listed.2, Occur(w1, es[1], {}).subs, PendingExpiry(es[2].graceEnd), es[2].rows)
      ensures PossibleRun(old(paySvc.Tables()), es, {})
      ensures paySvc.Tables() == After(old(paySvc.Tables()), es, {})
      ensures forall id <- old(subRepo.subs) :: id in subRepo.subs
                && (subRepo.subs[id].status == Expired && old(subRepo.subs)[id].status != Expired ==>
                      AtOrBefore(AddDate(subRepo.subs[id].periodEnd, 0, 0, graceDays), began))
    {
      hide RenewAll, WriteAll, IsPage, AddDate, AtOrBefore, FirstOf, PossibleRun, After;
      ghost var w0 := paySvc.Tables();
      ghost var r0 := RunRenewals(renewNow, listed.0, weather);
      ghost var e0 := RenewalPass(renewNow, r0, FirstOf(weather, |r0|));
      ghost var w1 := paySvc.Tables();
      KeyedAfter(w0, e0);
      ghost var r1 := RunStatusJob(ExpiredTrials(trialNow), Active, listed.1, trialWrites);
      ghost var e1 := TrialPass(trialNow, r1, FirstOf(trialWrites, |r1|));
      ghost var w2 := paySvc.Tables();
      KeyedAfter(w1, e1);
      var graceEnd := AddDate(began, 0, 0, -graceDays);
      ghost var r2 := RunStatusJob(PendingExpiry(graceEnd), Expired, listed.2, expiryWrites);
      ghost var e2 := GracePass(graceEnd, r2, FirstOf(expiryWrites, |r2|));
      es := [e0, e1, e2];
      ThreePasses(w0, e0, e1, e2, w1, w2, paySvc.Tables());
      forall id | id in w0.subs
        ensures id in subRepo.subs
        ensures subRepo.subs[id].status == Expired && w0.subs[id].status != Expired ==>
                  AtOrBefore(AddDate(subRepo.subs[id].periodEnd, 0, 0, graceDays), began)
      {
        ExpiryRespectsGrace(w0, began, graceDays, e0, e1, e2, {}, id);
      }
    }
  }

  lemma ThreePasses(w0: World, e0: Event, e1: Event, e2: Event, w1: World, w2: World, w3: World)
    requires Possible(w0, e0) && w1 == Occur(w0, e0, {})
    requires Possible(w1, e1) && w2 == Occur(w1, e1, {})
    requires Possible(w2, e2) && w3 == Occur(w2, e2, {})
    ensures PossibleRun(w0, [e0, e1, e2], {}) && After(w0, [e0, e1, e2], {}) == w3
  {
    hide Possible, Occur;
    assert [e0, e1, e2][1..] == [e1, e2] && [e1, e2][1..] == [e2] && [e2][1..] == [];
    assert PossibleRun(w2, [e2], {}) && After(w2, [e2], {}) == w3;
    assert PossibleRun(w1, [e1, e2], {}) && After(w1, [e1, e2], {}) == w3;
  }

  lemma KeyedAfter(w: World, e: Event)
    requires Keyed(w.subs) && IsJob(e) && Possible(w, e)
    ensures Keyed(Occur(w, e, {}).subs)
  {
    hide RenewAll, WriteAll, Following, RenewalRequest, OrderColumn, AtOrBefore;
    match e
    case RenewalPass(now, rows, xs) =>
      RenewAllEffect(w, rows, xs);
      forall id | id in RenewAll(w, rows, xs).subs
        ensures RenewAll(w, rows, xs).subs[id].id == id
      {
        if Lists(rows, id) {
          var i :| 0 <= i < |rows| && rows[i].id == id;
        }
      }
    case TrialPass(_, rows, xs) => WriteAllEffect(w.subs, rows, Active, xs);
    case GracePass(_, rows, xs) => WriteAllEffect(w.subs, rows, Expired, xs);
  }
}
