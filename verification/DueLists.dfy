/** The three due lists in plain terms: who is on a page, in which order, and who may be missing from it. */
module DueLists {
  import opened Calendar
  import opened RenewalKeys
  import opened Domain

  /** An active subscription that is not flagged for cancellation and whose period has ended. */
  predicate IsDue(row: Subscription, now: Instant) {
    row.status == Active && !row.cancelAtPeriodEnd && AtOrBefore(row.periodEnd, now)
  }

  /** A trialing subscription whose trial has ended. */
  predicate TrialOver(row: Subscription, now: Instant) {
    row.status == Trialing && row.trialEndsAt.Some? && AtOrBefore(row.trialEndsAt.value, now)
  }

  /** A past_due subscription whose period ended before the grace period began. */
  predicate GraceOver(row: Subscription, graceEnd: Instant) {
    row.status == PastDue && AtOrBefore(row.periodEnd, graceEnd)
  }

  function IdsOf(rows: seq<Subscription>): set<Uuid> {
    set i | 0 <= i < |rows| :: rows[i].id
  }

  lemma {:induction false} DistinctIds(rows: seq<Subscription>)
    requires Distinct(rows)
    ensures |IdsOf(rows)| == |rows|
  {
    if rows == [] {
    } else {
      var last := rows[|rows| - 1];
      DistinctIds(rows[..|rows| - 1]);
      assert IdsOf(rows) == IdsOf(rows[..|rows| - 1]) + {last.id};
    }
  }

  /** A page that is not full lists every selected row. */
  lemma ShortPageIsComplete(subs: Subscriptions, q: Query, rows: seq<Subscription>, id: Uuid)
    requires IsPage(subs, q, rows) && id in subs && Selects(q, subs[id])
    ensures |rows| <= 100 && (|rows| < 100 || |Selected(subs, q)| <= 100 ==> Lists(rows, id))
  {
    hide Selects, OrderColumn, AtOrBefore;
    DistinctIds(rows);
    assert IdsOf(rows) <= Selected(subs, q);
    if |rows| == |Selected(subs, q)| {
      SameSize(IdsOf(rows), Selected(subs, q));
      assert id in IdsOf(rows);
    }
  }

  lemma SameSize(a: set<Uuid>, b: set<Uuid>)
    requires a <= b && |a| == |b|
    ensures a == b
  {
    assert b == a + (b - a);
  }

  lemma ListedRow(subs: Subscriptions, q: Query, rows: seq<Subscription>, id: Uuid, i: nat)
    requires IsPage(subs, q, rows) && i < |rows|
    ensures rows[i].id in subs && subs[rows[i].id] == rows[i] && Selects(q, rows[i])
    ensures id in subs && Selects(q, subs[id]) && !Lists(rows, id) ==>
              AtOrBefore(OrderColumn(q, rows[i]), OrderColumn(q, subs[id]))
    ensures forall j: nat :: i < j < |rows| ==> AtOrBefore(OrderColumn(q, rows[i]), OrderColumn(q, rows[j]))
  {
  }

  /** The renewal page: stored due rows by their period end, at most 100 of them; a due row that is missing
      comes after all of a full page. */
  lemma RenewalPage(subs: Subscriptions, now: Instant, rows: seq<Subscription>, i: nat, id: Uuid)
    requires IsPage(subs, DueForRenewal(now), rows) && i < |rows|
    ensures rows[i].id in subs && subs[rows[i].id] == rows[i] && IsDue(rows[i], now)
    ensures forall j: nat :: i < j < |rows| ==> AtOrBefore(rows[i].periodEnd, rows[j].periodEnd)
    ensures id in subs && IsDue(subs[id], now) && !Lists(rows, id) ==>
              |rows| == 100 && AtOrBefore(rows[i].periodEnd, subs[id].periodEnd)
  {
    hide AtOrBefore, IsPage;
    ListedRow(subs, DueForRenewal(now), rows, id, i);
    if id in subs && IsDue(subs[id], now) {
      ShortPageIsComplete(subs, DueForRenewal(now), rows, id);
    }
  }

  /** The trial page, by the end of the trial. */
  lemma TrialPage(subs: Subscriptions, now: Instant, rows: seq<Subscription>, i: nat, id: Uuid)
    requires IsPage(subs, ExpiredTrials(now), rows) && i < |rows|
    ensures rows[i].id in subs && subs[rows[i].id] == rows[i] && TrialOver(rows[i], now)
    ensures forall j: nat :: i < j < |rows| ==>
              rows[j].trialEndsAt.Some? && AtOrBefore(rows[i].trialEndsAt.value, rows[j].trialEndsAt.value)
    ensures id in subs && TrialOver(subs[id], now) && !Lists(rows, id) ==>
              |rows| == 100 && AtOrBefore(rows[i].trialEndsAt.value, subs[id].trialEndsAt.value)
  {
    hide AtOrBefore, IsPage;
    ListedRow(subs, ExpiredTrials(now), rows, id, i);
    forall j: nat | i < j < |rows|
      ensures rows[j].trialEndsAt.Some?
    {
      ListedRow(subs, ExpiredTrials(now), rows, id, j);
    }
    if id in subs && TrialOver(subs[id], now) {
      ShortPageIsComplete(subs, ExpiredTrials(now), rows, id);
    }
  }

  /** The grace page, by the period end. */
  lemma GracePage(subs: Subscriptions, graceEnd: Instant, rows: seq<Subscription>, i: nat, id: Uuid)
    requires IsPage(subs, PendingExpiry(graceEnd), rows) && i < |rows|
    ensures rows[i].id in subs && subs[rows[i].id] == rows[i] && GraceOver(rows[i], graceEnd)
    ensures forall j: nat :: i < j < |rows| ==> AtOrBefore(rows[i].periodEnd, rows[j].periodEnd)
    ensures id in subs && GraceOver(subs[id], graceEnd) && !Lists(rows, id) ==>
              |rows| == 100 && AtOrBefore(rows[i].periodEnd, subs[id].periodEnd)
  {
    hide AtOrBefore, IsPage;
    ListedRow(subs, PendingExpiry(graceEnd), rows, id, i);
    if id in subs && GraceOver(subs[id], graceEnd) {
      ShortPageIsComplete(subs, PendingExpiry(graceEnd), rows, id);
    }
  }

  /** A row is missing from an empty page only if it is not due. */
  lemma EmptyPages(subs: Subscriptions, at: Instant, id: Uuid)
    requires id in subs
    ensures IsPage(subs, DueForRenewal(at), []) ==> !IsDue(subs[id], at)
    ensures IsPage(subs, ExpiredTrials(at), []) ==> !TrialOver(subs[id], at)
    ensures IsPage(subs, PendingExpiry(at), []) ==> !GraceOver(subs[id], at)
  {
    hide AtOrBefore, IsPage;
    forall q: Query | IsPage(subs, q, []) && Selects(q, subs[id])
      ensures false
    {
      ShortPageIsComplete(subs, q, [], id);
    }
  }
}
