/** Progress of the renewal job: with the clock standing still and the database accepting writes,
    repeated passes run out of due subscriptions. */
module CatchUp {
  import opened Calendar
  import opened RenewalKeys
  import opened Domain
  import opened Lifecycle
  import opened DueLists

  /** How many period ends a row still has up to now, counted from its stored one on. */
  function Outstanding(row: Subscription, now: Instant): nat
    requires row.intervalCount >= 1
    decreases if now.day < row.periodEnd.day then 0 else now.day - row.periodEnd.day + 1
  {
    StepMovesDate(row.periodEnd, row.interval, row.intervalCount);
    if AtOrBefore(row.periodEnd, now) then 1 + Outstanding(NextRow(row), now) else 0
  }

  /** What a due row owes if its periods move forward; every other row owes nothing. */
  function Owed(row: Subscription, now: Instant): nat {
    if Selects(DueForRenewal(now), row) && row.intervalCount >= 1 then Outstanding(row, now) else 0
  }

  /** Every due subscription has periods that move forward. */
  predicate PositiveCounts(subs: Subscriptions, now: Instant) {
    forall id <- subs :: Selects(DueForRenewal(now), subs[id]) ==> subs[id].intervalCount >= 1
  }

  /** The outstanding period ends of a set of subscriptions, added up. */
  ghost function Total(subs: Subscriptions, ids: set<Uuid>, now: Instant): nat
    requires ids <= subs.Keys
    decreases |ids|
  {
    if ids == {} then 0
    else
      var id :| id in ids;
      Owed(subs[id], now) + Total(subs, ids - {id}, now)
  }

  lemma {:induction false} TotalSplit(subs: Subscriptions, ids: set<Uuid>, now: Instant, x: Uuid)
    requires ids <= subs.Keys && x in ids
    ensures Total(subs, ids, now) == Owed(subs[x], now) + Total(subs, ids - {x}, now)
    decreases |ids|
  {
    hide Owed;
    var id :| id in ids && Total(subs, ids, now) == Owed(subs[id], now) + Total(subs, ids - {id}, now);
    if id != x {
      TotalSplit(subs, ids - {id}, now, x);
      TotalSplit(subs, ids - {x}, now, id);
      assert ids - {id} - {x} == ids - {x} - {id};
    }
  }

  lemma {:induction false} TotalSame(subs: Subscriptions, subs': Subscriptions, ids: set<Uuid>, now: Instant)
    requires ids <= subs.Keys && ids <= subs'.Keys
    requires forall id <- ids :: subs[id] == subs'[id]
    ensures Total(subs, ids, now) == Total(subs', ids, now)
    decreases |ids|
  {
    hide Owed;
    if ids == {} {
    } else {
      var id :| id in ids;
      TotalSplit(subs, ids, now, id);
      TotalSplit(subs', ids, now, id);
      TotalSame(subs, subs', ids - {id}, now);
    }
  }

  lemma {:induction false} NothingOwed(subs: Subscriptions, ids: set<Uuid>, now: Instant)
    requires PositiveCounts(subs, now) && ids <= subs.Keys && Total(subs, ids, now) == 0
    ensures forall id <- ids :: !Selects(DueForRenewal(now), subs[id])
  {
    forall id | id in ids
      ensures !Selects(DueForRenewal(now), subs[id])
    {
      TotalSplit(subs, ids, now, id);
    }
  }

  // ----- One pass -----

  /** The period and status updates reach the database, heard of or not. */
  predicate WritesLand(x: Weather) {
    !x.advance.NotWritten? && !x.mark.NotWritten?
  }

  lemma RenewalSettlesRow(w: World, row: Subscription, x: Weather)
    requires row.id in w.subs && w.subs[row.id] == row && WritesLand(x)
    ensures var after := RenewOne(w, row, x).subs;
            row.id in after && (after[row.id] == NextRow(row) || after[row.id] == row.(status := PastDue))
  {
    hide CreatePayment, RenewalRequest, Following;
    CreatePaymentEffect(w, RenewalRequest(row), x);
  }

  lemma RowLowers(row: Subscription, after: Subscription, now: Instant)
    requires row.intervalCount >= 1 && Selects(DueForRenewal(now), row)
    requires after == NextRow(row) || after == row.(status := PastDue)
    ensures after.intervalCount >= 1 && Owed(after, now) + 1 <= Owed(row, now)
  {
    hide Following, AtOrBefore;
  }

  lemma RenewalLowers(w: World, row: Subscription, x: Weather, now: Instant)
    requires PositiveCounts(w.subs, now) && row.id in w.subs && w.subs[row.id] == row
    requires Selects(DueForRenewal(now), row) && WritesLand(x)
    ensures var w' := RenewOne(w, row, x);
            && w'.subs.Keys == w.subs.Keys && PositiveCounts(w'.subs, now)
            && Total(w'.subs, w'.subs.Keys, now) + 1 <= Total(w.subs, w.subs.Keys, now)
  {
    hide RenewOne, Owed, Selects, RenewedRow;
    var w' := RenewOne(w, row, x);
    RenewOneEffect(w, row, x);
    RenewalSettlesRow(w, row, x);
    RowLowers(row, w'.subs[row.id], now);
    TotalSplit(w.subs, w.subs.Keys, now, row.id);
    TotalSplit(w'.subs, w'.subs.Keys, now, row.id);
    TotalSame(w.subs, w'.subs, w.subs.Keys - {row.id}, now);
  }

  lemma {:induction false} RowsLower(w: World, rows: seq<Subscription>, xs: seq<Weather>, now: Instant)
    requires PositiveCounts(w.subs, now) && |xs| == |rows| && Distinct(rows) && Current(w.subs, rows)
    requires forall row <- rows :: Selects(DueForRenewal(now), row)
    requires forall x <- xs :: WritesLand(x)
    ensures var w' := RenewAll(w, rows, xs);
            && w'.subs.Keys == w.subs.Keys && PositiveCounts(w'.subs, now)
            && Total(w'.subs, w'.subs.Keys, now) + |rows| <= Total(w.subs, w.subs.Keys, now)
    decreases |rows|
  {
    hide RenewOne, Selects, WritesLand, PositiveCounts, Distinct, RenewalEffect;
    if rows == [] {
    } else {
      var w1 := RenewOne(w, rows[0], xs[0]);
      RenewOneEffect(w, rows[0], xs[0]);
      RestStaysCurrent(w, w1, rows);
      RenewalLowers(w, rows[0], xs[0], now);
      RowsLower(w1, rows[1..], xs[1..], now);
    }
  }

  /** Each pass lowers the outstanding total by at least the number of due subscriptions, or by 100
      when there are more. */
  lemma PassLowers(w: World, now: Instant, rows: seq<Subscription>, xs: seq<Weather>)
    requires PositiveCounts(w.subs, now) && IsPage(w.subs, DueForRenewal(now), rows) && |xs| == |rows|
    requires forall x <- xs :: WritesLand(x)
    ensures var w' := RenewAll(w, rows, xs);
            var due := |Selected(w.subs, DueForRenewal(now))|;
            && w'.subs.Keys == w.subs.Keys && PositiveCounts(w'.subs, now)
            && Total(w'.subs, w'.subs.Keys, now) + (if due < PAGE then due else PAGE) <= Total(w.subs, w.subs.Keys, now)
  {
    hide RenewAll, WritesLand, PositiveCounts, Total, Selects, IsPage, Distinct, Current, Selected;
    PageParts(w.subs, DueForRenewal(now), rows);
    RowsLower(w, rows, xs, now);
  }

  /** A pass in which nothing goes wrong, over no more than a page of due subscriptions: it advances exactly the
      due ones, each by one period, leaves a payment for each of those periods, and changes no other row. */
  lemma DueRowsAdvance(w: World, now: Instant, rows: seq<Subscription>, xs: seq<Weather>, id: Uuid)
    requires IsPage(w.subs, DueForRenewal(now), rows) && |Selected(w.subs, DueForRenewal(now))| <= 100
    requires |xs| == |rows|
    requires forall i :: 0 <= i < |rows| ==> AllGoesWell(xs[i]) && ValidRequest(RenewalRequest(rows[i]))
    requires id in w.subs
    ensures var w' := RenewAll(w, rows, xs);
            var row := w.subs[id];
            id in w'.subs
            && if row.status == Active && !row.cancelAtPeriodEnd && AtOrBefore(row.periodEnd, now) then
                 w'.subs[id] == row.(periodStart := row.periodEnd,
                                     periodEnd := NextPeriodEnd(row.periodEnd, row.interval, row.intervalCount))
                 && PaymentKey(row.tenant, RenewalKey(row.key, row.periodEnd)) in w'.payments
               else w'.subs[id] == row
  {
    hide RenewAll, AllGoesWell, ValidRequest, IsPage, Distinct, Current, AtOrBefore, RenewalKey, NextPeriodEnd, Lists;
    PageParts(w.subs, DueForRenewal(now), rows);
    RenewAllEffect(w, rows, xs);
    if IsDue(w.subs[id], now) {
      ShortPageIsComplete(w.subs, DueForRenewal(now), rows, id);
      var i := IndexOf(rows, id);
      RenewalPage(w.subs, now, rows, i, id);
      ListedRowCompletes(w, rows, xs, i);
    } else if Lists(rows, id) {
      var i := IndexOf(rows, id);
      RenewalPage(w.subs, now, rows, i, id);
    }
  }

  lemma IndexOf(rows: seq<Subscription>, id: Uuid) returns (i: nat)
    requires Lists(rows, id)
    ensures i < |rows| && rows[i].id == id
  {
    i :| i < |rows| && rows[i].id == id;
  }

  /** What the outstanding total counts: the period ends of a due row up to now. */
  lemma {:induction false} OutstandingCounts(row: Subscription, now: Instant, k: nat)
    requires row.intervalCount >= 1
    ensures AtOrBefore(Period(row.periodEnd, row.interval, row.intervalCount, k), now) <==> k < Outstanding(row, now)
    decreases k
  {
    hide NextPeriodEnd;
    if k == 0 {
    } else {
      PeriodAfterFirst(row.periodEnd, row.interval, row.intervalCount, k);
      OutstandingCounts(NextRow(row), now, k - 1);
      if !AtOrBefore(row.periodEnd, now) {
        PeriodsMonotone(row.periodEnd, row.interval, row.intervalCount, 0, k);
      }
    }
  }

  /** The k-th period end of a row is the one before it of the next row. */
  lemma {:induction false} PeriodAfterFirst(anchor: Instant, interval: string, count: int, k: nat)
    requires k > 0
    ensures Period(anchor, interval, count, k) == Period(NextPeriodEnd(anchor, interval, count), interval, count, k - 1)
  {
    hide NextPeriodEnd;
    if k == 1 {
      assert Period(anchor, interval, count, 1) == NextPeriodEnd(Period(anchor, interval, count, 0), interval, count);
    } else {
      PeriodAfterFirst(anchor, interval, count, k - 1);
    }
  }

  // ----- Repeated passes -----

  datatype Pass = Pass(rows: seq<Subscription>, weather: seq<Weather>)

  /** Passes that all read the same clock, each over the page its query returned. */
  predicate PossiblePasses(w: World, now: Instant, passes: seq<Pass>)
    decreases |passes|
  {
    passes != [] ==>
      var p := passes[0];
      && IsPage(w.subs, DueForRenewal(now), p.rows) && |p.weather| == |p.rows|
      && PossiblePasses(RenewAll(w, p.rows, p.weather), now, passes[1..])
  }

  function AfterPasses(w: World, now: Instant, passes: seq<Pass>): World
    requires PossiblePasses(w, now, passes)
    decreases |passes|
  {
    if passes == [] then w else AfterPasses(RenewAll(w, passes[0].rows, passes[0].weather), now, passes[1..])
  }

  lemma {:induction false} PassesLower(w: World, now: Instant, passes: seq<Pass>)
    requires PositiveCounts(w.subs, now) && PossiblePasses(w, now, passes)
    requires forall p <- passes, x <- p.weather :: WritesLand(x)
    ensures var w' := AfterPasses(w, now, passes);
            && PositiveCounts(w'.subs, now)
            && (Selected(w'.subs, DueForRenewal(now)) == {}
                || Total(w'.subs, w'.subs.Keys, now) + |passes| <= Total(w.subs, w.subs.Keys, now))
    decreases |passes|
  {
    hide RenewAll, WritesLand, PositiveCounts, Selects;
    if passes == [] {
    } else {
      var p := passes[0];
      assert p in passes;
      PassLowers(w, now, p.rows, p.weather);
      var w1 := RenewAll(w, p.rows, p.weather);
      PassesLower(w1, now, passes[1..]);
      if Selected(w.subs, DueForRenewal(now)) == {} {
        assert p.rows == [];
        NoRowsNoChange(w, p.weather);
        NothingDueStays(w, now, passes);
      }
    }
  }

  lemma NoRowsNoChange(w: World, xs: seq<Weather>)
    requires xs == []
    ensures RenewAll(w, [], xs) == w
  {
  }

  lemma {:induction false} NothingDueStays(w: World, now: Instant, passes: seq<Pass>)
    requires PossiblePasses(w, now, passes) && Selected(w.subs, DueForRenewal(now)) == {}
    ensures AfterPasses(w, now, passes) == w
    decreases |passes|
  {
    hide Selects;
    if passes == [] {
    } else {
      assert passes[0].rows == [];
      NothingDueStays(w, now, passes[1..]);
    }
  }

  /** Repeating the renewal job at one clock reading terminates: after as many passes as there are
      outstanding period ends, nothing is due. */
  lemma RenewalsCatchUp(w: World, now: Instant, passes: seq<Pass>)
    requires PositiveCounts(w.subs, now) && PossiblePasses(w, now, passes)
    requires forall p <- passes, x <- p.weather :: WritesLand(x)
    requires |passes| >= Total(w.subs, w.subs.Keys, now)
    ensures Selected(AfterPasses(w, now, passes).subs, DueForRenewal(now)) == {}
  {
    hide PossiblePasses, AfterPasses, Selects, WritesLand, PositiveCounts;
    PassesLower(w, now, passes);
    var subs := AfterPasses(w, now, passes).subs;
    if Total(subs, subs.Keys, now) == 0 {
      NothingOwed(subs, subs.Keys, now);
    }
  }

  // ----- Counts that are not positive -----

  /** A renewal in which nothing goes wrong, of a row that CreatePayment does not refuse. */
  predicate Renews(row: Subscription, x: Weather) {
    AllGoesWell(x) && ValidRequest(RenewalRequest(row))
  }

  lemma RenewalKeepsDue(w: World, row: Subscription, x: Weather, now: Instant, id: Uuid)
    requires row.id in w.subs && w.subs[row.id] == row && (row.id == id ==> Renews(row, x))
    requires id in w.subs && Selects(DueForRenewal(now), w.subs[id]) && w.subs[id].intervalCount < 1
    ensures var after := RenewOne(w, row, x).subs;
            id in after && Selects(DueForRenewal(now), after[id]) && after[id].intervalCount < 1
  {
    hide RenewOne, AllGoesWell, ValidRequest, RenewalRequest, NextPeriodEnd, LedgerEffect;
    RenewOneEffect(w, row, x);
    if row.id == id {
      RenewalCompletes(w, row, x);
      StepMovesDate(row.periodEnd, row.interval, row.intervalCount);
    }
  }

  lemma {:induction false} PassKeepsDue(w: World, rows: seq<Subscription>, xs: seq<Weather>, now: Instant, id: Uuid)
    requires |xs| == |rows| && Distinct(rows) && Current(w.subs, rows)
    requires id in w.subs && Selects(DueForRenewal(now), w.subs[id]) && w.subs[id].intervalCount < 1
    requires forall i :: 0 <= i < |rows| && rows[i].id == id ==> Renews(rows[i], xs[i])
    ensures var after := RenewAll(w, rows, xs).subs;
            id in after && Selects(DueForRenewal(now), after[id]) && after[id].intervalCount < 1
    decreases |rows|
  {
    hide RenewOne, Renews, Selects, RenewalEffect, Distinct;
    if rows == [] {
    } else {
      RenewOneEffect(w, rows[0], xs[0]);
      RenewalKeepsDue(w, rows[0], xs[0], now, id);
      RestStaysCurrent(w, RenewOne(w, rows[0], xs[0]), rows);
      PassKeepsDue(RenewOne(w, rows[0], xs[0]), rows[1..], xs[1..], now, id);
    }
  }

  /** A due subscription whose count is not positive, as a plan may have it, stays due through every pass
      in which its own renewal goes well; the other renewals may fail. */
  lemma {:induction false} NegativeCountNeverCatchesUp(w: World, now: Instant, passes: seq<Pass>, id: Uuid)
    requires PossiblePasses(w, now, passes)
    requires id in w.subs && Selects(DueForRenewal(now), w.subs[id]) && w.subs[id].intervalCount < 1
    requires forall p <- passes, i :: 0 <= i < |p.rows| && i < |p.weather| && p.rows[i].id == id ==>
               Renews(p.rows[i], p.weather[i])
    ensures id in Selected(AfterPasses(w, now, passes).subs, DueForRenewal(now))
    decreases |passes|
  {
    hide RenewAll, Renews, Selects, IsPage;
    if passes == [] {
    } else {
      var p := passes[0];
      assert p in passes;
      PageParts(w.subs, DueForRenewal(now), p.rows);
      PassKeepsDue(w, p.rows, p.weather, now, id);
      NegativeCountNeverCatchesUp(RenewAll(w, p.rows, p.weather), now, passes[1..], id);
    }
  }

  /** Exactly when repeating the renewal job catches up: all due subscriptions have a positive count. What
      rows that are not due have does not matter, nor which renewals of rows with a positive count fail. */
  lemma CatchesUpIff(w: World, now: Instant, passes: seq<Pass>)
    requires PossiblePasses(w, now, passes) && |passes| >= Total(w.subs, w.subs.Keys, now)
    requires forall p <- passes, x <- p.weather :: WritesLand(x)
    requires forall p <- passes, i :: 0 <= i < |p.rows| && i < |p.weather| && p.rows[i].intervalCount < 1 ==>
               Renews(p.rows[i], p.weather[i])
    ensures Selected(AfterPasses(w, now, passes).subs, DueForRenewal(now)) == {} <==> PositiveCounts(w.subs, now)
  {
    hide AfterPasses, Selects, WritesLand, Renews, Total;
    if PositiveCounts(w.subs, now) {
      RenewalsCatchUp(w, now, passes);
    } else {
      var id :| id in w.subs && Selects(DueForRenewal(now), w.subs[id]) && w.subs[id].intervalCount < 1;
      RowKeepsCount(w, now, passes, id);
      NegativeCountNeverCatchesUp(w, now, passes, id);
    }
  }

  /** The count column of a row is the same in every page that lists it. */
  lemma {:induction false} RowKeepsCount(w: World, now: Instant, passes: seq<Pass>, id: Uuid)
    requires PossiblePasses(w, now, passes) && id in w.subs
    ensures forall p <- passes, row <- p.rows :: row.id == id ==> row.intervalCount == w.subs[id].intervalCount
    decreases |passes|
  {
    hide RenewAll, Selects, IsPage, Distinct;
    if passes == [] {
    } else {
      var p := passes[0];
      var w1 := RenewAll(w, p.rows, p.weather);
      PageParts(w.subs, DueForRenewal(now), p.rows);
      RenewAllEffect(w, p.rows, p.weather);
      PassKeepsCount(w, w1, p.rows, id);
      RowKeepsCount(w1, now, passes[1..], id);
    }
  }

  lemma PassKeepsCount(w: World, w1: World, rows: seq<Subscription>, id: Uuid)
    requires Current(w.subs, rows) && PassRows(w.subs, w1.subs, w1.payments, rows) && id in w.subs
    ensures id in w1.subs && w1.subs[id].intervalCount == w.subs[id].intervalCount
  {
    hide Following, RenewalRequest;
    if Lists(rows, id) {
      var i :| 0 <= i < |rows| && rows[i].id == id;
    }
  }
}
