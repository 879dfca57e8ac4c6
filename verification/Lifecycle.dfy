/** The lifecycle jobs without interleaving: what one pass does to the tables and the provider, for
    every way its database statements and provider calls can turn out. */
module Lifecycle {
  import opened Calendar
  import opened RenewalKeys
  import opened Domain

  /** How a database write turns out: done, done with its reply lost, or not done. */
  datatype Write = Written | WrittenUnheard | NotWritten

  /** How a provider call turns out; `made` is the charge the provider makes if the key is new. */
  datatype Answer = Answered(made: Charge) | AnswerLost(made: Charge) | Unreached

  /** Everything outside the runner's control during one renewal, the provider's configuration first. */
  datatype Weather = Weather(
    config: Option<map<string, string>>, answer: Answer, insert: Write, fetched: bool, advance: Write, mark: Write)

  datatype World = World(subs: Subscriptions, payments: Payments, charges: Charges)

  /** What CreatePayment returns: the row, and whether this call created it. */
  datatype PaymentResult = Paid(payment: Payment, created: bool) | PaymentFailed

  function AfterCharge(w: World, req: Request, answer: Answer): World {
    if answer.Unreached? then w else w.(charges := Processed(w.charges, req, answer.made))
  }

  /** The outcome of the insert, for a call whose charge has arrived: the row is inserted, or the one
      already there is fetched. */
  function AfterRecord(w: World, req: Request, charge: Charge, x: Weather): (World, PaymentResult) {
    var row := PaymentRow(req, charge);
    var pk := PaymentKeyOf(req);
    if x.insert.NotWritten? || (pk !in w.payments && req.subscriptionId !in w.subs) then (w, PaymentFailed)
    else
      var w2 := w.(payments := InsertedPayment(w.payments, row));
      if x.insert.WrittenUnheard? then (w2, PaymentFailed)
      else if pk !in w.payments then (w2, Paid(row, true))
      else if x.fetched then (w2, Paid(w.payments[pk], false))
      else (w2, PaymentFailed)
  }

  /** CreatePayment: validate, charge first, then record. A call without a configuration has no settings
      to check. */
  function CreatePayment(w: World, req: Request, x: Weather): (World, PaymentResult) {
    if !ValidRequest(req) || (x.config.Some? && !ValidConfig(x.config.value)) then (w, PaymentFailed)
    else
      var w1 := AfterCharge(w, req, x.answer);
      if !x.answer.Answered? then (w1, PaymentFailed)
      else AfterRecord(w1, req, w1.charges[ChargeKeyOf(req)], x)
  }

  function AfterStatus(subs: Subscriptions, id: Uuid, status: Status, x: Write): Subscriptions {
    if x.NotWritten? then subs else WithStatus(subs, id, status)
  }

  function Following(row: Subscription): Instant {
    NextPeriodEnd(row.periodEnd, row.interval, row.intervalCount)
  }

  /** What a renewal does once its CreatePayment call has ended. */
  function Settled(w: World, row: Subscription, result: PaymentResult, x: Weather): World {
    if result.PaymentFailed? then w.(subs := AfterStatus(w.subs, row.id, PastDue, x.mark))
    else if x.advance.NotWritten? then w
    else w.(subs := WithPeriod(w.subs, row.id, row.periodEnd, Following(row)))
  }

  /** One listed row: charge it and advance its period, or mark it past_due. Without a configuration for
      its provider no charge is tried. */
  function RenewOne(w: World, row: Subscription, x: Weather): World {
    var (w1, result) := if x.config.Some? && row.providerName != "" then CreatePayment(w, RenewalRequest(row), x)
                        else (w, PaymentFailed);
    Settled(w1, row, result, x)
  }

  function RenewAll(w: World, rows: seq<Subscription>, xs: seq<Weather>): World
    requires |xs| == |rows|
    decreases |rows|
  {
    if rows == [] then w else RenewAll(RenewOne(w, rows[0], xs[0]), rows[1..], xs[1..])
  }

  /** The trial and grace jobs: write one status for every listed row. */
  function WriteAll(subs: Subscriptions, rows: seq<Subscription>, status: Status, xs: seq<Write>): Subscriptions
    requires |xs| == |rows|
    decreases |rows|
  {
    if rows == [] then subs else WriteAll(AfterStatus(subs, rows[0].id, status, xs[0]), rows[1..], status, xs[1..])
  }

  // ----- One renewal -----

  /** A row with its period moved on. */
  function NextRow(row: Subscription): Subscription {
    row.(periodStart := row.periodEnd, periodEnd := Following(row))
  }

  predicate MarkedPastDue(before: Subscription, after: Subscription) {
    after == before.(status := PastDue)
  }

  /** A renewal touches its own row, its own payment key and its own charge key; it moves the period
      only past a period that has its payment row. */
  ghost predicate RenewalEffect(w: World, w': World, row: Subscription) {
    RowEffect(w.subs, w'.subs, w'.payments, row) && LedgerEffect(w, w', RenewalRequest(row))
  }

  ghost predicate RowEffect(subs: Subscriptions, subs': Subscriptions, payments: Payments, row: Subscription) {
    && subs'.Keys == subs.Keys
    && (forall id <- subs :: id != row.id ==> subs'[id] == subs[id])
    && (row.id in subs && subs[row.id] == row ==> RenewedRow(row, subs'[row.id], payments))
  }

  /** What a renewal may leave of its row. */
  ghost predicate RenewedRow(row: Subscription, after: Subscription, payments: Payments) {
    || after == row
    || MarkedPastDue(row, after)
    || (after == NextRow(row) && PaymentKeyOf(RenewalRequest(row)) in payments)
  }

  ghost predicate LedgerEffect(w: World, w': World, req: Request) {
    var pk := PaymentKeyOf(req);
    var ck := ChargeKeyOf(req);
    && (forall k <- w'.payments :: k in w.payments || k == pk)
    && (forall k <- w.payments :: k in w'.payments && w'.payments[k] == w.payments[k])
    && (forall k <- w'.charges :: k in w.charges || k == ck)
    && (forall k <- w.charges :: k in w'.charges && w'.charges[k] == w.charges[k])
    && (pk in w'.payments && pk !in w.payments ==> ck in w'.charges && w'.payments[pk].chargeId == w'.charges[ck].id)
  }

  /** CreatePayment leaves the subscriptions alone, adds at most one row and one charge under its own
      keys, names that charge on the row, and returns the row the table holds, created exactly when
      it was not there before. */
  lemma CreatePaymentEffect(w: World, req: Request, x: Weather)
    ensures var (w', result) := CreatePayment(w, req, x);
            var pk := PaymentKeyOf(req);
            && w'.subs == w.subs
            && LedgerEffect(w, w', req)
            && (result.Paid? ==>
                  pk in w'.payments && w'.payments[pk] == result.payment && (result.created <==> pk !in w.payments))
  {
    hide ConvertChargeStatus;
  }

  /** What a CreatePayment call that created its row returned and recorded: the columns of its request, the id of
      the charge under its key, and the status of that charge, where an unknown one counts as pending. */
  lemma CreatePaymentRecords(w: World, req: Request, x: Weather)
    ensures var (w', result) := CreatePayment(w, req, x);
            var ck := ChargeKey(req.tenant, req.providerName, req.key);
            result.Paid? && result.created ==>
              var row := result.payment;
              var pk := PaymentKey(req.tenant, req.key);
              && pk in w'.payments && w'.payments[pk] == row
              && row.tenant == req.tenant && row.subscriptionId == req.subscriptionId && row.key == req.key
              && row.providerName == req.providerName && row.amount == req.amount && row.currency == req.currency
              && ck in w'.charges && row.chargeId == w'.charges[ck].id
              && (row.status == Succeeded <==> w'.charges[ck].status == ChargeSucceeded)
              && (row.status == Failed <==> w'.charges[ck].status == ChargeFailed)
              && (row.status == Pending
                  <==> w'.charges[ck].status == ChargePending || w'.charges[ck].status == ChargeUnknown)
  {
    hide ValidRequest, ValidConfig;
  }

  /** Exactly when a CreatePayment call whose provider answers gets as far as a charge. */
  lemma CreatePaymentChargesIff(w: World, req: Request, x: Weather)
    requires x.answer.Answered? && ChargeKey(req.tenant, req.providerName, req.key) !in w.charges
    ensures ChargeKey(req.tenant, req.providerName, req.key) in CreatePayment(w, req, x).0.charges
            <==> && req.tenant != "00000000-0000-0000-0000-000000000000"
                 && !Blank(req.key) && !Blank(req.providerName) && req.amount > 0
                 && (req.currency == "" || SupportedCurrency(req.currency))
                 && (x.config.Some? ==> forall k <- x.config.value :: !Blank(k) && !Blank(x.config.value[k]))
  {
    hide Blank, SupportedCurrency, InsertedPayment, PaymentRow;
  }

  lemma MarkEffect(subs: Subscriptions, payments: Payments, row: Subscription, x: Write)
    ensures RowEffect(subs, AfterStatus(subs, row.id, PastDue, x), payments, row)
  {
    hide Following, RenewalRequest;
  }

  lemma AdvanceEffect(subs: Subscriptions, payments: Payments, row: Subscription)
    requires PaymentKeyOf(RenewalRequest(row)) in payments
    ensures RowEffect(subs, WithPeriod(subs, row.id, row.periodEnd, Following(row)), payments, row)
  {
    hide Following, RenewalRequest;
  }

  lemma RenewOneEffect(w: World, row: Subscription, x: Weather)
    ensures RenewalEffect(w, RenewOne(w, row, x), row)
  {
    hide CreatePayment, RenewalRequest, Following, RowEffect, AfterStatus, WithPeriod, LedgerEffect;
    CreatePaymentEffect(w, RenewalRequest(row), x);
    var paid := CreatePayment(w, RenewalRequest(row), x);
    MarkEffect(w.subs, w.payments, row, x.mark);
    MarkEffect(w.subs, paid.0.payments, row, x.mark);
    NoLedgerEffect(w, w.(subs := AfterStatus(w.subs, row.id, PastDue, x.mark)), RenewalRequest(row));
    SameLedger(w, paid.0, RenewOne(w, row, x), RenewalRequest(row));
    if paid.1.Paid? {
      AdvanceEffect(w.subs, paid.0.payments, row);
      UnmovedEffect(w.subs, paid.0.payments, row);
    }
  }

  lemma UnmovedEffect(subs: Subscriptions, payments: Payments, row: Subscription)
    ensures RowEffect(subs, subs, payments, row)
  {
  }

  lemma NoLedgerEffect(w: World, w': World, req: Request)
    requires w'.payments == w.payments && w'.charges == w.charges
    ensures LedgerEffect(w, w', req)
  {
  }

  lemma SameLedger(w: World, w1: World, w': World, req: Request)
    requires LedgerEffect(w, w1, req)
    ensures w'.payments == w1.payments && w'.charges == w1.charges ==> LedgerEffect(w, w', req)
  {
  }

  /** Nothing goes wrong in a renewal. */
  predicate AllGoesWell(x: Weather) {
    && x.config.Some? && ValidConfig(x.config.value)
    && x.answer.Answered? && x.insert.Written? && x.fetched && !x.advance.NotWritten?
  }

  /** A renewal in which nothing goes wrong leaves the payment row and moves the period, whether or not
      its charge or its row were there before. */
  lemma RenewalCompletes(w: World, row: Subscription, x: Weather)
    requires row.id in w.subs && w.subs[row.id] == row && AllGoesWell(x) && ValidRequest(RenewalRequest(row))
    ensures RenewOne(w, row, x).subs == w.subs[row.id := NextRow(row)]
    ensures PaymentKeyOf(RenewalRequest(row)) in RenewOne(w, row, x).payments
  {
    hide RenewalKey, Following, PaymentRow, CreatePayment;
    CreatePaymentEffect(w, RenewalRequest(row), x);
    PaysWhenAllGoesWell(w, RenewalRequest(row), x);
  }

  /** Nothing goes wrong, and still the payment may have failed: the period moves all the same. The payment
      is a failed one exactly if the row already there was, or else if the provider answered a failed charge. */
  lemma RenewalCompletesUnpaidIff(w: World, row: Subscription, x: Weather)
    requires row.id in w.subs && w.subs[row.id] == row && AllGoesWell(x) && ValidRequest(RenewalRequest(row))
    ensures var req := RenewalRequest(row);
            var pk := PaymentKeyOf(req);
            var w' := RenewOne(w, row, x);
            && w'.subs == w.subs[row.id := NextRow(row)] && pk in w'.payments
            && (w'.payments[pk].status == Failed <==>
                  if pk in w.payments then w.payments[pk].status == Failed
                  else AfterCharge(w, req, x.answer).charges[ChargeKeyOf(req)].status == ChargeFailed)
  {
    hide RenewalRequest, NextRow, ValidRequest, ValidConfig, Following, WithPeriod;
    RenewalCompletes(w, row, x);
    RowIsForRequest(row);
  }

  lemma RowIsForRequest(row: Subscription)
    ensures RenewalRequest(row).subscriptionId == row.id
  {
  }

  lemma PaysWhenAllGoesWell(w: World, req: Request, x: Weather)
    requires req.subscriptionId in w.subs && AllGoesWell(x) && ValidRequest(req)
    ensures CreatePayment(w, req, x).1.Paid?
  {
  }

  // ----- A whole pass -----

  /** Rows that are stored as listed: a snapshot nobody else has touched yet. */
  predicate Current(subs: Subscriptions, rows: seq<Subscription>) {
    forall i :: 0 <= i < |rows| ==> rows[i].id in subs && subs[rows[i].id] == rows[i]
  }

  lemma PageParts(subs: Subscriptions, q: Query, rows: seq<Subscription>)
    requires IsPage(subs, q, rows)
    ensures Distinct(rows) && Current(subs, rows)
    ensures forall row <- rows :: Selects(q, row)
    ensures |rows| == if |Selected(subs, q)| < PAGE then |Selected(subs, q)| else PAGE
  {
    hide Selects, OrderColumn;
  }

  lemma RestStaysCurrent(w: World, w': World, rows: seq<Subscription>)
    requires rows != [] && Distinct(rows) && Current(w.subs, rows) && RenewalEffect(w, w', rows[0])
    ensures Distinct(rows[1..]) && Current(w'.subs, rows[1..])
  {
    hide Following, RenewalRequest;
    forall i | 0 <= i < |rows[1..]|
      ensures rows[1..][i].id in w'.subs && w'.subs[rows[1..][i].id] == rows[1..][i]
    {
      assert rows[1..][i] == rows[i + 1];
    }
  }

  /** When an uninterleaved pass comes to a row, the row is still stored exactly as listed. */
  lemma {:induction false} RowReachedAsListed(w: World, rows: seq<Subscription>, xs: seq<Weather>, i: nat)
    requires |xs| == |rows| && i < |rows| && Distinct(rows) && Current(w.subs, rows)
    ensures rows[i].id in RenewAll(w, rows[..i], xs[..i]).subs
    ensures RenewAll(w, rows[..i], xs[..i]).subs[rows[i].id] == rows[i]
    decreases i
  {
    hide RenewOne, RenewalEffect, Distinct;
    if i == 0 {
    } else {
      var w' := RenewOne(w, rows[0], xs[0]);
      RenewOneEffect(w, rows[0], xs[0]);
      RestStaysCurrent(w, w', rows);
      RowReachedAsListed(w', rows[1..], xs[1..], i - 1);
      assert rows[..i][1..] == rows[1..][..i - 1] && xs[..i][1..] == xs[1..][..i - 1];
    }
  }

  /** What a pass over current rows does: listed rows are renewed as stored, all others are left alone,
      and every new payment row and charge belongs to a listed row. */
  ghost predicate PassEffect(w: World, w': World, rows: seq<Subscription>) {
    PassRows(w.subs, w'.subs, w'.payments, rows) && PassLedger(w, w', rows)
  }

  ghost predicate PassRows(subs: Subscriptions, subs': Subscriptions, payments: Payments, rows: seq<Subscription>) {
    && subs'.Keys == subs.Keys
    && (forall id <- subs :: !Lists(rows, id) ==> subs'[id] == subs[id])
    && (forall i :: 0 <= i < |rows| && rows[i].id in subs' ==> RenewedRow(rows[i], subs'[rows[i].id], payments))
  }

  ghost predicate PassLedger(w: World, w': World, rows: seq<Subscription>) {
    && (forall k <- w.payments :: k in w'.payments && w'.payments[k] == w.payments[k])
    && (forall k <- w.charges :: k in w'.charges && w'.charges[k] == w.charges[k])
    && (forall k <- w'.payments ::
          k in w.payments || exists i :: 0 <= i < |rows| && k == PaymentKeyOf(RenewalRequest(rows[i])))
    && (forall k <- w'.charges ::
          k in w.charges || exists i :: 0 <= i < |rows| && k == ChargeKeyOf(RenewalRequest(rows[i])))
  }

  lemma PassLedgerCons(w: World, w1: World, w': World, rows: seq<Subscription>)
    requires rows != [] && RenewalEffect(w, w1, rows[0]) && PassLedger(w1, w', rows[1..])
    ensures PassLedger(w, w', rows)
  {
    hide RenewalRequest, NextRow, MarkedPastDue;
    forall k | k in w'.payments
      ensures k in w.payments || exists i :: 0 <= i < |rows| && k == PaymentKeyOf(RenewalRequest(rows[i]))
    {
      if k !in w1.payments {
        var i :| 0 <= i < |rows[1..]| && k == PaymentKeyOf(RenewalRequest(rows[1..][i]));
        assert rows[i + 1] == rows[1..][i];
      } else if k !in w.payments {
        assert k == PaymentKeyOf(RenewalRequest(rows[0]));
      }
    }
    forall k | k in w'.charges
      ensures k in w.charges || exists i :: 0 <= i < |rows| && k == ChargeKeyOf(RenewalRequest(rows[i]))
    {
      if k !in w1.charges {
        var i :| 0 <= i < |rows[1..]| && k == ChargeKeyOf(RenewalRequest(rows[1..][i]));
        assert rows[i + 1] == rows[1..][i];
      } else if k !in w.charges {
        assert k == ChargeKeyOf(RenewalRequest(rows[0]));
      }
    }
  }

  lemma PassRowsCons(w: World, w1: World, w': World, rows: seq<Subscription>)
    requires rows != [] && Distinct(rows) && Current(w.subs, rows)
    requires RenewalEffect(w, w1, rows[0]) && PassRows(w1.subs, w'.subs, w'.payments, rows[1..])
    requires forall k <- w1.payments :: k in w'.payments
    ensures PassRows(w.subs, w'.subs, w'.payments, rows)
  {
    hide RenewalRequest, NextRow, MarkedPastDue, Lists;
    var row, rest := rows[0], rows[1..];
    assert rows == [row] + rest;
    NotListedAgain(rows);
    forall id | id in w.subs && !Lists(rows, id)
      ensures w'.subs[id] == w.subs[id]
    {
      ListsMore(row, rest, id);
    }
    forall i | 0 <= i < |rows| && rows[i].id in w'.subs
      ensures RenewedRow(rows[i], w'.subs[rows[i].id], w'.payments)
    {
      if i > 0 {
        assert rows[i] == rest[i - 1];
      }
    }
  }

  lemma NotListedAgain(rows: seq<Subscription>)
    requires rows != [] && Distinct(rows)
    ensures !Lists(rows[1..], rows[0].id)
  {
  }

  lemma PassLedgerKeeps(w: World, w': World, rows: seq<Subscription>)
    requires PassLedger(w, w', rows)
    ensures forall k <- w.payments :: k in w'.payments
  {
  }

  lemma {:induction false} RenewAllEffect(w: World, rows: seq<Subscription>, xs: seq<Weather>)
    requires |xs| == |rows| && Distinct(rows) && Current(w.subs, rows)
    ensures PassEffect(w, RenewAll(w, rows, xs), rows)
    decreases |rows|
  {
    hide RenewOne, RenewalEffect, Distinct, Following, RenewalRequest;
    if rows == [] {
    } else {
      var w1 := RenewOne(w, rows[0], xs[0]);
      RenewOneEffect(w, rows[0], xs[0]);
      RestStaysCurrent(w, w1, rows);
      RenewAllEffect(w1, rows[1..], xs[1..]);
      hide PassRows, PassLedger;
      assert forall k <- w1.payments :: k in RenewAll(w, rows, xs).payments by {
        PassLedgerKeeps(w1, RenewAll(w, rows, xs), rows[1..]);
      }
      PassRowsCons(w, w1, RenewAll(w, rows, xs), rows);
      PassLedgerCons(w, w1, RenewAll(w, rows, xs), rows);
    }
  }

  lemma {:induction false} ListedRowCompletes(w: World, rows: seq<Subscription>, xs: seq<Weather>, i: nat)
    requires |xs| == |rows| && i < |rows| && Distinct(rows) && Current(w.subs, rows)
    requires AllGoesWell(xs[i]) && ValidRequest(RenewalRequest(rows[i]))
    ensures var w' := RenewAll(w, rows, xs);
            && rows[i].id in w'.subs && w'.subs[rows[i].id] == NextRow(rows[i])
            && PaymentKeyOf(RenewalRequest(rows[i])) in w'.payments
    decreases i
  {
    hide RenewOne, RenewalEffect, Distinct, AllGoesWell, NextRow, RenewalRequest, ValidRequest;
    var w1 := RenewOne(w, rows[0], xs[0]);
    RenewOneEffect(w, rows[0], xs[0]);
    RestStaysCurrent(w, w1, rows);
    if i > 0 {
      ListedRowCompletes(w1, rows[1..], xs[1..], i - 1);
    } else {
      RenewalCompletes(w, rows[0], xs[0]);
      RenewAllEffect(w1, rows[1..], xs[1..]);
      NotListedAgain(rows);
    }
  }

  /** What a job works through: a page that answers its query, or nothing when the query fails. */
  predicate IsListing(subs: Subscriptions, q: Query, rows: seq<Subscription>) {
    rows == [] || IsPage(subs, q, rows)
  }

  /** An uninterleaved renewal pass charges, records and advances only subscriptions that are active,
      not flagged for cancellation and due at its clock reading, each as it is stored. */
  lemma PassOnlyTouchesDueRows(w: World, now: Instant, rows: seq<Subscription>, xs: seq<Weather>)
    requires IsListing(w.subs, DueForRenewal(now), rows) && |xs| == |rows|
    ensures var w' := RenewAll(w, rows, xs);
            && PassEffect(w, w', rows)
            && (forall id <- w.subs :: id in w'.subs && (w'.subs[id] != w.subs[id] ==>
                  w.subs[id].status == Active && !w.subs[id].cancelAtPeriodEnd
                  && AtOrBefore(w.subs[id].periodEnd, now)))
            && (forall k <- w'.charges :: k !in w.charges ==>
                  exists id ::
                    id in w.subs && Selects(DueForRenewal(now), w.subs[id])
                    && k == ChargeKeyOf(RenewalRequest(w.subs[id])))
  {
    hide RenewalRequest, Following, AtOrBefore, OrderColumn, RenewAll;
    RenewAllEffect(w, rows, xs);
    var w' := RenewAll(w, rows, xs);
    forall k | k in w'.charges && k !in w.charges
      ensures exists id ::
                id in w.subs && Selects(DueForRenewal(now), w.subs[id])
                && k == ChargeKeyOf(RenewalRequest(w.subs[id]))
    {
      var i :| 0 <= i < |rows| && k == ChargeKeyOf(RenewalRequest(rows[i]));
      assert rows[i].id in w.subs && w.subs[rows[i].id] == rows[i];
    }
  }

  // ----- Status jobs -----

  /** A status job rewrites the status column of the rows it listed, and nothing else. */
  ghost predicate StatusEffect(subs: Subscriptions, after: Subscriptions, rows: seq<Subscription>, status: Status) {
    && after.Keys == subs.Keys
    && forall id <- subs :: after[id] == subs[id] || (Lists(rows, id) && after[id] == subs[id].(status := status))
  }

  lemma StatusWritten(subs: Subscriptions, id: Uuid, status: Status, x: Write)
    ensures var after := AfterStatus(subs, id, status, x);
            after.Keys == subs.Keys
            && forall k <- subs :: after[k] == subs[k] || (k == id && after[k] == subs[k].(status := status))
  {
  }

  lemma StatusEffectCons(subs: Subscriptions, after: Subscriptions, rows: seq<Subscription>, status: Status, x: Write)
    requires rows != [] && StatusEffect(AfterStatus(subs, rows[0].id, status, x), after, rows[1..], status)
    ensures StatusEffect(subs, after, rows, status)
  {
    hide Lists, AfterStatus;
    assert rows == [rows[0]] + rows[1..];
    StatusWritten(subs, rows[0].id, status, x);
    forall id | id in subs
      ensures after[id] == subs[id] || (Lists(rows, id) && after[id] == subs[id].(status := status))
    {
      ListsMore(rows[0], rows[1..], id);
    }
  }

  lemma {:induction false} WriteAllEffect(subs: Subscriptions, rows: seq<Subscription>, status: Status, xs: seq<Write>)
    requires |xs| == |rows|
    ensures StatusEffect(subs, WriteAll(subs, rows, status, xs), rows, status)
    decreases |rows|
  {
    hide AfterStatus;
    if rows == [] {
    } else {
      WriteAllEffect(AfterStatus(subs, rows[0].id, status, xs[0]), rows[1..], status, xs[1..]);
      hide StatusEffect;
      StatusEffectCons(subs, WriteAll(subs, rows, status, xs), rows, status, xs[0]);
    }
  }
}
