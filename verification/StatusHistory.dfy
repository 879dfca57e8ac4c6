/** Subscription statuses over whole runs of uninterleaved job passes and API calls. */
module StatusHistory {
  import opened Calendar
  import opened RenewalKeys
  import opened Domain
  import opened Lifecycle
  import opened DueLists

  /** A job pass with the rows its list query returned (none when the query failed) and the outcomes of
      its statements, or an API call. */
  datatype Event =
    | RenewalPass(now: Instant, rows: seq<Subscription>, weather: seq<Weather>)
    | TrialPass(now: Instant, rows: seq<Subscription>, writes: seq<Write>)
    | GracePass(graceEnd: Instant, rows: seq<Subscription>, writes: seq<Write>)
    | CancelCall(id: Uuid, atPeriodEnd: bool)
    | PatchCall(id: Uuid, patch: Patch)
    | CreateCall(row: Subscription)

  predicate IsJob(e: Event) {
    e.RenewalPass? || e.TrialPass? || e.GracePass?
  }

  predicate Possible(w: World, e: Event) {
    match e
    case RenewalPass(now, rows, xs) => IsListing(w.subs, DueForRenewal(now), rows) && |xs| == |rows|
    case TrialPass(now, rows, xs) => IsListing(w.subs, ExpiredTrials(now), rows) && |xs| == |rows|
    case GracePass(graceEnd, rows, xs) => IsListing(w.subs, PendingExpiry(graceEnd), rows) && |xs| == |rows|
    case CreateCall(row) => row.id !in w.subs && (row.status == Active || row.status == Trialing)
    case _ => true
  }

  function Occur(w: World, e: Event, payPerUse: set<string>): World
    requires Possible(w, e)
  {
    match e
    case RenewalPass(_, rows, xs) => RenewAll(w, rows, xs)
    case TrialPass(_, rows, xs) => w.(subs := WriteAll(w.subs, rows, Active, xs))
    case GracePass(_, rows, xs) => w.(subs := WriteAll(w.subs, rows, Expired, xs))
    case CancelCall(id, atPeriodEnd) => w.(subs := WithCancel(w.subs, id, atPeriodEnd))
    case PatchCall(id, patch) =>
      if id in w.subs && PatchAllowed(w.subs[id], patch, payPerUse) then w.(subs := WithPatch(w.subs, id, patch)) else w
    case CreateCall(row) => w.(subs := w.subs[row.id := row])
  }

  predicate PossibleRun(w: World, es: seq<Event>, payPerUse: set<string>)
    decreases |es|
  {
    es != [] ==> Possible(w, es[0]) && PossibleRun(Occur(w, es[0], payPerUse), es[1..], payPerUse)
  }

  function After(w: World, es: seq<Event>, payPerUse: set<string>): World
    requires PossibleRun(w, es, payPerUse)
    decreases |es|
  {
    if es == [] then w else After(Occur(w, es[0], payPerUse), es[1..], payPerUse)
  }

  // ----- One event -----

  /** The only status moves a job makes. */
  predicate JobMove(before: Status, after: Status) {
    after == before
    || (before == Trialing && after == Active)
    || (before == Active && after == PastDue)
    || (before == PastDue && after == Expired)
  }

  lemma ListedIsSelected(subs: Subscriptions, q: Query, rows: seq<Subscription>, id: Uuid)
    requires IsListing(subs, q, rows) && Lists(rows, id)
    ensures id in subs && Selects(q, subs[id])
  {
  }

  /** Every job pass keeps the set of subscriptions and moves statuses only trialing to active, active
      to past_due and past_due to expired; the period end moves only in a renewal pass and never
      together with the status. */
  lemma JobsMoveStatuses(w: World, e: Event, payPerUse: set<string>, id: Uuid)
    requires IsJob(e) && Possible(w, e) && id in w.subs
    ensures var w' := Occur(w, e, payPerUse);
            && id in w'.subs
            && JobMove(w.subs[id].status, w'.subs[id].status)
            && (w'.subs[id].status != w.subs[id].status ==> w'.subs[id].periodEnd == w.subs[id].periodEnd)
            && (w'.subs[id].periodEnd != w.subs[id].periodEnd ==> e.RenewalPass?)
  {
    hide RenewalRequest, Following, OrderColumn, AtOrBefore, RenewAll, WriteAll, Selected, IsListing, Lists;
    match e
    case RenewalPass(now, rows, xs) =>
      PassOnlyTouchesDueRows(w, now, rows, xs);
      if Lists(rows, id) { RenewedAs(w, now, rows, xs, id); }
    case TrialPass(now, rows, xs) =>
      WriteAllEffect(w.subs, rows, Active, xs);
      if Lists(rows, id) { ListedIsSelected(w.subs, ExpiredTrials(now), rows, id); }
    case GracePass(graceEnd, rows, xs) =>
      WriteAllEffect(w.subs, rows, Expired, xs);
      if Lists(rows, id) { ListedIsSelected(w.subs, PendingExpiry(graceEnd), rows, id); }
  }

  lemma RenewedAs(w: World, now: Instant, rows: seq<Subscription>, xs: seq<Weather>, id: Uuid)
    requires IsListing(w.subs, DueForRenewal(now), rows) && |xs| == |rows| && Lists(rows, id)
    ensures id in w.subs && w.subs[id].status == Active && !w.subs[id].cancelAtPeriodEnd
            && AtOrBefore(w.subs[id].periodEnd, now)
    ensures var after := RenewAll(w, rows, xs).subs;
            id in after && RenewedRow(w.subs[id], after[id], RenewAll(w, rows, xs).payments)
  {
    hide RenewalRequest, Following, OrderColumn, AtOrBefore, RenewAll, RenewedRow, PassLedger;
    var i :| 0 <= i < |rows| && rows[i].id == id;
    PassOnlyTouchesDueRows(w, now, rows, xs);
  }

  lemma {:induction false} WriteAllWrites(subs: Subscriptions, rows: seq<Subscription>, status: Status,
                                           xs: seq<Write>, id: Uuid)
    requires |xs| == |rows| && (forall x <- xs :: !x.NotWritten?) && id in subs
    ensures var after := WriteAll(subs, rows, status, xs);
            id in after && after[id] == if Lists(rows, id) then subs[id].(status := status) else subs[id]
    decreases |rows|
  {
    if rows == [] {
    } else {
      var after := AfterStatus(subs, rows[0].id, status, xs[0]);
      assert xs[0] in xs;
      WriteAllWrites(after, rows[1..], status, xs[1..], id);
      assert rows == [rows[0]] + rows[1..];
      ListsMore(rows[0], rows[1..], id);
    }
  }

  /** The trial job, if its writes reach the database and no more than a page is selected: it activates exactly
      the trialing subscriptions whose trial has ended by its clock reading, and changes nothing else. */
  lemma TrialJobActivates(subs: Subscriptions, now: Instant, rows: seq<Subscription>, xs: seq<Write>, id: Uuid)
    requires IsPage(subs, ExpiredTrials(now), rows) && |Selected(subs, ExpiredTrials(now))| <= 100
    requires |xs| == |rows| && (forall x <- xs :: !x.NotWritten?) && id in subs
    ensures var after := WriteAll(subs, rows, Active, xs);
            id in after
            && after[id] == if subs[id].status == Trialing && subs[id].trialEndsAt.Some?
                                && AtOrBefore(subs[id].trialEndsAt.value, now)
                            then subs[id].(status := Active) else subs[id]
    ensures Selected(WriteAll(subs, rows, Active, xs), ExpiredTrials(now)) == {}
  {
    hide WriteAll, IsPage, AtOrBefore, Lists;
    WriteAllEffect(subs, rows, Active, xs);
    forall other | other in subs
      ensures WriteAll(subs, rows, Active, xs)[other]
              == if TrialOver(subs[other], now) then subs[other].(status := Active) else subs[other]
    {
      WriteAllWrites(subs, rows, Active, xs, other);
      if TrialOver(subs[other], now) { ShortPageIsComplete(subs, ExpiredTrials(now), rows, other); }
      if Lists(rows, other) { ListedIsSelected(subs, ExpiredTrials(now), rows, other); }
    }
  }

  /** The grace job, likewise: it expires exactly the past_due subscriptions whose period ended by the given time. */
  lemma GraceJobExpires(subs: Subscriptions, graceEnd: Instant, rows: seq<Subscription>, xs: seq<Write>, id: Uuid)
    requires IsPage(subs, PendingExpiry(graceEnd), rows) && |Selected(subs, PendingExpiry(graceEnd))| <= 100
    requires |xs| == |rows| && (forall x <- xs :: !x.NotWritten?) && id in subs
    ensures var after := WriteAll(subs, rows, Expired, xs);
            id in after
            && after[id] == if subs[id].status == PastDue && AtOrBefore(subs[id].periodEnd, graceEnd)
                            then subs[id].(status := Expired) else subs[id]
    ensures Selected(WriteAll(subs, rows, Expired, xs), PendingExpiry(graceEnd)) == {}
  {
    hide WriteAll, IsPage, AtOrBefore, Lists;
    WriteAllEffect(subs, rows, Expired, xs);
    forall other | other in subs
      ensures WriteAll(subs, rows, Expired, xs)[other]
              == if GraceOver(subs[other], graceEnd) then subs[other].(status := Expired) else subs[other]
    {
      WriteAllWrites(subs, rows, Expired, xs, other);
      if GraceOver(subs[other], graceEnd) { ShortPageIsComplete(subs, PendingExpiry(graceEnd), rows, other); }
      if Lists(rows, other) { ListedIsSelected(subs, PendingExpiry(graceEnd), rows, other); }
    }
  }

  /** Whatever becomes of its writes and however many rows wait, a trial pass changes a status only where the
      trial has ended by its clock reading, and a grace pass only where the period ended by the given time. */
  lemma StatusPassesChangeOnlyDue(w: World, e: Event, payPerUse: set<string>, id: Uuid)
    requires (e.TrialPass? || e.GracePass?) && Possible(w, e) && id in w.subs
    ensures var w' := Occur(w, e, payPerUse);
            id in w'.subs && (w'.subs[id] != w.subs[id] ==>
              if e.TrialPass? then
                w.subs[id].status == Trialing && w.subs[id].trialEndsAt.Some?
                && AtOrBefore(w.subs[id].trialEndsAt.value, e.now) && w'.subs[id] == w.subs[id].(status := Active)
              else
                w.subs[id].status == PastDue && AtOrBefore(w.subs[id].periodEnd, e.graceEnd)
                && w'.subs[id] == w.subs[id].(status := Expired))
  {
    hide WriteAll, IsPage, AtOrBefore, Lists;
    if e.TrialPass? {
      WriteAllEffect(w.subs, e.rows, Active, e.writes);
      if Lists(e.rows, id) { ListedIsSelected(w.subs, ExpiredTrials(e.now), e.rows, id); }
    } else {
      WriteAllEffect(w.subs, e.rows, Expired, e.writes);
      if Lists(e.rows, id) { ListedIsSelected(w.subs, PendingExpiry(e.graceEnd), e.rows, id); }
    }
  }

  predicate Terminal(s: Status) {
    s == Canceled || s == Expired
  }

  predicate Reopens(w: World, e: Event, id: Uuid) {
    e.PatchCall? && e.id == id && e.patch.status == Some(PastDue) && id in w.subs && w.subs[id].status == Expired
  }

  lemma TerminalKept(w: World, e: Event, payPerUse: set<string>, id: Uuid)
    requires Possible(w, e) && id in w.subs && !Reopens(w, e, id)
    ensures var w' := Occur(w, e, payPerUse);
            id in w'.subs && (Terminal(w.subs[id].status) ==> Terminal(w'.subs[id].status))
  {
    hide RenewAll, WriteAll, IsListing;
    if IsJob(e) {
      JobsMoveStatuses(w, e, payPerUse, id);
    }
  }

  /** Over any run of passes and API calls, a subscription that was canceled or expired at one point
      and is neither at a later point was reopened in between by a PATCH from expired to past_due. */
  lemma {:induction false} TerminalLeftOnlyByReopening(w: World, es: seq<Event>, payPerUse: set<string>, id: Uuid)
      returns (i: nat)
    requires PossibleRun(w, es, payPerUse) && id in w.subs && Terminal(w.subs[id].status)
    requires id in After(w, es, payPerUse).subs ==> !Terminal(After(w, es, payPerUse).subs[id].status)
    ensures i < |es| && PossibleRun(w, es[..i], payPerUse) && Reopens(After(w, es[..i], payPerUse), es[i], id)
    decreases |es|
  {
    hide Occur, Terminal, Possible;
    if Reopens(w, es[0], id) {
      i := 0;
      assert es[..0] == [];
    } else {
      TerminalKept(w, es[0], payPerUse, id);
      var k := TerminalLeftOnlyByReopening(Occur(w, es[0], payPerUse), es[1..], payPerUse, id);
      i := k + 1;
      assert es[..i][1..] == es[1..][..k];
    }
  }

  /** validateStatusTransition lets a status through exactly if it keeps a terminal row terminal or is the one
      way back, from expired to past_due. */
  lemma TransitionAllowedIff(current: Status, next: Status)
    ensures TransitionAllowed(current, next)
            <==> (current == Canceled || current == Expired ==>
                    next == Canceled || next == Expired || (current == Expired && next == PastDue))
  {
  }

  /** What a PATCH does to the table: nothing unless the row is there, a new amount meets a pay-per-use provider
      and a new status is allowed; and then it writes the fields that are present and no other column. */
  lemma PatchWrites(w: World, id: Uuid, patch: Patch, payPerUse: set<string>)
    ensures var w' := Occur(w, PatchCall(id, patch), payPerUse);
            && w'.subs.Keys == w.subs.Keys
            && (forall other <- w.subs :: other != id ==> w'.subs[other] == w.subs[other])
            && w'.payments == w.payments && w'.charges == w.charges
            && (id in w.subs ==>
                  var row, after := w.subs[id], w'.subs[id];
                  if (patch.amount.Some? ==> row.providerName != "" && row.providerName in payPerUse)
                     && (patch.status.Some? ==> TransitionAllowed(row.status, patch.status.value)) then
                    && after.status == (if patch.status.Some? then patch.status.value else row.status)
                    && after.amount == (if patch.amount.Some? then patch.amount.value else row.amount)
                    && after.cancelAtPeriodEnd
                       == (if patch.cancelAtPeriodEnd.Some? then patch.cancelAtPeriodEnd.value
                           else row.cancelAtPeriodEnd)
                    && after == row.(status := after.status, amount := after.amount,
                                     cancelAtPeriodEnd := after.cancelAtPeriodEnd)
                  else after == row)
  {
  }

  /** An API call on the subscription. */
  predicate CallsOn(e: Event, id: Uuid) {
    (e.CancelCall? || e.PatchCall?) && e.id == id
  }

  lemma UntouchedRowStays(w: World, e: Event, payPerUse: set<string>, id: Uuid)
    requires Possible(w, e) && id in w.subs && !CallsOn(e, id)
    requires w.subs[id].cancelAtPeriodEnd || w.subs[id].status == Canceled
    ensures var w' := Occur(w, e, payPerUse);
            && id in w'.subs && w'.subs[id] == w.subs[id].(status := w'.subs[id].status)
            && (w'.subs[id].status == Canceled <==> w.subs[id].status == Canceled)
  {
    hide RenewalRequest, Following, OrderColumn, AtOrBefore, RenewAll, WriteAll, IsPage, Lists;
    if e.RenewalPass? {
      PassOnlyTouchesDueRows(w, e.now, e.rows, e.weather);
    } else if e.TrialPass? || e.GracePass? {
      StatusPassesChangeOnlyDue(w, e, payPerUse, id);
    }
  }

  lemma {:induction false} UntouchedRowsStay(w: World, es: seq<Event>, payPerUse: set<string>, id: Uuid)
    requires PossibleRun(w, es, payPerUse) && id in w.subs && forall e <- es :: !CallsOn(e, id)
    requires w.subs[id].cancelAtPeriodEnd || w.subs[id].status == Canceled
    ensures var w' := After(w, es, payPerUse);
            && id in w'.subs && w'.subs[id] == w.subs[id].(status := w'.subs[id].status)
            && (w'.subs[id].status == Canceled <==> w.subs[id].status == Canceled)
    decreases |es|
  {
    hide Occur, Possible, CallsOn;
    if es == [] {
    } else {
      assert es[0] in es;
      UntouchedRowStays(w, es[0], payPerUse, id);
      UntouchedRowsStay(Occur(w, es[0], payPerUse), es[1..], payPerUse, id);
    }
  }

  /** Canceling ends the renewals: over any later run in which no API call names the subscription its period and
      amount stay as they were. Canceled at once it is canceled and stays so. Canceled at the period end it is
      flagged and stays so, but no job ever carries the cancellation out. */
  lemma CancelStopsRenewals(w: World, id: Uuid, atPeriodEnd: bool, es: seq<Event>, payPerUse: set<string>)
    requires id in w.subs
    requires PossibleRun(Occur(w, CancelCall(id, atPeriodEnd), payPerUse), es, payPerUse)
    requires forall e <- es :: !CallsOn(e, id)
    ensures var after := After(Occur(w, CancelCall(id, atPeriodEnd), payPerUse), es, payPerUse).subs;
            && id in after
            && after[id] == w.subs[id].(status := after[id].status, cancelAtPeriodEnd := atPeriodEnd)
            && (if atPeriodEnd then after[id].status == Canceled <==> w.subs[id].status == Canceled
                else after[id].status == Canceled)
  {
    hide PossibleRun, After, CallsOn;
    UntouchedRowsStay(Occur(w, CancelCall(id, atPeriodEnd), payPerUse), es, payPerUse, id);
  }

  function Rank(s: Status): nat {
    match s
    case Trialing => 0
    case Active => 1
    case PastDue => 2
    case Expired => 3
    case Canceled => 4
  }

  /** With jobs alone a subscription only moves forward, and a canceled one does not move. */
  lemma {:induction false} JobsOnlyMoveForward(w: World, es: seq<Event>, payPerUse: set<string>, id: Uuid)
    requires PossibleRun(w, es, payPerUse) && id in w.subs
    requires forall e <- es :: IsJob(e)
    ensures id in After(w, es, payPerUse).subs
    ensures Rank(w.subs[id].status) <= Rank(After(w, es, payPerUse).subs[id].status)
    ensures w.subs[id].status != Canceled ==> After(w, es, payPerUse).subs[id].status != Canceled
    decreases |es|
  {
    hide Occur, Possible, IsJob;
    if es == [] {
    } else {
      assert es[0] in es;
      JobsMoveStatuses(w, es[0], payPerUse, id);
      JobsOnlyMoveForward(Occur(w, es[0], payPerUse), es[1..], payPerUse, id);
    }
  }

  // ----- One pass of all three jobs -----

  /** A pass of all three jobs expires a subscription only if its period ended at least graceDays
      before the pass began, and only if it was past_due before the pass or was due for renewal and
      turned past_due in it. */
  lemma ExpiryRespectsGrace(w: World, began: Instant, graceDays: int, renewals: Event, trials: Event, expiries: Event,
                            payPerUse: set<string>, id: Uuid)
    requires renewals.RenewalPass? && trials.TrialPass? && expiries.GracePass?
    requires expiries.graceEnd == AddDate(began, 0, 0, -graceDays)
    requires PossibleRun(w, [renewals, trials, expiries], payPerUse) && id in w.subs
    ensures var after := After(w, [renewals, trials, expiries], payPerUse).subs;
            id in after && (after[id].status == Expired && w.subs[id].status != Expired ==>
              && after[id].periodEnd == w.subs[id].periodEnd
              && AtOrBefore(AddDate(w.subs[id].periodEnd, 0, 0, graceDays), began)
              && (w.subs[id].status == PastDue
                  || (w.subs[id].status == Active && !w.subs[id].cancelAtPeriodEnd
                      && AtOrBefore(w.subs[id].periodEnd, renewals.now))))
  {
    hide Occur, Possible, AddDate, AtOrBefore;
    var es := [renewals, trials, expiries];
    var w1 := Occur(w, renewals, payPerUse);
    assert es[1..] == [trials, expiries];
    assert PossibleRun(w1, [trials, expiries], payPerUse);
    var w2 := Occur(w1, trials, payPerUse);
    assert [trials, expiries][1..] == [expiries];
    assert PossibleRun(w2, [expiries], payPerUse);
    var w3 := Occur(w2, expiries, payPerUse);
    assert [expiries][1..] == [];
    assert After(w2, [expiries], payPerUse) == w3;
    assert After(w1, [trials, expiries], payPerUse) == w3;
    assert After(w, es, payPerUse) == w3;
    JobsMoveStatuses(w, renewals, payPerUse, id);
    JobsMoveStatuses(w1, trials, payPerUse, id);
    JobsMoveStatuses(w2, expiries, payPerUse, id);
    TrialPassMoves(w1, trials, payPerUse, id);
    GracePassMoves(w2, expiries, payPerUse, id);
    RenewalPassMoves(w, renewals, payPerUse, id);
    GraceBound(w.subs[id].periodEnd, began, graceDays);
  }

  lemma GraceBound(end: Instant, began: Instant, graceDays: int)
    ensures AtOrBefore(end, AddDate(began, 0, 0, -graceDays)) <==> AtOrBefore(AddDate(end, 0, 0, graceDays), began)
  {
    hide AddDate;
    AddDays(began, -graceDays);
    AddDays(end, graceDays);
  }

  lemma RenewalPassMoves(w: World, e: Event, payPerUse: set<string>, id: Uuid)
    requires e.RenewalPass? && Possible(w, e) && id in w.subs
    ensures var w' := Occur(w, e, payPerUse);
            id in w'.subs && (w'.subs[id].status != w.subs[id].status ==>
              w.subs[id].status == Active && w'.subs[id].status == PastDue
              && !w.subs[id].cancelAtPeriodEnd && AtOrBefore(w.subs[id].periodEnd, e.now))
            && (w'.subs[id].periodEnd != w.subs[id].periodEnd ==> w.subs[id].status == Active == w'.subs[id].status)
  {
    hide RenewalRequest, Following, OrderColumn, AtOrBefore, RenewAll, IsListing;
    JobsMoveStatuses(w, e, payPerUse, id);
    PassOnlyTouchesDueRows(w, e.now, e.rows, e.weather);
  }

  lemma TrialPassMoves(w: World, e: Event, payPerUse: set<string>, id: Uuid)
    requires e.TrialPass? && Possible(w, e) && id in w.subs
    ensures var w' := Occur(w, e, payPerUse);
            id in w'.subs && (w'.subs[id].status != w.subs[id].status ==> w'.subs[id].status == Active)
  {
    hide WriteAll, IsListing, Lists;
    WriteAllEffect(w.subs, e.rows, Active, e.writes);
  }

  lemma GracePassMoves(w: World, e: Event, payPerUse: set<string>, id: Uuid)
    requires e.GracePass? && Possible(w, e) && id in w.subs
    ensures var w' := Occur(w, e, payPerUse);
            id in w'.subs && (w'.subs[id].status != w.subs[id].status ==>
              w.subs[id].status == PastDue && AtOrBefore(w.subs[id].periodEnd, e.graceEnd))
  {
    hide WriteAll, IsListing, Lists, AtOrBefore;
    WriteAllEffect(w.subs, e.rows, Expired, e.writes);
    if Lists(e.rows, id) { ListedIsSelected(w.subs, PendingExpiry(e.graceEnd), e.rows, id); }
  }
}
