/** The rows of the two tables, the provider's charges, and the effect of each SQL statement on
    them. */
module Domain {
  import opened Calendar
  import opened RenewalKeys

  datatype Option<+T> = None | Some(value: T)

  datatype Status = Trialing | Active | PastDue | Canceled | Expired

  datatype Subscription = Subscription(
    id: Uuid, tenant: Uuid, key: Uuid, providerName: string,
    interval: string, intervalCount: int, amount: int, currency: string,
    status: Status, periodStart: Instant, periodEnd: Instant,
    trialEndsAt: Option<Instant>, cancelAtPeriodEnd: bool)

  /** The subscriptions table by primary key. */
  type Subscriptions = map<Uuid, Subscription>

  /** What a charge or a payment is made from: the input of CreatePayment with its tenant. */
  datatype Request = Request(
    tenant: Uuid, subscriptionId: Uuid, providerName: string, key: string, amount: int, currency: string)

  /** UNIQUE (tenant_id, idempotency_key). */
  datatype PaymentKey = PaymentKey(tenant: Uuid, key: string)

  datatype PaymentStatus = Pending | Succeeded | Failed

  datatype Payment = Payment(
    tenant: Uuid, subscriptionId: Uuid, key: string, providerName: string,
    chargeId: string, amount: int, currency: string, status: PaymentStatus)

  type Payments = map<PaymentKey, Payment>

  /** Each tenant has its own account at each provider, and a provider remembers the idempotency
      keys of an account forever. */
  datatype ChargeKey = ChargeKey(tenant: Uuid, providerName: string, key: string)

  datatype ChargeStatus = ChargePending | ChargeSucceeded | ChargeFailed | ChargeUnknown

  datatype Charge = Charge(id: string, status: ChargeStatus)

  type Charges = map<ChargeKey, Charge>

  function PaymentKeyOf(req: Request): PaymentKey {
    PaymentKey(req.tenant, req.key)
  }

  function ChargeKeyOf(req: Request): ChargeKey {
    ChargeKey(req.tenant, req.providerName, req.key)
  }

  function ConvertChargeStatus(s: ChargeStatus): PaymentStatus {
    match s
    case ChargeSucceeded => Succeeded
    case ChargeFailed => Failed
    case ChargePending => Pending
    case ChargeUnknown => Pending
  }

  function PaymentRow(req: Request, charge: Charge): Payment {
    Payment(req.tenant, req.subscriptionId, req.key, req.providerName,
            charge.id, req.amount, req.currency, ConvertChargeStatus(charge.status))
  }

  /** The charge request a renewal makes for a listed row. */
  function RenewalRequest(sub: Subscription): Request {
    Request(sub.tenant, sub.id, sub.providerName, RenewalKey(sub.key, sub.periodEnd), sub.amount, sub.currency)
  }

  /** White space as strings.TrimSpace sees it. */
  predicate IsSpace(c: char) {
    var code := c as int;
    9 <= code <= 13 || code == 0x20 || code == 0x85 || code == 0xA0 || code == 0x1680 || 0x2000 <= code <= 0x200A
    || code == 0x2028 || code == 0x2029 || code == 0x202F || code == 0x205F || code == 0x3000
  }

  /** Nothing is left of the text once it is trimmed. */
  predicate Blank(text: string) {
    forall c <- text :: IsSpace(c)
  }

  const CURRENCIES := {"ARS", "USD", "BRL", "CLP", "COP", "MXN", "UYU", "PEN", "EUR", "GBP"}

  /** strings.ToUpper as far as it can yield an ASCII letter: two letters outside ASCII do. */
  function UpperChar(c: char): char {
    if 'a' <= c <= 'z' then c - 32 as char
    else if c as int == 0x131 then 'I'
    else if c as int == 0x17F then 'S'
    else c
  }

  predicate SupportedCurrency(code: string) {
    seq(|code|, i requires 0 <= i < |code| => UpperChar(code[i])) in CURRENCIES
  }

  const NIL_UUID := "00000000-0000-0000-0000-000000000000"

  /** The checks CreatePayment makes of the tenant and of its input before it calls the provider. */
  predicate ValidRequest(req: Request) {
    && req.tenant != NIL_UUID
    && !Blank(req.key) && !Blank(req.providerName) && req.amount > 0
    && (req.currency == "" || SupportedCurrency(req.currency))
  }

  lemma RenewalKeyNotBlank(key: Uuid, periodEnd: Instant)
    ensures !Blank(RenewalKey(key, periodEnd))
  {
    hide FormatDate, CivilDate;
    assert RenewalKey(key, periodEnd)[0] == 'r';
    assert 'r' in RenewalKey(key, periodEnd) && !IsSpace('r');
  }

  /** The supported currencies, in capitals or not. */
  lemma SupportedCurrencies(code: string, capitals: string)
    requires |code| == |capitals|
    requires forall i :: 0 <= i < |code| ==>
               'A' <= capitals[i] <= 'Z' && (code[i] == capitals[i] || code[i] as int == capitals[i] as int + 32)
    ensures SupportedCurrency(code)
            <==> capitals in {"ARS", "USD", "BRL", "CLP", "COP", "MXN", "UYU", "PEN", "EUR", "GBP"}
  {
    assert seq(|code|, i requires 0 <= i < |code| => UpperChar(code[i])) == capitals;
  }

  /** The checks CreatePayment makes of the provider's configuration. */
  predicate ValidConfig(config: map<string, string>) {
    forall k <- config :: !Blank(k) && !Blank(config[k])
  }

  // ----- Statements -----

  /** A request reaching the provider: the first one with its key creates the charge. */
  function Processed(charges: Charges, req: Request, made: Charge): Charges {
    if ChargeKeyOf(req) in charges then charges else charges[ChargeKeyOf(req) := made]
  }

  /** INSERT ... ON CONFLICT DO NOTHING. */
  function InsertedPayment(payments: Payments, row: Payment): Payments {
    var pk := PaymentKey(row.tenant, row.key);
    if pk in payments then payments else payments[pk := row]
  }

  /** UPDATE subscriptions SET status. */
  function WithStatus(subs: Subscriptions, id: Uuid, status: Status): Subscriptions {
    if id in subs then subs[id := subs[id].(status := status)] else subs
  }

  /** UPDATE subscriptions SET current_period_start, current_period_end. */
  function WithPeriod(subs: Subscriptions, id: Uuid, start: Instant, end: Instant): Subscriptions {
    if id in subs then subs[id := subs[id].(periodStart := start, periodEnd := end)] else subs
  }

  /** A PATCH body: absent fields leave their column alone. */
  datatype Patch = Patch(status: Option<Status>, cancelAtPeriodEnd: Option<bool>, amount: Option<int>)

  /** validateStatusTransition. */
  predicate TransitionAllowed(current: Status, next: Status) {
    match current
    case Canceled => next != Active && next != Trialing && next != PastDue
    case Expired => next != Active && next != Trialing
    case _ => true
  }

  /** The gates PATCH passes before it writes: a provider that is pay-per-use for a new amount, an
      allowed transition for a new status. */
  predicate PatchAllowed(row: Subscription, patch: Patch, payPerUse: set<string>) {
    && (patch.amount.Some? ==> row.providerName != "" && row.providerName in payPerUse)
    && (patch.status.Some? ==> TransitionAllowed(row.status, patch.status.value))
  }

  function PatchedRow(row: Subscription, p: Patch): Subscription {
    row.(status := if p.status.Some? then p.status.value else row.status,
         cancelAtPeriodEnd := if p.cancelAtPeriodEnd.Some? then p.cancelAtPeriodEnd.value else row.cancelAtPeriodEnd,
         amount := if p.amount.Some? then p.amount.value else row.amount)
  }

  function WithPatch(subs: Subscriptions, id: Uuid, p: Patch): Subscriptions {
    if id in subs then subs[id := PatchedRow(subs[id], p)] else subs
  }

  function CanceledRow(row: Subscription, atPeriodEnd: bool): Subscription {
    if atPeriodEnd then row.(cancelAtPeriodEnd := true)
    else row.(status := Canceled, cancelAtPeriodEnd := false)
  }

  function WithCancel(subs: Subscriptions, id: Uuid, atPeriodEnd: bool): Subscriptions {
    if id in subs then subs[id := CanceledRow(subs[id], atPeriodEnd)] else subs
  }

  /** Every row sits under its own id. */
  ghost predicate Keyed(subs: Subscriptions) {
    forall id <- subs :: subs[id].id == id
  }

  // ----- The three due lists -----

  datatype Query =
    | DueForRenewal(now: Instant)
    | ExpiredTrials(now: Instant)
    | PendingExpiry(graceEnd: Instant)

  const PAGE := 100

  /** The filters of the three queries. The renewal query also asks for a provider name that is not NULL;
      every row that Create inserts has one, the empty string if none was given. */
  predicate Selects(q: Query, row: Subscription) {
    match q
    case DueForRenewal(now) => row.status == Active && AtOrBefore(row.periodEnd, now) && !row.cancelAtPeriodEnd
    case ExpiredTrials(now) => row.status == Trialing && row.trialEndsAt.Some? && AtOrBefore(row.trialEndsAt.value, now)
    case PendingExpiry(graceEnd) => row.status == PastDue && AtOrBefore(row.periodEnd, graceEnd)
  }

  function OrderColumn(q: Query, row: Subscription): Instant {
    if q.ExpiredTrials? && row.trialEndsAt.Some? then row.trialEndsAt.value else row.periodEnd
  }

  function Selected(subs: Subscriptions, q: Query): set<Uuid> {
    set id <- subs | Selects(q, subs[id])
  }

  predicate Lists(rows: seq<Subscription>, id: Uuid) {
    exists i :: 0 <= i < |rows| && rows[i].id == id
  }

  predicate Distinct(rows: seq<Subscription>) {
    forall i, j :: 0 <= i < j < |rows| ==> rows[i].id != rows[j].id
  }

  /** What a due list may return: distinct selected rows as they are stored, in the order of the
      sort column, at most 100 of them, and none left out that would come before one returned. */
  predicate IsPage(subs: Subscriptions, q: Query, rows: seq<Subscription>) {
    && (forall i :: 0 <= i < |rows| ==> rows[i].id in subs && subs[rows[i].id] == rows[i] && Selects(q, rows[i]))
    && Distinct(rows)
    && (forall i, j :: 0 <= i < j < |rows| ==> AtOrBefore(OrderColumn(q, rows[i]), OrderColumn(q, rows[j])))
    && |rows| == (if |Selected(subs, q)| < PAGE then |Selected(subs, q)| else PAGE)
    && (forall id <- subs, i :: 0 <= i < |rows| && Selects(q, subs[id]) && !Lists(rows, id) ==>
          AtOrBefore(OrderColumn(q, rows[i]), OrderColumn(q, subs[id])))
  }

  // ----- Every due list has an answer -----

  /** A row of the set that no other row of it comes before. */
  predicate Earliest(subs: Subscriptions, q: Query, ids: set<Uuid>, first: Uuid)
    requires ids <= subs.Keys
  {
    first in ids && forall id <- ids :: AtOrBefore(OrderColumn(q, subs[first]), OrderColumn(q, subs[id]))
  }

  lemma EarlierOfTwo(subs: Subscriptions, q: Query, ids: set<Uuid>, x: Uuid, y: Uuid) returns (first: Uuid)
    requires ids <= subs.Keys && x in ids && Earliest(subs, q, ids - {x}, y)
    ensures Earliest(subs, q, ids, first)
  {
    hide OrderColumn;
    first := if AtOrBefore(OrderColumn(q, subs[x]), OrderColumn(q, subs[y])) then x else y;
    forall id | id in ids
      ensures AtOrBefore(OrderColumn(q, subs[first]), OrderColumn(q, subs[id]))
    {
      assert id == x || id in ids - {x};
    }
  }

  lemma {:induction false} EarliestExists(subs: Subscriptions, q: Query, ids: set<Uuid>) returns (first: Uuid)
    requires ids != {} && ids <= subs.Keys
    ensures Earliest(subs, q, ids, first)
    decreases |ids|
  {
    var x :| x in ids;
    if ids - {x} == {} {
      assert ids == {x};
      first := x;
    } else {
      hide Earliest;
      var y := EarliestExists(subs, q, ids - {x});
      first := EarlierOfTwo(subs, q, ids, x, y);
    }
  }

  lemma ListsMore(first: Subscription, rest: seq<Subscription>, id: Uuid)
    ensures Lists([first] + rest, id) <==> first.id == id || Lists(rest, id)
  {
    var rows := [first] + rest;
    assert rows[0] == first;
    if Lists(rest, id) {
      var k :| 0 <= k < |rest| && rest[k].id == id;
      assert rows[k + 1].id == id;
    }
  }

  lemma ExtendRows(subs: Subscriptions, q: Query, ids: set<Uuid>, first: Uuid, rest: seq<Subscription>)
    requires Keyed(subs) && ids <= subs.Keys
    requires Earliest(subs, q, ids, first)
    requires FirstRows(subs, q, ids - {first}, |rest|, rest)
    ensures FirstRows(subs, q, ids, |rest| + 1, [subs[first]] + rest)
  {
    hide OrderColumn, AtOrBefore;
    var rows := [subs[first]] + rest;
    forall id, i | id in ids && 0 <= i < |rows| && !Lists(rows, id)
      ensures AtOrBefore(OrderColumn(q, rows[i]), OrderColumn(q, subs[id]))
    {
      assert rows[0].id == first;
      ListsMore(subs[first], rest, id);
      if i > 0 {
        assert rows[i] == rest[i - 1];
      }
    }
  }

  lemma {:induction false} FirstRowsExist(subs: Subscriptions, q: Query, ids: set<Uuid>, n: nat)
    requires Keyed(subs) && ids <= subs.Keys && n <= |ids|
    ensures exists rows :: FirstRows(subs, q, ids, n, rows)
    decreases n
  {
    if n == 0 {
      assert FirstRows(subs, q, ids, 0, []);
    } else {
      var first := EarliestExists(subs, q, ids);
      assert first in ids;
      hide Earliest;
      FirstRowsExist(subs, q, ids - {first}, n - 1);
      var rest :| FirstRows(subs, q, ids - {first}, n - 1, rest);
      assert |rest| + 1 == n;
      ExtendRows(subs, q, ids, first, rest);
      assert FirstRows(subs, q, ids, n, [subs[first]] + rest);
    }
  }

  ghost predicate FirstRows(subs: Subscriptions, q: Query, ids: set<Uuid>, n: nat, rows: seq<Subscription>)
    requires ids <= subs.Keys
  {
    && |rows| == n
    && (forall i :: 0 <= i < n ==> rows[i].id in ids && subs[rows[i].id] == rows[i])
    && Distinct(rows)
    && (forall i, j :: 0 <= i < j < n ==> AtOrBefore(OrderColumn(q, rows[i]), OrderColumn(q, rows[j])))
    && (forall id <- ids, i :: 0 <= i < n && !Lists(rows, id) ==>
          AtOrBefore(OrderColumn(q, rows[i]), OrderColumn(q, subs[id])))
  }

  /** On every table each of the three due lists has an answer. */
  lemma PageExists(subs: Subscriptions, q: Query)
    requires Keyed(subs)
    ensures exists rows :: IsPage(subs, q, rows)
  {
    var ids := Selected(subs, q);
    var n := if |ids| < PAGE then |ids| else PAGE;
    FirstRowsExist(subs, q, ids, n);
    var rows :| FirstRows(subs, q, ids, n, rows);
    forall id, i | id in subs && 0 <= i < |rows| && Selects(q, subs[id]) && !Lists(rows, id)
      ensures AtOrBefore(OrderColumn(q, rows[i]), OrderColumn(q, subs[id]))
    {
      assert id in ids;
    }
    assert IsPage(subs, q, rows);
  }
}
