/** Plans, and subscriptions created from them or without one: which billing terms exist, and that
    they never change. */
module Plans {
  import opened Calendar
  import opened RenewalKeys
  import opened Domain
  import opened Protocol

  datatype Plan = Plan(
    id: Uuid, tenant: Uuid, slug: string, name: string, description: string, amount: int, currency: string,
    interval: string, intervalCount: int, trialDays: int, isActive: bool)

  /** UNIQUE (tenant_id, slug). */
  datatype PlanKey = PlanKey(tenant: Uuid, slug: string)

  datatype PlanInput = PlanInput(
    slug: string, name: string, description: string, amount: int, currency: string,
    interval: string, intervalCount: int, trialDays: int)

  datatype PlanPatch = PlanPatch(name: Option<string>, description: Option<string>, isActive: Option<bool>)

  function PlanKeyOf(p: Plan): PlanKey {
    PlanKey(p.tenant, p.slug)
  }

  /** The plans table with its unique index. */
  datatype PlanTable = PlanTable(plans: map<Uuid, Plan>, slugs: map<PlanKey, Uuid>)

  /** The index and the rows agree. */
  ghost predicate Indexed(t: PlanTable) {
    && (forall id <- t.plans ::
          t.plans[id].id == id && PlanKeyOf(t.plans[id]) in t.slugs && t.slugs[PlanKeyOf(t.plans[id])] == id)
    && (forall k <- t.slugs :: t.slugs[k] in t.plans && PlanKeyOf(t.plans[t.slugs[k]]) == k)
  }

  /** Besides, a stored interval passes the table's CHECK, and a stored count is not zero because the
      service defaults it. */
  ghost predicate ValidPlans(t: PlanTable) {
    Indexed(t) && forall id <- t.plans :: KnownInterval(t.plans[id].interval) && t.plans[id].intervalCount != 0
  }

  /** The columns that price and time a plan. */
  datatype Terms = Terms(
    tenant: Uuid, slug: string, amount: int, currency: string, interval: string, intervalCount: int, trialDays: int)

  function TermsOf(p: Plan): Terms {
    Terms(p.tenant, p.slug, p.amount, p.currency, p.interval, p.intervalCount, p.trialDays)
  }

  /** strings.TrimSpace. */
  function Trimmed(s: string): string
    decreases |s|
  {
    if s == "" then s
    else if IsSpace(s[0]) then Trimmed(s[1..])
    else if IsSpace(s[|s| - 1]) then Trimmed(s[..|s| - 1])
    else s
  }

  /** strings.ToLower as far as it can yield an ASCII letter: two letters outside ASCII do. */
  function LowerChar(c: char): char {
    if 'A' <= c <= 'Z' then c + 32 as char
    else if c as int == 0x130 then 'i'
    else if c as int == 0x212A then 'k'
    else c
  }

  function NormalSlug(slug: string): string {
    var s := Trimmed(slug);
    seq(|s|, i requires 0 <= i < |s| => LowerChar(s[i]))
  }

  /** A text is blank exactly if nothing is left of it when trimmed. */
  lemma {:induction false} BlankIffTrimmedAway(s: string)
    ensures Blank(s) <==> Trimmed(s) == ""
    decreases |s|
  {
    hide IsSpace;
    if s == "" {
    } else if IsSpace(s[0]) {
      BlankIffTrimmedAway(s[1..]);
      assert s == [s[0]] + s[1..];
    } else if IsSpace(s[|s| - 1]) {
      BlankIffTrimmedAway(s[..|s| - 1]);
      assert s == s[..|s| - 1] + [s[|s| - 1]];
    } else {
      assert s[0] in s;
    }
  }

  lemma {:induction false} TrimmedAround(before: string, s: string, after: string)
    requires Blank(before) && Blank(after) && s != "" && !IsSpace(s[0]) && !IsSpace(s[|s| - 1])
    ensures Trimmed(before + s + after) == s
    decreases |before| + |after|
  {
    hide IsSpace;
    var t := before + s + after;
    if before != "" {
      assert t[0] == before[0] && before[0] in before;
      assert t[1..] == before[1..] + s + after;
      TrimmedAround(before[1..], s, after);
    } else if after != "" {
      assert t[0] == s[0] && t[|t| - 1] == after[|after| - 1] && after[|after| - 1] in after;
      assert t[..|t| - 1] == before + s + after[..|after| - 1];
      TrimmedAround(before, s, after[..|after| - 1]);
    } else {
      assert t == s;
    }
  }

  /** A slug written with capitals and with white space around it is stored in small letters and without. */
  lemma SlugWrittenOtherwise(before: string, written: string, after: string, slug: string)
    requires Blank(before) && Blank(after) && ValidSlug(slug) && |written| == |slug|
    requires forall i :: 0 <= i < |slug| ==>
               written[i] == slug[i] || ('a' <= slug[i] <= 'z' && written[i] as int == slug[i] as int - 32)
    ensures NormalSlug(before + written + after) == slug
  {
    TrimmedAround(before, written, after);
    assert forall i :: 0 <= i < |slug| ==> slug[i] in slug;
  }

  predicate IsAlphanumericLower(c: char) {
    'a' <= c <= 'z' || '0' <= c <= '9'
  }

  predicate ValidSlug(slug: string) {
    && 1 <= |slug| <= 64
    && IsAlphanumericLower(slug[0]) && IsAlphanumericLower(slug[|slug| - 1])
    && forall c <- slug :: IsAlphanumericLower(c) || c == '-'
  }

  /** The length of a text in UTF-8. */
  function ByteLength(s: string): nat {
    if s == "" then 0
    else
      var code := s[0] as int;
      (if code < 0x80 then 1 else if code < 0x800 then 2 else if code < 0x10000 then 3 else 4) + ByteLength(s[1..])
  }

  /** validateCreateInput. The interval count is not looked at. */
  predicate ValidPlanInput(input: PlanInput) {
    && !Blank(input.name) && ByteLength(input.name) <= 255
    && ValidSlug(NormalSlug(input.slug))
    && input.amount > 0 && (input.currency == "" || SupportedCurrency(input.currency))
    && (input.interval == "" || KnownInterval(input.interval))
    && input.trialDays >= 0
  }

  lemma {:induction false} AsciiLength(s: string)
    requires forall c <- s :: c as int < 128
    ensures ByteLength(s) == |s|
  {
    if s == "" {
    } else {
      assert s == [s[0]] + s[1..];
      assert s[0] in s && forall c <- s[1..] :: c in s;
      AsciiLength(s[1..]);
    }
  }

  /** Which inputs pass validation, for names in ASCII and slugs in small letters without white space around. */
  lemma PlanInputValidIff(input: PlanInput)
    requires (forall c <- input.name :: c as int < 128) && NormalSlug(input.slug) == input.slug
    ensures ValidPlanInput(input)
            <==> && input.amount > 0 && input.trialDays >= 0
                 && Trimmed(input.name) != "" && |input.name| <= 255
                 && (input.currency == "" || SupportedCurrency(input.currency))
                 && input.interval in {"", "day", "week", "month", "year"}
                 && 1 <= |input.slug| <= 64 && input.slug[0] != '-' && input.slug[|input.slug| - 1] != '-'
                 && forall c <- input.slug :: 'a' <= c <= 'z' || '0' <= c <= '9' || c == '-'
  {
    hide Blank, Trimmed, NormalSlug, SupportedCurrency, ByteLength;
    AsciiLength(input.name);
    BlankIffTrimmedAway(input.name);
    if input.slug != "" {
      assert input.slug[0] in input.slug && input.slug[|input.slug| - 1] in input.slug;
    }
  }

  /** The input with its slug in normal form and the service's defaults. */
  function Defaulted(input: PlanInput): PlanInput {
    input.(slug := NormalSlug(input.slug),
           currency := if input.currency == "" then "ARS" else input.currency,
           intervalCount := if input.intervalCount == 0 then 1 else input.intervalCount)
  }

  function PlanRow(id: Uuid, tenant: Uuid, input: PlanInput): Plan {
    Plan(id, tenant, input.slug, input.name, input.description, input.amount, input.currency,
         input.interval, input.intervalCount, input.trialDays, true)
  }

  function PatchedPlan(p: Plan, patch: PlanPatch): Plan {
    p.(name := if patch.name.Some? then patch.name.value else p.name,
       description := if patch.description.Some? then patch.description.value else p.description,
       isActive := if patch.isActive.Some? then patch.isActive.value else p.isActive)
  }

  /** Every statement that writes the plans table. */
  datatype PlanOp =
    | CreateOrGet(id: Uuid, tenant: Uuid, input: PlanInput)
    | UpdatePlan(id: Uuid, patch: PlanPatch)
    | DeletePlan(id: Uuid)

  /** INSERT ... ON CONFLICT (tenant_id, slug) DO UPDATE SET updated_at: a fresh slug inserts the row, a
      known one is left alone. */
  function UpsertedPlan(t: PlanTable, row: Plan): PlanTable {
    if PlanKeyOf(row) in t.slugs || row.id in t.plans || !KnownInterval(row.interval) then t
    else PlanTable(t.plans[row.id := row], t.slugs[PlanKeyOf(row) := row.id])
  }

  /** The service upserts a valid input with its defaults; updates and deletes rewrite the name, the
      description and the active flag. */
  function PlanStep(t: PlanTable, op: PlanOp): PlanTable {
    match op
    case CreateOrGet(id, tenant, input) =>
      if tenant == NIL_UUID || !ValidPlanInput(input) then t
      else UpsertedPlan(t, PlanRow(id, tenant, Defaulted(input)))
    case UpdatePlan(id, patch) =>
      if id in t.plans then t.(plans := t.plans[id := PatchedPlan(t.plans[id], patch)]) else t
    case DeletePlan(id) =>
      if id in t.plans then t.(plans := t.plans[id := t.plans[id].(isActive := false)]) else t
  }

  function PlanRun(t: PlanTable, ops: seq<PlanOp>): PlanTable
    decreases |ops|
  {
    if ops == [] then t else PlanRun(PlanStep(t, ops[0]), ops[1..])
  }

  ghost predicate TermsKept(t: PlanTable, t': PlanTable) {
    && (forall id <- t.plans :: id in t'.plans && TermsOf(t'.plans[id]) == TermsOf(t.plans[id]))
    && (forall k <- t.slugs :: k in t'.slugs && t'.slugs[k] == t.slugs[k])
  }

  lemma RewriteKeepsTerms(t: PlanTable, id: Uuid, row: Plan)
    requires ValidPlans(t) && id in t.plans && row.id == id && TermsOf(row) == TermsOf(t.plans[id])
    ensures ValidPlans(t.(plans := t.plans[id := row])) && TermsKept(t, t.(plans := t.plans[id := row]))
  {
    hide KnownInterval;
  }

  lemma InsertKeepsTerms(t: PlanTable, row: Plan)
    requires ValidPlans(t) && row.id !in t.plans && PlanKeyOf(row) !in t.slugs
    requires KnownInterval(row.interval) && row.intervalCount != 0
    ensures var t' := PlanTable(t.plans[row.id := row], t.slugs[PlanKeyOf(row) := row.id]);
            ValidPlans(t') && TermsKept(t, t')
  {
    hide KnownInterval, TermsOf;
  }

  lemma PlanStepKeepsTerms(t: PlanTable, op: PlanOp)
    requires ValidPlans(t)
    ensures ValidPlans(PlanStep(t, op)) && TermsKept(t, PlanStep(t, op))
  {
    hide KnownInterval, ValidPlans, TermsKept, ValidPlanInput, NormalSlug;
    SameTable(t);
    match op
    case CreateOrGet(id, tenant, input) =>
      var row := PlanRow(id, tenant, Defaulted(input));
      if PlanStep(t, op) != t { InsertKeepsTerms(t, row); }
    case UpdatePlan(id, patch) =>
      if id in t.plans { PlanIds(t, id); RewriteKeepsTerms(t, id, PatchedPlan(t.plans[id], patch)); }
    case DeletePlan(id) =>
      if id in t.plans { PlanIds(t, id); RewriteKeepsTerms(t, id, t.plans[id].(isActive := false)); }
  }

  lemma SameTable(t: PlanTable)
    ensures TermsKept(t, t)
  {
  }

  lemma PlanIds(t: PlanTable, id: Uuid)
    requires ValidPlans(t) && id in t.plans
    ensures t.plans[id].id == id
  {
  }

  /** Over any run of plan writes no plan disappears, changes its terms or loses its slug. */
  lemma {:induction false} PlanTermsFixed(t: PlanTable, ops: seq<PlanOp>)
    requires ValidPlans(t)
    ensures ValidPlans(PlanRun(t, ops))
    ensures TermsKept(t, PlanRun(t, ops))
    decreases |ops|
  {
    hide PlanStep, ValidPlans, TermsOf;
    if ops == [] {
    } else {
      PlanStepKeepsTerms(t, ops[0]);
      PlanTermsFixed(PlanStep(t, ops[0]), ops[1..]);
    }
  }

  /** What creating a plan stores under a fresh id and slug: what the input says, with ARS and a count of one where
      it says nothing, and active; or nothing, if the input is not valid or its interval is not known. */
  lemma PlanStoredAsGiven(t: PlanTable, id: Uuid, tenant: Uuid, input: PlanInput)
    requires tenant != NIL_UUID && id !in t.plans && PlanKey(tenant, NormalSlug(input.slug)) !in t.slugs
    ensures var t' := PlanStep(t, CreateOrGet(id, tenant, input));
            if ValidPlanInput(input) && input.interval in {"day", "week", "month", "year"} then
              && id in t'.plans && t'.plans - {id} == t.plans
              && var p := t'.plans[id];
                 && p.id == id && p.tenant == tenant && p.slug == NormalSlug(input.slug)
                 && p.name == input.name && p.description == input.description
                 && p.amount == input.amount && p.interval == input.interval && p.trialDays == input.trialDays
                 && p.currency == (if input.currency == "" then "ARS" else input.currency)
                 && p.intervalCount == (if input.intervalCount == 0 then 1 else input.intervalCount)
                 && p.isActive
            else t' == t
  {
    hide NormalSlug, ValidPlanInput;
  }

  /** What an update and a deletion write to a plan. */
  lemma PlanWrites(t: PlanTable, id: Uuid, patch: PlanPatch)
    requires id in t.plans
    ensures var p, q := t.plans[id], PlanStep(t, UpdatePlan(id, patch)).plans[id];
            && q == p.(name := q.name, description := q.description, isActive := q.isActive)
            && q.name == (if patch.name.Some? then patch.name.value else p.name)
            && q.description == (if patch.description.Some? then patch.description.value else p.description)
            && q.isActive == (if patch.isActive.Some? then patch.isActive.value else p.isActive)
    ensures PlanStep(t, DeletePlan(id)).plans[id] == t.plans[id].(isActive := false)
  {
  }

  predicate Reactivates(op: PlanOp, id: Uuid) {
    op.UpdatePlan? && op.id == id && op.patch.isActive == Some(true)
  }

  lemma {:induction false} InactiveStays(t: PlanTable, ops: seq<PlanOp>, id: Uuid)
    requires id in t.plans && !t.plans[id].isActive && forall op <- ops :: !Reactivates(op, id)
    ensures id in PlanRun(t, ops).plans && !PlanRun(t, ops).plans[id].isActive
    decreases |ops|
  {
    hide NormalSlug, ValidPlanInput, KnownInterval;
    if ops == [] {
    } else {
      assert ops[0] in ops;
      InactiveStays(PlanStep(t, ops[0]), ops[1..], id);
    }
  }

  class PlanRepository {
    var plans: map<Uuid, Plan>
    var slugs: map<PlanKey, Uuid>

    constructor ()
      ensures ValidPlans(Table()) && plans == map[]
    {
      plans := map[];
      slugs := map[];
    }

    ghost function Table(): PlanTable
      reads this
    {
      PlanTable(plans, slugs)
    }

    /** Inserts the plan under a generated id or returns the one that has the slug; what the input holds is
        the service's business. */
    method Upsert(id: Uuid, tenant: Uuid, input: PlanInput) returns (r: Option<Plan>, created: bool)
      requires Indexed(Table())
      modifies this
      ensures Indexed(Table())
      ensures old(ValidPlans(Table())) && input.intervalCount != 0 ==> ValidPlans(Table())
      ensures Table() == UpsertedPlan(old(Table()), PlanRow(id, tenant, input))
      ensures r.Some? ==> PlanKeyOf(r.value) == PlanKey(tenant, input.slug)
                          && r.value.id in plans && plans[r.value.id] == r.value
      ensures r.Some? ==> (created <==> PlanKey(tenant, input.slug) !in old(slugs))
      ensures r.None?
              <==> PlanKey(tenant, input.slug) !in old(slugs) && (id in old(plans) || !KnownInterval(input.interval))
    {
      hide KnownInterval;
      var row := PlanRow(id, tenant, input);
      if PlanKeyOf(row) in slugs {
        return Some(plans[slugs[PlanKeyOf(row)]]), false;
      }
      if id in plans || !KnownInterval(input.interval) {
        return None, false;
      }
      plans := plans[id := row];
      slugs := slugs[PlanKeyOf(row) := id];
      return Some(row), true;
    }

    /** Adds one column assignment for every field present. */
    method Update(id: Uuid, patch: PlanPatch) returns (r: Option<Plan>)
      requires ValidPlans(Table())
      modifies this`plans
      ensures ValidPlans(Table())
      ensures Table() == PlanStep(old(Table()), UpdatePlan(id, patch))
      ensures r == if id in old(plans) then Some(plans[id]) else None
    {
      PlanStepKeepsTerms(Table(), UpdatePlan(id, patch));
      if id !in plans {
        return None;
      }
      var row := plans[id];
      if patch.name.Some? {
        row := row.(name := patch.name.value);
      }
      if patch.description.Some? {
        row := row.(description := patch.description.value);
      }
      if patch.isActive.Some? {
        row := row.(isActive := patch.isActive.value);
      }
      plans := plans[id := row];
      r := Some(row);
    }

    /** Soft delete; a missing id is not an error. */
    method Delete(id: Uuid)
      requires ValidPlans(Table())
      modifies this`plans
      ensures ValidPlans(Table())
      ensures Table() == PlanStep(old(Table()), DeletePlan(id))
    {
      PlanStepKeepsTerms(Table(), DeletePlan(id));
      if id in plans {
        plans := plans[id := plans[id].(isActive := false)];
      }
    }
  }

  class PlanService {
    const repo: PlanRepository

    constructor (repo: PlanRepository)
      ensures this.repo == repo
    {
      this.repo := repo;
    }

    /** Idempotent creation by slug: validation, the input's defaults, then the upsert. */
    method CreateOrGet(id: Uuid, tenant: Uuid, input: PlanInput) returns (r: Option<Plan>, created: bool)
      requires ValidPlans(repo.Table())
      modifies repo
      ensures ValidPlans(repo.Table())
      ensures repo.Table() == PlanStep(old(repo.Table()), PlanOp.CreateOrGet(id, tenant, input))
      ensures r.Some? ==> PlanKeyOf(r.value) == PlanKey(tenant, NormalSlug(input.slug))
                          && r.value.id in repo.plans && repo.plans[r.value.id] == r.value
      ensures r.Some? ==> (created <==> PlanKey(tenant, NormalSlug(input.slug)) !in old(repo.slugs))
      ensures tenant == NIL_UUID || !ValidPlanInput(input) ==> r.None?
    {
      hide KnownInterval, Indexed, ValidPlanInput, NormalSlug;
      if tenant == NIL_UUID || !ValidPlanInput(input) {
        return None, false;
      }
      var defaulted := input.(slug := NormalSlug(input.slug));
      if defaulted.currency == "" {
        defaulted := defaulted.(currency := "ARS");
      }
      if defaulted.intervalCount == 0 {
        defaulted := defaulted.(intervalCount := 1);
      }
      r, created := repo.Upsert(id, tenant, defaulted);
    }
  }

  // ----- Creating a subscription -----

  datatype SubscriptionInput = SubscriptionInput(
    planSlug: string, amount: int, currency: string, interval: string, intervalCount: int, providerName: string)

  /** The row the subscription service hands to its repository: copied from an active plan, or taken
      from a checked planless input. `plan` is the plan found under the slug. */
  function NewSubscription(id: Uuid, key: Uuid, tenant: Uuid, input: SubscriptionInput, plan: Option<Plan>,
                           plansSupported: bool, start: Instant): Option<Subscription> {
    if input.planSlug != "" then
      if plan.None? || !plan.value.isActive || (input.providerName != "" && !plansSupported) then None
      else
        var p := plan.value;
        var trial := p.trialDays > 0;
        Some(Subscription(id, tenant, key, input.providerName, p.interval, p.intervalCount, p.amount, p.currency,
                          if trial then Trialing else Active,
                          start, CalculatePeriodEnd(start, p.interval, p.intervalCount),
                          if trial then Some(AddDate(start, 0, 0, p.trialDays)) else None, false))
    else if input.amount <= 0 || Blank(input.currency) || !SupportedCurrency(input.currency)
            || !KnownInterval(input.interval) || input.intervalCount < 1 then None
    else
      Some(Subscription(id, tenant, key, input.providerName, input.interval, input.intervalCount,
                        input.amount, input.currency, Active,
                        start, CalculatePeriodEnd(start, input.interval, input.intervalCount), None, false))
  }

  /** Whatever plans were written before, a subscription the service creates is one the renewal protocol
      may start from, renewed by the very period function that ended its first period; and it takes the
      plan's terms as they were when the plan was created. */
  lemma CreatedIsInsertable(t0: PlanTable, ops: seq<PlanOp>, born: Subscriptions, id: Uuid, key: Uuid, tenant: Uuid,
                            input: SubscriptionInput, plansSupported: bool, start: Instant)
    requires ValidPlans(t0)
    requires id !in born && IsUuid(key) && forall other <- born :: born[other].key != key
    ensures var t := PlanRun(t0, ops);
            var k := PlanKey(tenant, input.planSlug);
            var plan := if k in t.slugs && t.slugs[k] in t.plans then Some(t.plans[t.slugs[k]]) else None;
            var r := NewSubscription(id, key, tenant, input, plan, plansSupported, start);
            r.Some? ==>
              && Insertable(born, r.value)
              && r.value.periodEnd == NextPeriodEnd(r.value.periodStart, r.value.interval, r.value.intervalCount)
              && (input.planSlug != "" && k in t0.slugs ==>
                    var p := TermsOf(t0.plans[t0.slugs[k]]);
                    r.value.amount == p.amount && r.value.currency == p.currency
                    && r.value.interval == p.interval && r.value.intervalCount == p.intervalCount)
  {
    hide CalculatePeriodEnd, NextPeriodEnd, AddDate, PlanRun;
    PlanTermsFixed(t0, ops);
    var t := PlanRun(t0, ops);
    var k := PlanKey(tenant, input.planSlug);
    if input.planSlug != "" && k in t.slugs {
      var p := t.plans[t.slugs[k]];
      PeriodFunctionsAgree(start, p.interval, p.intervalCount);
    } else {
      PeriodFunctionsAgree(start, input.interval, input.intervalCount);
    }
  }

  /** The columns of a new subscription: those of its plan or of its input, a first period from the start, and from
      a plan with trial days a trial of that many days. */
  lemma SubscriptionCreatedAsPlanned(id: Uuid, key: Uuid, tenant: Uuid, input: SubscriptionInput, plan: Option<Plan>,
                                     plansSupported: bool, start: Instant)
    ensures var r := NewSubscription(id, key, tenant, input, plan, plansSupported, start);
            (r.None? <==> if input.planSlug != "" then
                            plan.None? || !plan.value.isActive || (input.providerName != "" && !plansSupported)
                          else
                            input.amount <= 0 || input.intervalCount < 1
                            || input.interval !in {"day", "week", "month", "year"}
                            || Blank(input.currency) || !SupportedCurrency(input.currency))
            && (r.Some? ==>
                  var row := r.value;
                  && row.id == id && row.key == key && row.tenant == tenant && row.providerName == input.providerName
                  && row.periodStart == start && !row.cancelAtPeriodEnd
                  && row.periodEnd == CalculatePeriodEnd(start, row.interval, row.intervalCount)
                  && if input.planSlug != "" then
                       && row.amount == plan.value.amount && row.currency == plan.value.currency
                       && row.interval == plan.value.interval && row.intervalCount == plan.value.intervalCount
                       && (if plan.value.trialDays > 0 then
                             row.status == Trialing
                             && row.trialEndsAt == Some(start.(day := start.day + plan.value.trialDays))
                           else row.status == Active && row.trialEndsAt == None)
                     else
                       && row.amount == input.amount && row.currency == input.currency && row.interval == input.interval
                       && row.intervalCount == input.intervalCount && row.status == Active && row.trialEndsAt == None)
  {
    hide CalculatePeriodEnd, AddDate, SupportedCurrency, Blank;
    if plan.Some? {
      AddDays(start, plan.value.trialDays);
    }
  }

  /** A deleted plan, unless an update makes it active again, starts no subscription. */
  lemma DeletedPlanStartsNothing(t: PlanTable, id: Uuid, ops: seq<PlanOp>, newId: Uuid, key: Uuid, tenant: Uuid,
                                 input: SubscriptionInput, plansSupported: bool, start: Instant)
    requires id in t.plans && forall op <- ops :: !Reactivates(op, id)
    ensures var t' := PlanRun(PlanStep(t, DeletePlan(id)), ops);
            id in t'.plans
            && (input.planSlug != "" ==>
                  NewSubscription(newId, key, tenant, input, Some(t'.plans[id]), plansSupported, start) == None)
  {
    hide PlanRun;
    InactiveStays(PlanStep(t, DeletePlan(id)), ops, id);
  }

  /** A subscription created active from a plan is due at the moment of its creation exactly when the plan's
      count is not positive. */
  lemma DueAtOnceIff(id: Uuid, key: Uuid, tenant: Uuid, input: SubscriptionInput, plan: Plan,
      plansSupported: bool, start: Instant)
    requires input.planSlug != "" && KnownInterval(plan.interval) && plan.trialDays <= 0
    ensures var r := NewSubscription(id, key, tenant, input, Some(plan), plansSupported, start);
            r.Some? ==> (Selects(DueForRenewal(start), r.value) <==> plan.intervalCount < 1)
  {
    hide CalculatePeriodEnd, NextPeriodEnd, AddDate;
    PeriodFunctionsAgree(start, plan.interval, plan.intervalCount);
    StepMovesDate(start, plan.interval, plan.intervalCount);
  }

  /** A plan may carry a negative interval count: a valid input is stored with any count but zero, and
      whether it is valid does not depend on the count. */
  lemma NegativePlanCountAccepted(t: PlanTable, id: Uuid, tenant: Uuid, input: PlanInput)
    requires tenant != NIL_UUID && id !in t.plans && PlanKey(tenant, NormalSlug(input.slug)) !in t.slugs
    ensures var t' := PlanStep(t, CreateOrGet(id, tenant, input));
            (id in t'.plans <==> ValidPlanInput(input.(intervalCount := 1)) && KnownInterval(input.interval))
            && (id in t'.plans && input.intervalCount < 0 ==> t'.plans[id].intervalCount == input.intervalCount)
  {
    hide NormalSlug, KnownInterval, ByteLength, SupportedCurrency, Blank, ValidSlug;
  }
}
