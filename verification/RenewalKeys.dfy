/** The idempotency keys of renewals: `renewal:{subscription_key}:{period_end_date}`, rendered as
    text, and the proof that the text identifies the subscription and the date. */
module RenewalKeys {
  import opened Calendar

  /** A UUID by its canonical text. */
  type Uuid = string

  /** The canonical text of a UUID always has 36 characters. */
  predicate IsUuid(text: Uuid) {
    |text| == 36
  }

  const RENEWAL_PREFIX := "renewal:"

  /** A non-negative number in decimal, padded with zeros to at least the given width. */
  function Decimal(n: nat, width: nat): (s: string)
    ensures |s| >= 1 && |s| >= width
    ensures '0' <= s[0] <= '9'
    decreases n, width
  {
    var digit := ['0' + (n % 10) as char];
    if n < 10 && width <= 1 then digit
    else Decimal(n / 10, if width == 0 then 0 else width - 1) + digit
  }

  /** A year, month or day field of Go's date layouts: a sign for negative numbers, then the padded
      magnitude. */
  function Field(n: int, width: nat): (s: string)
    ensures |s| >= 1
  {
    if n < 0 then "-" + Decimal(-n, width) else Decimal(n, width)
  }

  /** A date in the layout 2006-01-02. */
  function FormatDate(d: Date): string {
    Field(d.year, 4) + "-" + Field(d.month, 2) + "-" + Field(d.day, 2)
  }

  function RenewalKey(subscriptionKey: Uuid, periodEnd: Instant): string {
    RENEWAL_PREFIX + subscriptionKey + ":" + FormatDate(CivilDate(periodEnd.day))
  }

  predicate IsRenewalKey(key: string) {
    RENEWAL_PREFIX <= key
  }

  // ----- Rendering is injective -----

  /** The number a run of decimal digits stands for. */
  function DecimalValue(s: string): int {
    if s == [] then 0
    else 10 * DecimalValue(s[..|s| - 1]) + (s[|s| - 1] as int - '0' as int)
  }

  lemma {:induction false} DecimalReadsBack(n: nat, width: nat)
    ensures DecimalValue(Decimal(n, width)) == n
    decreases n, width
  {
    var s := Decimal(n, width);
    assert s[|s| - 1] as int - '0' as int == n % 10;
    if n < 10 && width <= 1 {
      assert s[..0] == [];
    } else {
      var w := if width == 0 then 0 else width - 1;
      DecimalReadsBack(n / 10, w);
      assert s[..|s| - 1] == Decimal(n / 10, w);
    }
  }

  lemma FieldInjective(a: int, b: int, width: nat)
    requires Field(a, width) == Field(b, width)
    ensures a == b
  {
    DecimalReadsBack(if a < 0 then -a else a, width);
    DecimalReadsBack(if b < 0 then -b else b, width);
    assert (a < 0) == (Field(a, width)[0] == '-');
    assert (b < 0) == (Field(b, width)[0] == '-');
    if a < 0 {
      assert Field(a, width)[1..] == Decimal(-a, width);
      assert Field(b, width)[1..] == Decimal(-b, width);
    }
  }

  lemma TwoDigits(n: nat)
    requires n < 100
    ensures |Field(n, 2)| == 2
  {
    assert Field(n, 2) == Decimal(n / 10, 1) + ['0' + (n % 10) as char];
    assert |Decimal(n / 10, 1)| == 1;
  }

  lemma FormatDateInjective(a: Date, b: Date)
    requires ValidDate(a) && ValidDate(b)
    requires FormatDate(a) == FormatDate(b)
    ensures a == b
  {
    hide Field, MonthLength;
    TwoDigits(a.month);
    TwoDigits(a.day);
    TwoDigits(b.month);
    TwoDigits(b.day);
    var n := |FormatDate(a)|;
    assert FormatDate(a)[n - 2..] == Field(a.day, 2);
    assert FormatDate(b)[n - 2..] == Field(b.day, 2);
    FieldInjective(a.day, b.day, 2);
    assert FormatDate(a)[n - 5..n - 3] == Field(a.month, 2);
    assert FormatDate(b)[n - 5..n - 3] == Field(b.month, 2);
    FieldInjective(a.month, b.month, 2);
    assert FormatDate(a)[..n - 6] == Field(a.year, 4);
    assert FormatDate(b)[..n - 6] == Field(b.year, 4);
    FieldInjective(a.year, b.year, 4);
  }

  predicate IsDigits(s: string) {
    forall c <- s :: '0' <= c <= '9'
  }

  lemma {:induction false} DecimalFits(n: nat, width: nat, limit: nat)
    requires n < limit && (if width == 0 then limit <= 1 else limit == Pow10(width))
    ensures IsDigits(Decimal(n, width)) && (width > 0 ==> |Decimal(n, width)| == width)
    decreases width
  {
    if width <= 1 {
      assert Pow10(1) == 10 * Pow10(0);
    } else {
      DecimalFits(n / 10, width - 1, Pow10(width - 1));
    }
  }

  function Pow10(n: nat): nat {
    if n == 0 then 1 else 10 * Pow10(n - 1)
  }

  /** The text of a date in years 0 to 9999: four digits of the year, two of the month and two of the day,
      with dashes between them. */
  lemma FormatDateReads(d: Date)
    requires ValidDate(d) && 0 <= d.year <= 9999
    ensures var s := FormatDate(d);
            && |s| == 10 && s[4] == '-' && s[7] == '-'
            && IsDigits(s[..4]) && IsDigits(s[5..7]) && IsDigits(s[8..])
            && DecimalValue(s[..4]) == d.year && DecimalValue(s[5..7]) == d.month && DecimalValue(s[8..]) == d.day
  {
    hide Decimal, DecimalValue, MonthLength, IsDigits;
    assert Pow10(4) == 10000 && Pow10(2) == 100 by { PowersOfTen(); }
    DecimalFits(d.year, 4, 10000);
    DecimalFits(d.month, 2, 100);
    DecimalFits(d.day, 2, 100);
    DecimalReadsBack(d.year, 4);
    DecimalReadsBack(d.month, 2);
    DecimalReadsBack(d.day, 2);
    var s := FormatDate(d);
    assert s[..4] == Decimal(d.year, 4) && s[5..7] == Decimal(d.month, 2) && s[8..] == Decimal(d.day, 2);
  }

  lemma PowersOfTen()
    ensures Pow10(2) == 100 && Pow10(4) == 10000
  {
    assert Pow10(2) == 10 * Pow10(1) == 100 * Pow10(0);
    assert Pow10(4) == 10 * Pow10(3) == 100 * Pow10(2);
  }

  /** The text of a renewal key: the prefix, the subscription key, a colon and the date of the period end. */
  lemma RenewalKeyReads(subscriptionKey: Uuid, periodEnd: Instant)
    requires IsUuid(subscriptionKey)
    ensures var key := RenewalKey(subscriptionKey, periodEnd);
            && |key| >= 45 && key[..8] == "renewal:" && key[8..44] == subscriptionKey && key[44] == ':'
            && key[45..] == FormatDate(CivilDate(periodEnd.day))
  {
    hide FormatDate, CivilDate;
  }

  /** Equal renewal keys come from the same subscription key and the same calendar date. */
  lemma RenewalKeyIdentifies(k1: Uuid, t1: Instant, k2: Uuid, t2: Instant)
    requires IsUuid(k1) && IsUuid(k2)
    requires RenewalKey(k1, t1) == RenewalKey(k2, t2)
    ensures k1 == k2 && CivilDate(t1.day) == CivilDate(t2.day)
  {
    hide FormatDate, CivilDate;
    var d1, d2 := CivilDate(t1.day), CivilDate(t2.day);
    var p := |RENEWAL_PREFIX|;
    assert RenewalKey(k1, t1)[p..p + 36] == k1;
    assert RenewalKey(k2, t2)[p..p + 36] == k2;
    assert RenewalKey(k1, t1)[p + 37..] == FormatDate(d1);
    assert RenewalKey(k2, t2)[p + 37..] == FormatDate(d2);
    FormatDateInjective(d1, d2);
  }

  /** Two periods of subscriptions with different keys, or two different periods of one
      subscription whose interval count is not zero, never share a renewal key. */
  lemma PeriodKeysInjective(k1: Uuid, anchor1: Instant, interval1: string, count1: int, i: nat,
                            k2: Uuid, anchor2: Instant, interval2: string, count2: int, j: nat)
    requires IsUuid(k1) && IsUuid(k2)
    requires RenewalKey(k1, Period(anchor1, interval1, count1, i))
             == RenewalKey(k2, Period(anchor2, interval2, count2, j))
    ensures k1 == k2
    ensures (anchor1, interval1, count1) == (anchor2, interval2, count2) && count1 != 0 ==> i == j
  {
    hide RenewalKey, CivilDate;
    RenewalKeyIdentifies(k1, Period(anchor1, interval1, count1, i), k2, Period(anchor2, interval2, count2, j));
    if (anchor1, interval1, count1) == (anchor2, interval2, count2) && count1 != 0 {
      PeriodDatesInjective(anchor1, interval1, count1, i, j);
    }
  }

  lemma RenewalKeyIsRenewal(k: Uuid, t: Instant)
    ensures IsRenewalKey(RenewalKey(k, t))
  {
  }
}
