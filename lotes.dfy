/** The batch list page (app/dashboard/lotes/page.tsx): the tenant's batches
    by expiry, each with its day count, a colour and a text chosen by two
    separate if-chains, and a relative-day label. */
module Lotes {
  import opened Base
  import opened Text
  import opened Db
  import Clock

  /** `where: { tenantId }, orderBy: { expirationDate: "asc" }`: here the
      batch's own tenant column decides. */
  function TenantLots(batches: seq<BatchRow>, tenantId: string): (r: seq<BatchRow>)
    ensures multiset(r) == multiset(Filter(batches, (b: BatchRow) => b.tenantId == tenantId))
    ensures forall i, j :: 0 <= i < j < |r| ==> r[i].expirationDate <= r[j].expirationDate
  {
    SortBy(Filter(batches, (b: BatchRow) => b.tenantId == tenantId), (b: BatchRow) => b.expirationDate)
  }

  lemma TenantLotsScoped(batches: seq<BatchRow>, tenantId: string, b: BatchRow)
    ensures b in TenantLots(batches, tenantId) <==> b in batches && b.tenantId == tenantId
  {
    var keep := (x: BatchRow) => x.tenantId == tenantId;
    FilterMembers(batches, keep);
    assert b in TenantLots(batches, tenantId) <==> b in multiset(Filter(batches, keep));
    if b in batches && keep(b) {
      var i :| 0 <= i < |batches| && batches[i] == b;
      assert b in Filter(batches, keep);
    }
  }

  /** `getDaysUntilExpiry`. */
  function DaysUntilExpiry(expiry: int, now: int): (r: int) {
    Clock.DaysUntil(expiry, now)
  }

  /** The four bands of the day count, most severe first. */
  datatype Band = Overdue | Critical | Attention | Fine

  function Severity(b: Band): (r: nat) {
    match b
    case Overdue => 3
    case Critical => 2
    case Attention => 1
    case Fine => 0
  }

  /** The reference banding: negative, 0..30, 31..60, above 60. */
  function BandOf(days: int): (b: Band)
    ensures b == Overdue <==> days < 0
    ensures b == Critical <==> 0 <= days <= 30
    ensures b == Attention <==> 31 <= days <= 60
    ensures b == Fine <==> days > 60
  {
    if days < 0 then Overdue else if days <= 30 then Critical else if days <= 60 then Attention else Fine
  }

  /** The four badge colours (the class strings are not modelled). */
  datatype Colour = Red | Orange | Yellow | Green

  /** `getStatusColor`. */
  function StatusColor(days: int): (r: Colour) {
    if days < 0 then Red
    else if days <= 30 then Orange
    else if days <= 60 then Yellow
    else Green
  }

  /** `getStatusText`. */
  function StatusText(days: int): (r: string) {
    if days < 0 then "Vencido"
    else if days <= 30 then "Crítico"
    else if days <= 60 then "Atenção"
    else "OK"
  }

  function ColourOf(b: Band): (r: Colour) {
    match b
    case Overdue => Red
    case Critical => Orange
    case Attention => Yellow
    case Fine => Green
  }

  function TextOf(b: Band): (r: string) {
    match b
    case Overdue => "Vencido"
    case Critical => "Crítico"
    case Attention => "Atenção"
    case Fine => "OK"
  }

  /** The colour and the text always describe the same band. */
  lemma ColourAndTextAgree(days: int)
    ensures StatusColor(days) == ColourOf(BandOf(days))
    ensures StatusText(days) == TextOf(BandOf(days))
  {
  }

  /** A later expiry is never more severe. */
  lemma BandsMonotone(d1: int, d2: int)
    requires d1 <= d2
    ensures Severity(BandOf(d2)) <= Severity(BandOf(d1))
  {
  }

  /** Banding by timestamps: overdue only a whole day or more after expiry,
      critical up to 30 days ahead, attention up to 60. */
  lemma BandBoundaries(expiry: int, now: int)
    ensures BandOf(DaysUntilExpiry(expiry, now)) == Overdue <==> expiry <= now - Clock.DayMs
    ensures BandOf(DaysUntilExpiry(expiry, now)) == Critical <==> now - Clock.DayMs < expiry <= now + 30 * Clock.DayMs
    ensures BandOf(DaysUntilExpiry(expiry, now)) == Attention <==>
      now + 30 * Clock.DayMs < expiry <= now + 60 * Clock.DayMs
  {
  }

  /** A batch that expired less than a day ago has day count 0 and reads
      "Crítico", not "Vencido". */
  lemma RecentlyExpiredIsCritical(expiry: int, now: int)
    requires now - Clock.DayMs < expiry < now
    ensures DaysUntilExpiry(expiry, now) == 0
    ensures StatusText(DaysUntilExpiry(expiry, now)) == "Crítico"
  {
  }

  /** `days >= 0 ? `${days}d` : `${Math.abs(days)}d atrás``. */
  function RelativeLabel(days: int): (r: string) {
    if days >= 0 then Decimal(days) + "d" else Decimal(-days) + "d atrás"
  }

  /** Different day counts get different labels. */
  lemma RelativeLabelInjective(d1: int, d2: int)
    requires RelativeLabel(d1) == RelativeLabel(d2)
    ensures d1 == d2
  {
    var l := RelativeLabel(d1);
    LabelEnd(d1);
    LabelEnd(d2);
    assert (d1 >= 0) == (d2 >= 0);
    if d1 >= 0 {
      assert Decimal(d1) == l[..|l| - 1] == Decimal(d2);
      RadixInjective(d1, d2, 10);
    } else {
      assert Decimal(-d1) == l[..|l| - 7] == Decimal(-d2);
      RadixInjective(-d1, -d2, 10);
    }
  }

  /** A label is the day count in decimal followed by "d" for today and the
      future, and the count of days passed followed by "d atrás" for the
      past; so the future ends in 'd' and the past in "d atrás". */
  lemma LabelEnd(days: int)
    ensures var l := RelativeLabel(days);
      && (days >= 0 ==> |l| >= 2 && l[|l| - 1] == 'd' && l[..|l| - 1] == Decimal(days))
      && (days < 0 ==> |l| >= 8 && l[|l| - 7..] == "d atrás" && l[..|l| - 7] == Decimal(-days))
  {
    var l := RelativeLabel(days);
    if days >= 0 {
      assert l[..|l| - 1] == Decimal(days);
    } else {
      assert l[|l| - 7..] == "d atrás";
      assert l[..|l| - 7] == Decimal(-days);
    }
  }
}
