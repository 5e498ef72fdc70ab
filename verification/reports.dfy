/** The rules of the reports view (`Reportes.jsx`): turning the server's
    per-period sales into a chronologically sorted series keyed by a
    `YYYY-MM-DD` date, the empty fallback report, and the guard that skips the
    request while a date of the range is missing. */
module Reports {
  import opened Wrappers
  import opened Seqs
  import opened Text

  // ---------------------------------------------------------------------------
  // Data

  /** The period select: "dia", "semana", "mes", "anio". */
  datatype Period = Day | Week | Month | Year

  /** `item.periodo`: the bucket's year and month, and its day when the bucket has one. */
  datatype PeriodKey = PeriodKey(anio: int, mes: int, dia: Option<int>)

  /** One entry of `ventas_por_periodo` as received. */
  datatype PeriodItem = PeriodItem(periodo: PeriodKey, inversion: int, generado: int, gananciaNeta: int)

  /** A calendar date: what a `fecha` text denotes. */
  datatype DateKey = DateKey(year: int, month: int, day: int)

  /** One point of the charted series; `fecha` is the date its text `FechaText` denotes. */
  datatype SeriesPoint = SeriesPoint(fecha: DateKey, inversion: int, generado: int, gananciaNeta: int)

  datatype TopSeller = TopSeller(nombre: string, vendidos: int)

  /** A report: three totals, the best sellers, and a series of type `S`. */
  datatype Report<S> = Report(
    inversionTotal: int,
    generadoTotal: int,
    gananciaNeta: int,
    top5: seq<TopSeller>,
    ventasPorPeriodo: S)

  // ---------------------------------------------------------------------------
  // The date key of a point

  /** `dia || 1`: a missing or zero day is the first of the month. */
  function DayOrOne(dia: Option<int>): (d: int)
    ensures dia.None? || dia.value == 0 ==> d == 1
    ensures dia.Some? && dia.value != 0 ==> d == dia.value
    ensures d != 0
  {
    match dia
    case None => 1
    case Some(v) => if v == 0 then 1 else v
  }

  /** `String(n).padStart(2, "0")`. */
  function Pad2(n: int): string {
    PadStart(IntToString(n), 2, '0')
  }

  /** Dates whose key has the `YYYY-MM-DD` shape: a four-digit year, a month 1..12
      and a day 1..31. Days past the end of their month are not excluded. */
  predicate IsCalendarKey(k: DateKey) {
    1000 <= k.year <= 9999 && 1 <= k.month <= 12 && 1 <= k.day <= 31
  }

  /** The text of a date: the year as written, then month and day padded to two
      digits. For a calendar date that is four digits of the year, a dash, two of
      the month, a dash and two of the day. */
  function FechaText(k: DateKey): (r: string)
    ensures IsCalendarKey(k) ==>
      && |r| == 10 && r[4] == '-' && r[7] == '-'
      && AllDigits(r[..4]) && ParseNat(r[..4]) == k.year
      && AllDigits(r[5..7]) && ParseNat(r[5..7]) == k.month
      && AllDigits(r[8..]) && ParseNat(r[8..]) == k.day
  {
    var y := IntToString(k.year);
    var m := Pad2(k.month);
    var d := Pad2(k.day);
    if IsCalendarKey(k) then
      Pad2Digits(k.month);
      Pad2Digits(k.day);
      DashedParts(y, m, d);
      y + "-" + m + "-" + d
    else
      y + "-" + m + "-" + d
  }

  /** Groups of widths 4, 2 and 2 joined by dashes sit at positions 0, 5 and 8. */
  lemma DashedParts(y: string, m: string, d: string)
    requires |y| == 4 && |m| == 2 && |d| == 2
    ensures var s := y + "-" + m + "-" + d;
      && |s| == 10 && s[4] == '-' && s[7] == '-'
      && s[..4] == y && s[5..7] == m && s[8..] == d
  {
    var s := y + "-" + m + "-" + d;
    assert s[..4] == y;
    assert s[5..7] == m;
    assert s[8..] == d;
  }

  /** Reading a `YYYY-MM-DD` text back into its date; `None` for any other shape. */
  function ParseIsoDate(s: string): Option<DateKey> {
    if |s| == 10 && AllDigits(s[..4]) && s[4] == '-' && AllDigits(s[5..7]) && s[7] == '-' && AllDigits(s[8..])
    then Some(DateKey(ParseNat(s[..4]), ParseNat(s[5..7]), ParseNat(s[8..])))
    else None
  }

  /** A one- or two-digit number padded to two digits reads back as itself. */
  lemma Pad2Digits(n: int)
    requires 0 <= n < 100
    ensures |Pad2(n)| == 2 && AllDigits(Pad2(n)) && ParseNat(Pad2(n)) == n
  {
    var t := NatToString(n);
    if n < 10 {
      assert Pad2(n) == "0" + t;
      ParseNatLeadingZero(t);
    }
  }

  /** Three digit groups of widths 4, 2 and 2 joined by dashes read back as their values. */
  lemma ParseIsoDateOfParts(y: string, m: string, d: string)
    requires |y| == 4 && |m| == 2 && |d| == 2
    requires AllDigits(y) && AllDigits(m) && AllDigits(d)
    ensures ParseIsoDate(y + "-" + m + "-" + d) == Some(DateKey(ParseNat(y), ParseNat(m), ParseNat(d)))
  {
    var s := y + "-" + m + "-" + d;
    DashedParts(y, m, d);
    assert |s| == 10 && s[4] == '-' && s[7] == '-';
    assert AllDigits(s[..4]) && AllDigits(s[5..7]) && AllDigits(s[8..]);
  }

  /** The text of a calendar date is exactly ten characters and reads back as that
      date, so the series order by date is the order of the dates the texts denote. */
  lemma FechaTextRoundTrip(k: DateKey)
    requires IsCalendarKey(k)
    ensures |FechaText(k)| == 10
    ensures ParseIsoDate(FechaText(k)) == Some(k)
  {
    Pad2Digits(k.month);
    Pad2Digits(k.day);
    ParseIsoDateOfParts(IntToString(k.year), Pad2(k.month), Pad2(k.day));
  }

  /** Distinct calendar dates have distinct texts. */
  lemma FechaTextInjective(a: DateKey, b: DateKey)
    requires IsCalendarKey(a) && IsCalendarKey(b)
    ensures FechaText(a) == FechaText(b) ==> a == b
  {
    FechaTextRoundTrip(a);
    FechaTextRoundTrip(b);
  }

  /** `ventas_por_periodo.map(...)` on one item: the date of its bucket, the day
      defaulting to the first, and its three amounts unchanged. */
  function ToPoint(item: PeriodItem): (p: SeriesPoint)
    ensures p.fecha.year == item.periodo.anio && p.fecha.month == item.periodo.mes
    ensures p.fecha.day == DayOrOne(item.periodo.dia)
    ensures p.inversion == item.inversion && p.generado == item.generado
    ensures p.gananciaNeta == item.gananciaNeta
  {
    SeriesPoint(
      DateKey(item.periodo.anio, item.periodo.mes, DayOrOne(item.periodo.dia)),
      item.inversion, item.generado, item.gananciaNeta)
  }

  /** A bucket without a day (or with day 0) is dated the first: its text ends in "-01". */
  lemma MissingDayIsFirst(item: PeriodItem)
    requires item.periodo.dia.None? || item.periodo.dia == Some(0)
    ensures var s := FechaText(ToPoint(item).fecha); |s| >= 3 && s[|s| - 3..] == "-01"
  {
    var p := ToPoint(item);
    assert p.fecha.day == 1;
    PadOne();
    var s := FechaText(p.fecha);
    var prefix := IntToString(p.fecha.year) + "-" + Pad2(p.fecha.month);
    assert s == prefix + "-" + Pad2(1);
    assert s == prefix + "-01";
  }

  /** The first of the month is written "01". */
  lemma PadOne()
    ensures Pad2(1) == "01"
  {
    assert NatToString(1) == "1";
    assert IntToString(1) == "1";
    assert PadStart("1", 2, '0') == Repeat('0', 1) + "1";
  }

  function MapPoints(items: seq<PeriodItem>): (r: seq<SeriesPoint>)
    ensures |r| == |items| && forall i :: 0 <= i < |items| ==> r[i] == ToPoint(items[i])
  {
    seq(|items|, i requires 0 <= i < |items| => ToPoint(items[i]))
  }

  // ---------------------------------------------------------------------------
  // Chronological, stable sort

  /** Strictly earlier: by year, then month, then day. */
  predicate Earlier(a: DateKey, b: DateKey) {
    || a.year < b.year
    || (a.year == b.year && a.month < b.month)
    || (a.year == b.year && a.month == b.month && a.day < b.day)
  }

  /** Not later. */
  predicate NotLater(a: DateKey, b: DateKey) {
    !Earlier(b, a)
  }

  /** Ascending by date. */
  predicate Sorted(s: seq<SeriesPoint>) {
    forall i, j :: 0 <= i < j < |s| ==> NotLater(s[i].fecha, s[j].fecha)
  }

  /** The points dated `k`, in their order in `s`. */
  function WithDate(s: seq<SeriesPoint>, k: DateKey): seq<SeriesPoint> {
    Filter(s, (p: SeriesPoint) => p.fecha == k)
  }

  /** A point not later than every point of a sorted list can go in front of it. */
  lemma SortedCons(x: SeriesPoint, s: seq<SeriesPoint>)
    requires Sorted(s)
    requires forall y :: y in s ==> NotLater(x.fecha, y.fecha)
    ensures Sorted([x] + s)
  {
    var r := [x] + s;
    forall i, j | 0 <= i < j < |r|
      ensures NotLater(r[i].fecha, r[j].fecha)
    {
      if i == 0 {
        assert r[j] == s[j - 1];
        assert r[j] in s;
      } else {
        assert r[i] == s[i - 1] && r[j] == s[j - 1];
      }
    }
  }

  /** Inserting `x` in front of the first point that is not earlier than it. */
  function Insert(x: SeriesPoint, s: seq<SeriesPoint>): (r: seq<SeriesPoint>)
    ensures |r| == |s| + 1
    ensures multiset(r) == multiset(s) + multiset{x}
    decreases |s|
  {
    if |s| == 0 then [x]
    else if Earlier(s[0].fecha, x.fecha) then
      assert s == [s[0]] + s[1..];
      [s[0]] + Insert(x, s[1..])
    else [x] + s
  }

  /** Inserting into a sorted list keeps it sorted. */
  lemma {:induction false} InsertSorted(x: SeriesPoint, s: seq<SeriesPoint>)
    requires Sorted(s)
    ensures Sorted(Insert(x, s))
    decreases |s|
  {
    if |s| == 0 {
    } else if Earlier(s[0].fecha, x.fecha) {
      var rest := Insert(x, s[1..]);
      assert s == [s[0]] + s[1..];
      assert Sorted(s[1..]);
      InsertSorted(x, s[1..]);
      forall y | y in rest
        ensures NotLater(s[0].fecha, y.fecha)
      {
        assert y in multiset(rest);
        if y != x {
          assert y in s[1..];
          var j :| 0 <= j < |s[1..]| && s[1..][j] == y;
          assert s[j + 1] == y;
        }
      }
      SortedCons(s[0], rest);
    } else {
      forall y | y in s
        ensures NotLater(x.fecha, y.fecha)
      {
        HeadNotLater(s, y);
      }
      SortedCons(x, s);
    }
  }

  /** Inserting `x` puts it in front of the points of its own date and leaves the
      points of every other date as they were. */
  lemma {:induction false} InsertWithDate(x: SeriesPoint, s: seq<SeriesPoint>, k: DateKey)
    ensures WithDate(Insert(x, s), k) == (if x.fecha == k then [x] + WithDate(s, k) else WithDate(s, k))
    decreases |s|
  {
    if |s| == 0 {
      FilterCons(x, s, (p: SeriesPoint) => p.fecha == k);
      assert [x] + s == [x];
    } else if Earlier(s[0].fecha, x.fecha) {
      var rest := Insert(x, s[1..]);
      assert s == [s[0]] + s[1..];
      InsertWithDate(x, s[1..], k);
      FilterCons(s[0], rest, (p: SeriesPoint) => p.fecha == k);
      FilterCons(s[0], s[1..], (p: SeriesPoint) => p.fecha == k);
    } else {
      FilterCons(x, s, (p: SeriesPoint) => p.fecha == k);
    }
  }

  /** The series sort (`Array.prototype.sort` is stable): ascending by date, a
      permutation of its input, and the points of any one date keep their input order. */
  function SortByDate(s: seq<SeriesPoint>): (r: seq<SeriesPoint>)
    ensures |r| == |s|
    ensures multiset(r) == multiset(s)
    ensures Sorted(r)
    ensures forall k :: WithDate(r, k) == WithDate(s, k)
    decreases |s|
  {
    if |s| == 0 then []
    else
      var rest := SortByDate(s[1..]);
      var r := Insert(s[0], rest);
      assert s == [s[0]] + s[1..];
      InsertSorted(s[0], rest);
      assert forall k :: WithDate(r, k) == WithDate(s, k) by {
        forall k ensures WithDate(r, k) == WithDate(s, k) {
          InsertWithDate(s[0], rest, k);
          FilterCons(s[0], s[1..], (p: SeriesPoint) => p.fecha == k);
        }
      }
      r
  }

  /** In a sorted list, no point is earlier than the first. */
  lemma HeadNotLater(r: seq<SeriesPoint>, y: SeriesPoint)
    requires Sorted(r) && y in r
    ensures NotLater(r[0].fecha, y.fecha)
  {
    var j :| 0 <= j < |r| && r[j] == y;
    if j > 0 {
      assert NotLater(r[0].fecha, r[j].fecha);
    }
  }

  /** The first point of a list is the first point of its own date. */
  lemma HeadFirstOfDate(r: seq<SeriesPoint>)
    requires |r| > 0
    ensures |WithDate(r, r[0].fecha)| > 0 && WithDate(r, r[0].fecha)[0] == r[0]
  {
    assert r == [r[0]] + r[1..];
    FilterCons(r[0], r[1..], (p: SeriesPoint) => p.fecha == r[0].fecha);
  }

  /** A list without a point for any date is empty. */
  lemma NoDatesMeansEmpty(r: seq<SeriesPoint>)
    ensures (forall k :: WithDate(r, k) == []) ==> r == []
  {
    if |r| > 0 {
      HeadFirstOfDate(r);
    }
  }

  /** Two non-empty sorted lists with the same points for the dates of their heads
      start with the same point: neither head can be later than the other's, so
      they share a date, and each is the first point of that date. */
  lemma SameHead(r1: seq<SeriesPoint>, r2: seq<SeriesPoint>)
    requires Sorted(r1) && Sorted(r2) && |r1| > 0 && |r2| > 0
    ensures
      && WithDate(r1, r1[0].fecha) == WithDate(r2, r1[0].fecha)
      && WithDate(r1, r2[0].fecha) == WithDate(r2, r2[0].fecha)
      ==> r1[0] == r2[0]
  {
    if && WithDate(r1, r1[0].fecha) == WithDate(r2, r1[0].fecha)
       && WithDate(r1, r2[0].fecha) == WithDate(r2, r2[0].fecha) {
      HeadFirstOfDate(r1);
      HeadFirstOfDate(r2);
      assert r1[0] in WithDate(r2, r1[0].fecha);
      assert r2[0] in WithDate(r1, r2[0].fecha);
      HeadNotLater(r1, r2[0]);
      HeadNotLater(r2, r1[0]);
      assert r1[0].fecha == r2[0].fecha;
    }
  }

  /** Removing a shared head keeps the points of a date equal. */
  lemma SameTail(r1: seq<SeriesPoint>, r2: seq<SeriesPoint>, k: DateKey)
    requires |r1| > 0 && |r2| > 0 && r1[0] == r2[0]
    requires WithDate(r1, k) == WithDate(r2, k)
    ensures WithDate(r1[1..], k) == WithDate(r2[1..], k)
  {
    assert r1 == [r1[0]] + r1[1..];
    assert r2 == [r2[0]] + r2[1..];
    FilterCons(r1[0], r1[1..], (p: SeriesPoint) => p.fecha == k);
    FilterCons(r2[0], r2[1..], (p: SeriesPoint) => p.fecha == k);
  }

  /** A sorted list is determined by what it holds for each date: two sorted lists
      with the same points, in the same order, for every date are equal. So any
      stable sort by date, the browser's included, gives exactly `SortByDate`. */
  lemma {:induction false} StableSortUnique(r1: seq<SeriesPoint>, r2: seq<SeriesPoint>)
    requires Sorted(r1) && Sorted(r2)
    requires forall k :: WithDate(r1, k) == WithDate(r2, k)
    ensures r1 == r2
    decreases |r1|
  {
    if |r1| == 0 {
      forall k ensures WithDate(r2, k) == [] { assert WithDate(r1, k) == []; }
      NoDatesMeansEmpty(r2);
    } else if |r2| == 0 {
      forall k ensures WithDate(r1, k) == [] { assert WithDate(r2, k) == []; }
      NoDatesMeansEmpty(r1);
    } else {
      SameHead(r1, r2);
      forall k
        ensures WithDate(r1[1..], k) == WithDate(r2[1..], k)
      {
        SameTail(r1, r2, k);
      }
      assert Sorted(r1[1..]) && Sorted(r2[1..]);
      StableSortUnique(r1[1..], r2[1..]);
      assert r1 == [r1[0]] + r1[1..];
      assert r2 == [r2[0]] + r2[1..];
    }
  }

  /** Any sorted list holding, for every date, the points of `s` with that date in
      their order in `s` is `SortByDate(s)`. */
  lemma StableSortCharacterized(s: seq<SeriesPoint>, r: seq<SeriesPoint>)
    requires Sorted(r)
    requires forall k :: WithDate(r, k) == WithDate(s, k)
    ensures r == SortByDate(s)
  {
    StableSortUnique(r, SortByDate(s));
  }

  /** The transformation of `ventas_por_periodo`: one point per item, sorted by
      date, a permutation of the mapped items, equal dates in input order. */
  function TransformSeries(items: seq<PeriodItem>): (r: seq<SeriesPoint>)
    ensures |r| == |items|
    ensures multiset(r) == multiset(MapPoints(items))
    ensures Sorted(r)
    ensures forall k :: WithDate(r, k) == WithDate(MapPoints(items), k)
  {
    SortByDate(MapPoints(items))
  }

  // ---------------------------------------------------------------------------
  // Loading

  /** A point in time chosen in a date picker. */
  type Instant = int

  /** `GET /reportes/rango?desde&hasta&periodo`. */
  datatype ReportQuery = ReportQuery(desde: Instant, hasta: Instant, periodo: Period)

  /** What the request produced: a failure (network, status, unreadable body) or a
      parsed body whose `ventas_por_periodo` may be missing. */
  datatype Fetched = FetchFailed | Received(data: Report<Option<seq<PeriodItem>>>)

  /** The report shown after a failed load. */
  const Fallback: Report<seq<SeriesPoint>> := Report(0, 0, 0, [], [])

  /** What the view stores for a response: the body with only the series replaced by
      its transformation; on any failure, a missing series included (the `map` then
      throws), the fallback with all totals 0 and nothing to chart. */
  function ApplyResponse(f: Fetched): (r: Report<seq<SeriesPoint>>)
    ensures (f.FetchFailed? || f.data.ventasPorPeriodo.None?) ==>
      && r.inversionTotal == 0 && r.generadoTotal == 0 && r.gananciaNeta == 0
      && r.top5 == [] && r.ventasPorPeriodo == []
    ensures f.Received? && f.data.ventasPorPeriodo.Some? ==>
      && r.inversionTotal == f.data.inversionTotal
      && r.generadoTotal == f.data.generadoTotal
      && r.gananciaNeta == f.data.gananciaNeta
      && r.top5 == f.data.top5
      && r.ventasPorPeriodo == TransformSeries(f.data.ventasPorPeriodo.value)
    ensures Sorted(r.ventasPorPeriodo)
  {
    match f
    case FetchFailed => Fallback
    case Received(data) =>
      match data.ventasPorPeriodo
      case None => Fallback
      case Some(items) =>
        Report(data.inversionTotal, data.generadoTotal, data.gananciaNeta, data.top5, TransformSeries(items))
  }

  /** The view's stored report; `None` shows "Cargando...". */
  datatype ReportsView = ReportsView(report: Option<Report<seq<SeriesPoint>>>)

  datatype Reload = Reload(view: ReportsView, query: Option<ReportQuery>)

  /** `cargarReportes`: with either date missing nothing is requested and the view is
      unchanged; otherwise the range and period are requested and the response
      (or the fallback) is stored. */
  function LoadReports(
    view: ReportsView, fechaInicio: Option<Instant>, fechaFin: Option<Instant>,
    periodo: Period, fetched: Fetched): (r: Reload)
    ensures r.query.None? <==> fechaInicio.None? || fechaFin.None?
    ensures r.query.None? ==> r.view == view
    ensures r.query.Some? ==>
      && r.query.value == ReportQuery(fechaInicio.value, fechaFin.value, periodo)
      && r.view.report == Some(ApplyResponse(fetched))
  {
    if fechaInicio.None? || fechaFin.None? then Reload(view, None)
    else
      Reload(ReportsView(Some(ApplyResponse(fetched))),
             Some(ReportQuery(fechaInicio.value, fechaFin.value, periodo)))
  }

  /** Whatever the answer, a loaded report's series is in date order. */
  lemma LoadedSeriesSorted(
    view: ReportsView, fechaInicio: Option<Instant>, fechaFin: Option<Instant>,
    periodo: Period, fetched: Fetched)
    requires view.report.Some? ==> Sorted(view.report.value.ventasPorPeriodo)
    ensures var r := LoadReports(view, fechaInicio, fechaFin, periodo, fetched);
      r.view.report.Some? ==> Sorted(r.view.report.value.ventasPorPeriodo)
  {
  }
}
