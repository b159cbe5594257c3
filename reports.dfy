/** The dashboard reports (`ReportesService`): the month KPIs, the top-five mines by
    shipped value, and the six-month spending/sales trend. Rows arrive as the database
    client returns them; dates are local calendar moments, as `getFullYear`,
    `getMonth` and `new Date(y, m, d)` see them. */
module Reports {
  import opened Common
  import opened Text
  import D = Dispatches
  import R = Requirements

  type Month = m: int | 0 <= m < 12
  type Day = d: int | 1 <= d <= 31 witness 1
  type Millis = t: int | 0 <= t < 86400000

  /** A local date and time; `month` counts from 0 as `getMonth` does. */
  datatype Moment = Moment(year: int, month: Month, day: Day, ms: Millis)

  /** `a <= b` on dates. */
  predicate NotAfter(a: Moment, b: Moment) {
    || a.year < b.year
    || (a.year == b.year && a.month < b.month)
    || (a.year == b.year && a.month == b.month && a.day < b.day)
    || (a.year == b.year && a.month == b.month && a.day == b.day && a.ms <= b.ms)
  }

  predicate IsLeap(y: int) {
    (y % 4 == 0 && y % 100 != 0) || y % 400 == 0
  }

  function DaysIn(y: int, m: Month): (d: Day)
    ensures 28 <= d <= 31
  {
    if m == 1 then (if IsLeap(y) then 29 else 28)
    else if m == 3 || m == 5 || m == 8 || m == 10 then 30
    else 31
  }

  // ---------------------------------------------------------------- month window

  /** `new Date(y, m, 1)`: the earliest moment of the month. */
  function StartOfMonth(now: Moment): (r: Moment)
    ensures r.year == now.year && r.month == now.month
    ensures forall t: Moment :: t.year == now.year && t.month == now.month ==> NotAfter(r, t)
  {
    Moment(now.year, now.month, 1, 0)
  }

  /** `new Date(y, m + 1, 0)`: midnight at the start of the month's last day, so every
      earlier day of the month is before it and the rest of the last day after it. */
  function EndOfMonthAsWritten(now: Moment): (r: Moment)
    ensures r.year == now.year && r.month == now.month
    ensures forall t: Moment :: t.year == now.year && t.month == now.month && t.day < DaysIn(now.year, now.month)
                                ==> NotAfter(t, r)
    ensures forall t: Moment :: t.year == now.year && t.month == now.month && t.day == DaysIn(now.year, now.month)
                                ==> NotAfter(r, t) && (NotAfter(t, r) <==> t.ms == 0)
  {
    Moment(now.year, now.month, DaysIn(now.year, now.month), 0)
  }

  /** The `gte: startOfMonth, lte: endOfMonth` filter of `getKpis` as written: the
      month up to the last day's first midnight, and nothing of that day after it. */
  predicate InWindowAsWritten(t: Moment, now: Moment)
    ensures InWindowAsWritten(t, now) <==>
      t.year == now.year && t.month == now.month
      && (t.day < DaysIn(now.year, now.month) || (t.day == DaysIn(now.year, now.month) && t.ms == 0))
  {
    NotAfter(StartOfMonth(now), t) && NotAfter(t, EndOfMonthAsWritten(now))
  }

  /** Any row stamped after midnight on the month's last day is in the month but
      outside the window as written. */
  lemma AsWrittenWindowDropsLastDay(now: Moment)
    ensures var t := Moment(now.year, now.month, DaysIn(now.year, now.month), 1);
      InMonth(t, now) && !InWindowAsWritten(t, now)
  {
  }

  /** The window `getKpis` means: the current calendar month, i.e. the half-open range
      from its first midnight to the next month's. */
  predicate InMonth(t: Moment, now: Moment)
    ensures InMonth(t, now) <==> NotAfter(StartOfMonth(now), t) && !NotAfter(StartOfNextMonth(now), t)
  {
    t.year == now.year && t.month == now.month
  }

  function StartOfNextMonth(now: Moment): Moment {
    if now.month == 11 then Moment(now.year + 1, 0, 1, 0) else Moment(now.year, now.month + 1, 1, 0)
  }

  /** The month is the half-open range from its first midnight to the next month's,
      and the window as written lies inside it. */
  lemma MonthIsHalfOpenRange(t: Moment, now: Moment)
    ensures InMonth(t, now) <==> NotAfter(StartOfMonth(now), t) && !NotAfter(StartOfNextMonth(now), t)
    ensures InWindowAsWritten(t, now) ==> InMonth(t, now)
  {
  }

  // ---------------------------------------------------------------- KPIs

  /** A `productos` row: `stock_actual` and `precio_venta_base`, either of which may be null. */
  datatype ProductRow = ProductRow(stock: Option<int>, price: Option<real>)

  /** A `requerimiento_detalles` row with its header's status and issue date. */
  datatype RequirementLine = RequirementLine(requested: int, supplierPrice: real, status: R.Status, issuedAt: Option<Moment>)

  /** A `despacho_detalles` row with its product's base price and its header's status,
      creation date and mine name. */
  datatype DispatchLine = DispatchLine(quantity: int, price: Option<real>, status: D.Status, createdAt: Option<Moment>, mine: string)

  /** A `despachos` header. */
  datatype DispatchRow = DispatchRow(status: D.Status, createdAt: Option<Moment>)

  predicate Shipped(s: D.Status) {
    s == D.EN_TRANSITO || s == D.ENTREGADO
  }

  /** What one product row adds to `valorInventario`: a missing stock or price is 0. */
  function StockValue(p: ProductRow): real {
    (OrElse(p.stock, 0) as real) * OrElse(p.price, 0.0)
  }

  /** `valorInventario`, the `reduce` over the product rows; rows missing a stock or a
      price leave it at 0. */
  function InventoryValue(ps: seq<ProductRow>): (r: real)
    ensures (forall i {:trigger Unpriced(ps[i])} :: 0 <= i < |ps| ==> Unpriced(ps[i])) ==> r == 0.0
  {
    if ps == [] then 0.0
    else
      var last := ps[|ps| - 1];
      assert forall i :: 0 <= i < |ps| - 1 ==> ps[..|ps| - 1][i] == ps[i];
      assert Unpriced(last) ==> StockValue(last) == 0.0;
      InventoryValue(ps[..|ps| - 1]) + StockValue(last)
  }

  /** A row missing its stock or its price. */
  predicate Unpriced(p: ProductRow) {
    p.stock.None? || p.price.None?
  }

  /** The rows that have both a stock and a price. */
  function Priced(ps: seq<ProductRow>): (r: seq<ProductRow>)
    ensures forall i :: 0 <= i < |r| ==> r[i].stock.Some? && r[i].price.Some?
  {
    if ps == [] then []
    else
      var last := ps[|ps| - 1];
      Priced(ps[..|ps| - 1]) + (if last.stock.Some? && last.price.Some? then [last] else [])
  }

  /** Rows missing a stock or a price contribute nothing: the value is the sum over the
      rows that have both. */
  lemma {:induction false} InventoryValueOfPriced(ps: seq<ProductRow>)
    ensures InventoryValue(ps) == InventoryValue(Priced(ps))
  {
    if ps != [] {
      var init := ps[..|ps| - 1];
      var last := ps[|ps| - 1];
      InventoryValueOfPriced(init);
      assert InventoryValue(ps) == InventoryValue(init) + StockValue(last);
      if last.stock.Some? && last.price.Some? {
        var q := Priced(init) + [last];
        assert Priced(ps) == q;
        assert q[..|q| - 1] == Priced(init) && q[|q| - 1] == last;
        assert InventoryValue(q) == InventoryValue(Priced(init)) + StockValue(last);
      } else {
        assert Priced(ps) == Priced(init) + [] == Priced(init);
        assert StockValue(last) == 0.0;
      }
    }
  }

  /** With no negative stock or price, the inventory value is not negative. */
  lemma {:induction false} InventoryValueNonNegative(ps: seq<ProductRow>)
    requires forall i :: 0 <= i < |ps| ==> OrElse(ps[i].stock, 0) >= 0 && OrElse(ps[i].price, 0.0) >= 0.0
    ensures InventoryValue(ps) >= 0.0
  {
    if ps != [] {
      InventoryValueNonNegative(ps[..|ps| - 1]);
      var p := ps[|ps| - 1];
      assert (OrElse(p.stock, 0) as real) >= 0.0;
    }
  }

  /** Which month window the KPI queries use: the one `getKpis` builds
      (`gte startOfMonth, lte endOfMonth`) or the whole calendar month it means. */
  datatype Window = AsWritten | CalendarMonth

  predicate InWindow(w: Window, t: Moment, now: Moment) {
    match w
    case AsWritten => InWindowAsWritten(t, now)
    case CalendarMonth => InMonth(t, now)
  }

  /** A requirement line counted by `gastoRequerimientos`. */
  predicate SpentThisMonth(l: RequirementLine, now: Moment, w: Window) {
    l.status != R.ANULADO && l.issuedAt.Some? && InWindow(w, l.issuedAt.value, now)
  }

  /** `gastoRequerimientos`: requested quantity times supplier price over the lines
      counted; 0 when none is. */
  function Spending(ls: seq<RequirementLine>, now: Moment, w: Window): (r: real)
    ensures (forall i {:trigger SpentThisMonth(ls[i], now, w)} :: 0 <= i < |ls| ==> !SpentThisMonth(ls[i], now, w)) ==> r == 0.0
  {
    if ls == [] then 0.0 else Spending(ls[..|ls| - 1], now, w) + SpentValue(ls[|ls| - 1], now, w)
  }

  /** What one requirement line adds to `gastoRequerimientos`. */
  function SpentValue(l: RequirementLine, now: Moment, w: Window): real {
    if SpentThisMonth(l, now, w) then l.requested as real * l.supplierPrice else 0.0
  }

  /** Spending is additive over row lists, so a cancelled line or one from another month
      never moves it. */
  lemma {:induction false} SpendingSplits(a: seq<RequirementLine>, b: seq<RequirementLine>, now: Moment, w: Window)
    ensures Spending(a + b, now, w) == Spending(a, now, w) + Spending(b, now, w)
    decreases |b|
  {
    if b == [] {
      assert a + b == a;
    } else {
      var init := b[..|b| - 1];
      var x := SpentValue(b[|b| - 1], now, w);
      assert (a + b)[..|a + b| - 1] == a + init;
      assert (a + b)[|a + b| - 1] == b[|b| - 1];
      assert Spending(a + b, now, w) == Spending(a + init, now, w) + x;
      assert Spending(b, now, w) == Spending(init, now, w) + x;
      SpendingSplits(a, init, now, w);
    }
  }

  /** A dispatch line counted by `valorDespachado`. */
  predicate ShippedThisMonth(l: DispatchLine, now: Moment, w: Window) {
    Shipped(l.status) && l.createdAt.Some? && InWindow(w, l.createdAt.value, now)
  }

  /** `cantidad_despachada * (Number(precio) || 0)` */
  function LineValue(l: DispatchLine): real {
    l.quantity as real * OrElse(l.price, 0.0)
  }

  /** `valorDespachado`: the line values of the lines counted; 0 when none is. */
  function Dispatched(ls: seq<DispatchLine>, now: Moment, w: Window): (r: real)
    ensures (forall i {:trigger ShippedThisMonth(ls[i], now, w)} :: 0 <= i < |ls| ==> !ShippedThisMonth(ls[i], now, w)) ==> r == 0.0
  {
    if ls == [] then 0.0 else Dispatched(ls[..|ls| - 1], now, w) + ShippedValue(ls[|ls| - 1], now, w)
  }

  /** What one dispatch line adds to `valorDespachado`. */
  function ShippedValue(l: DispatchLine, now: Moment, w: Window): real {
    if ShippedThisMonth(l, now, w) then LineValue(l) else 0.0
  }

  lemma {:induction false} DispatchedSplits(a: seq<DispatchLine>, b: seq<DispatchLine>, now: Moment, w: Window)
    ensures Dispatched(a + b, now, w) == Dispatched(a, now, w) + Dispatched(b, now, w)
    decreases |b|
  {
    if b == [] {
      assert a + b == a;
    } else {
      var init := b[..|b| - 1];
      var x := ShippedValue(b[|b| - 1], now, w);
      assert (a + b)[..|a + b| - 1] == a + init;
      assert (a + b)[|a + b| - 1] == b[|b| - 1];
      assert Dispatched(a + b, now, w) == Dispatched(a + init, now, w) + x;
      assert Dispatched(b, now, w) == Dispatched(init, now, w) + x;
      DispatchedSplits(a, init, now, w);
    }
  }

  /** A `despachos` row counted by `cantidadDespachos`. */
  predicate CountedThisMonth(d: DispatchRow, now: Moment, w: Window) {
    Shipped(d.status) && d.createdAt.Some? && InWindow(w, d.createdAt.value, now)
  }

  /** `cantidadDespachos` */
  function DispatchCount(ds: seq<DispatchRow>, now: Moment, w: Window): (n: nat)
    ensures n <= |ds|
    ensures n == |ds| <==> forall i :: 0 <= i < |ds| ==> CountedThisMonth(ds[i], now, w)
    ensures n == 0 <==> forall i :: 0 <= i < |ds| ==> !CountedThisMonth(ds[i], now, w)
  {
    if ds == [] then 0
    else
      var d := ds[|ds| - 1];
      var init := DispatchCount(ds[..|ds| - 1], now, w);
      assert forall i :: 0 <= i < |ds| - 1 ==> ds[..|ds| - 1][i] == ds[i];
      init + (if CountedThisMonth(d, now, w) then 1 else 0)
  }

  datatype Kpis = Kpis(inventoryValue: real, requirementSpending: real, dispatchedValue: real, dispatchCount: nat, netFlow: real)

  /** `getKpis` over the month window `w`: `AsWritten` is the program as it stands,
      `CalendarMonth` the month it means. */
  function GetKpis(products: seq<ProductRow>, requirementLines: seq<RequirementLine>,
                   dispatchLines: seq<DispatchLine>, dispatches: seq<DispatchRow>, now: Moment, w: Window): (k: Kpis)
    ensures k.inventoryValue == InventoryValue(Priced(products))
    ensures k.requirementSpending == Spending(requirementLines, now, w)
    ensures k.dispatchedValue == Dispatched(dispatchLines, now, w)
    ensures k.dispatchCount == DispatchCount(dispatches, now, w)
    ensures k.netFlow == k.dispatchedValue - k.requirementSpending
  {
    InventoryValueOfPriced(products);
    var spent := Spending(requirementLines, now, w);
    var shipped := Dispatched(dispatchLines, now, w);
    Kpis(InventoryValue(products), spent, shipped, DispatchCount(dispatches, now, w), shipped - spent)
  }

  /** Rows from another month or with an excluded status leave every KPI as it was. */
  lemma KpisIgnoreOtherRows(products: seq<ProductRow>, rs: seq<RequirementLine>, r: RequirementLine,
                            ls: seq<DispatchLine>, l: DispatchLine, ds: seq<DispatchRow>, d: DispatchRow,
                            now: Moment, w: Window)
    requires !SpentThisMonth(r, now, w) && !ShippedThisMonth(l, now, w) && !CountedThisMonth(d, now, w)
    ensures GetKpis(products, rs + [r], ls + [l], ds + [d], now, w) == GetKpis(products, rs, ls, ds, now, w)
  {
    SpendingSplits(rs, [r], now, w);
    DispatchedSplits(ls, [l], now, w);
    assert [r][..0] == [] && [l][..0] == [];
    assert (ds + [d])[..|ds|] == ds;
  }

  /** Every row the window as written counts, the calendar month counts too. */
  lemma {:induction false} AsWrittenCountsLess(ds: seq<DispatchRow>, now: Moment)
    ensures DispatchCount(ds, now, AsWritten) <= DispatchCount(ds, now, CalendarMonth)
  {
    if ds != [] {
      AsWrittenCountsLess(ds[..|ds| - 1], now);
      var d := ds[|ds| - 1];
      if d.createdAt.Some? {
        MonthIsHalfOpenRange(d.createdAt.value, now);
      }
    }
  }

  /** A shipped dispatch created at 10:00 on the month's last day (and a live requirement
      issued then) is missed by `getKpis` as written in all three month figures, while
      the calendar month counts it. */
  lemma AsWrittenKpisMissLastDay(products: seq<ProductRow>, now: Moment)
    ensures var t := Moment(now.year, now.month, DaysIn(now.year, now.month), 36000000);
      var rs := [RequirementLine(2, 5.0, R.PENDIENTE, Some(t))];
      var ls := [DispatchLine(3, Some(4.0), D.ENTREGADO, Some(t), "mina")];
      var ds := [DispatchRow(D.ENTREGADO, Some(t))];
      var asWritten := GetKpis(products, rs, ls, ds, now, AsWritten);
      var meant := GetKpis(products, rs, ls, ds, now, CalendarMonth);
      && asWritten.requirementSpending == 0.0 && meant.requirementSpending == 10.0
      && asWritten.dispatchedValue == 0.0 && meant.dispatchedValue == 12.0
      && asWritten.dispatchCount == 0 && meant.dispatchCount == 1
  {
    var t := Moment(now.year, now.month, DaysIn(now.year, now.month), 36000000);
    var rs := [RequirementLine(2, 5.0, R.PENDIENTE, Some(t))];
    var ls := [DispatchLine(3, Some(4.0), D.ENTREGADO, Some(t), "mina")];
    var ds := [DispatchRow(D.ENTREGADO, Some(t))];
    assert rs[..0] == [] && ls[..0] == [] && ds[..0] == [];
    assert !InWindowAsWritten(t, now) && InMonth(t, now);
    assert !SpentThisMonth(rs[0], now, AsWritten) && SpentThisMonth(rs[0], now, CalendarMonth);
    assert !ShippedThisMonth(ls[0], now, AsWritten) && ShippedThisMonth(ls[0], now, CalendarMonth);
    assert !CountedThisMonth(ds[0], now, AsWritten) && CountedThisMonth(ds[0], now, CalendarMonth);
    assert Spending(rs, now, AsWritten) == 0.0;
    assert Spending(rs, now, CalendarMonth) == Spending([], now, CalendarMonth) + 2 as real * 5.0;
    assert Dispatched(ls, now, AsWritten) == 0.0 && Dispatched(ls, now, CalendarMonth) == 12.0;
  }

  // ---------------------------------------------------------------- top mines

  /** The value a mine has shipped: quantity times base price over its lines; 0 for a
      mine with no shipped line. */
  function MineValue(ls: seq<DispatchLine>, mine: string): (r: real)
    ensures (forall i {:trigger ShippedFor(ls[i], mine)} :: 0 <= i < |ls| ==> !ShippedFor(ls[i], mine)) ==> r == 0.0
  {
    if ls == [] then 0.0 else MineValue(ls[..|ls| - 1], mine) + MineShare(ls[|ls| - 1], mine)
  }

  /** A shipped line of the given mine. */
  predicate ShippedFor(l: DispatchLine, mine: string) {
    Shipped(l.status) && l.mine == mine
  }

  /** What one line adds to a mine's value. */
  function MineShare(l: DispatchLine, mine: string): real {
    if ShippedFor(l, mine) then LineValue(l) else 0.0
  }

  lemma MineValueStep(ls: seq<DispatchLine>, i: nat, mine: string)
    requires i < |ls|
    ensures MineValue(ls[..i + 1], mine) == MineValue(ls[..i], mine) + MineShare(ls[i], mine)
  {
    assert ls[..i + 1][..i] == ls[..i];
  }

  function MineNames(ls: seq<DispatchLine>): set<string> {
    set i | 0 <= i < |ls| && Shipped(ls[i].status) :: ls[i].mine
  }

  lemma {:induction false} MineValueOfUnknown(ls: seq<DispatchLine>, mine: string)
    requires mine !in MineNames(ls)
    ensures MineValue(ls, mine) == 0.0
  {
    if ls != [] {
      var init := ls[..|ls| - 1];
      assert MineNames(init) <= MineNames(ls) by {
        forall n | n in MineNames(init) ensures n in MineNames(ls) {
          var j :| 0 <= j < |init| && Shipped(init[j].status) && init[j].mine == n;
          assert ls[j] == init[j];
        }
      }
      MineValueOfUnknown(init, mine);
      assert !(Shipped(ls[|ls| - 1].status) && ls[|ls| - 1].mine == mine);
    }
  }

  datatype MineTotal = MineTotal(name: string, value: real)

  predicate NonIncreasing(ts: seq<MineTotal>) {
    forall i, j :: 0 <= i < j < |ts| ==> ts[i].value >= ts[j].value
  }

  predicate DistinctNames(ts: seq<MineTotal>) {
    forall i, j :: 0 <= i < j < |ts| ==> ts[i].name != ts[j].name
  }

  /** `t` placed after every entry worth at least as much (a stable sort's placement). */
  function InsertByValue(t: MineTotal, ts: seq<MineTotal>): (r: seq<MineTotal>)
    ensures multiset(r) == multiset(ts) + multiset{t}
  {
    if ts == [] then [t]
    else if ts[0].value >= t.value then
      assert ts == [ts[0]] + ts[1..];
      [ts[0]] + InsertByValue(t, ts[1..])
    else [t] + ts
  }

  lemma InsertByValueMembers(t: MineTotal, ts: seq<MineTotal>)
    ensures forall x :: x in InsertByValue(t, ts) <==> x in ts || x == t
  {
    var r := InsertByValue(t, ts);
    forall x ensures x in r <==> x in ts || x == t {
      assert x in r <==> x in multiset(r);
      assert x in ts <==> x in multiset(ts);
    }
  }

  lemma {:induction false} InsertByValueFacts(t: MineTotal, ts: seq<MineTotal>)
    requires NonIncreasing(ts) && DistinctNames(ts)
    requires forall i :: 0 <= i < |ts| ==> ts[i].name != t.name
    ensures NonIncreasing(InsertByValue(t, ts)) && DistinctNames(InsertByValue(t, ts))
  {
    if ts == [] {
    } else if ts[0].value >= t.value {
      var tail := ts[1..];
      InsertByValueFacts(t, tail);
      var rest := InsertByValue(t, tail);
      InsertByValueMembers(t, tail);
      HeadDominates(ts[0], t, tail, rest);
      Prepend(ts[0], rest);
    } else {
      Prepend(t, ts);
    }
  }

  /** The head of a sorted list beats everything after it, `t` included when it is
      worth no more. */
  lemma HeadDominates(h: MineTotal, t: MineTotal, tail: seq<MineTotal>, rest: seq<MineTotal>)
    requires NonIncreasing([h] + tail) && DistinctNames([h] + tail)
    requires h.value >= t.value && h.name != t.name
    requires forall x :: x in rest <==> x in tail || x == t
    ensures forall x :: x in rest ==> h.value >= x.value && h.name != x.name
  {
    forall x | x in rest ensures h.value >= x.value && h.name != x.name {
      if x != t {
        var k :| 0 <= k < |tail| && tail[k] == x;
        var full := [h] + tail;
        assert full[0] == h && full[k + 1] == x;
        assert full[0].value >= full[k + 1].value && full[0].name != full[k + 1].name;
      }
    }
  }

  lemma Prepend(h: MineTotal, rest: seq<MineTotal>)
    requires NonIncreasing(rest) && DistinctNames(rest)
    requires forall x :: x in rest ==> h.value >= x.value && h.name != x.name
    ensures NonIncreasing([h] + rest) && DistinctNames([h] + rest)
  {
    var r := [h] + rest;
    forall i, j | 0 <= i < j < |r| ensures r[i].value >= r[j].value && r[i].name != r[j].name {
      if i == 0 {
        assert r[j] == rest[j - 1];
      } else {
        assert r[i] == rest[i - 1] && r[j] == rest[j - 1];
      }
    }
  }

  /** `.sort((a, b) => b.valor - a.valor)` */
  function SortByValue(ts: seq<MineTotal>): (r: seq<MineTotal>)
    ensures multiset(r) == multiset(ts)
  {
    if ts == [] then []
    else
      assert ts == ts[..|ts| - 1] + [ts[|ts| - 1]];
      InsertByValue(ts[|ts| - 1], SortByValue(ts[..|ts| - 1]))
  }

  lemma {:induction false} SortByValueFacts(ts: seq<MineTotal>)
    requires DistinctNames(ts)
    ensures NonIncreasing(SortByValue(ts)) && DistinctNames(SortByValue(ts))
  {
    if ts != [] {
      var init := ts[..|ts| - 1];
      var last := ts[|ts| - 1];
      SortByValueFacts(init);
      var s := SortByValue(init);
      forall i | 0 <= i < |s| ensures s[i].name != last.name {
        assert s[i] in multiset(init);
      }
      InsertByValueFacts(last, s);
    }
  }

  lemma MineNamesStep(ls: seq<DispatchLine>, i: nat)
    requires i < |ls|
    ensures MineNames(ls[..i + 1]) == MineNames(ls[..i]) + (if Shipped(ls[i].status) then {ls[i].mine} else {})
  {
    assert forall j :: 0 <= j < i ==> ls[..i + 1][j] == ls[..i][j];
    assert ls[..i + 1][i] == ls[i];
  }

  /** One `forEach` step keeps the running totals equal to the mines' values so far. */
  lemma TotalsStep(lines: seq<DispatchLine>, i: nat, before: map<string, real>, after: map<string, real>)
    requires i < |lines|
    requires before.Keys == MineNames(lines[..i])
    requires forall n :: n in before ==> before[n] == MineValue(lines[..i], n)
    requires var l := lines[i];
      after == if !Shipped(l.status) then before
        else before[l.mine := (if l.mine in before then before[l.mine] else 0.0) + LineValue(l)]
    ensures after.Keys == MineNames(lines[..i + 1])
    ensures forall n :: n in after ==> after[n] == MineValue(lines[..i + 1], n)
  {
    var l := lines[i];
    MineNamesStep(lines, i);
    if Shipped(l.status) && l.mine !in before {
      MineValueOfUnknown(lines[..i], l.mine);
    }
    forall n | n in after ensures after[n] == MineValue(lines[..i + 1], n) {
      MineValueStep(lines, i, n);
    }
  }

  /** The `forEach` that fills `minasMap`: one running total per mine, in first-seen order. */
  method AccumulateMines(lines: seq<DispatchLine>) returns (totals: map<string, real>, order: seq<string>)
    ensures totals.Keys == MineNames(lines)
    ensures forall n :: n in totals ==> totals[n] == MineValue(lines, n)
    ensures forall n :: n in order <==> n in totals
    ensures forall j, k :: 0 <= j < k < |order| ==> order[j] != order[k]
  {
    totals := map[];
    order := [];
    for i := 0 to |lines|
      invariant totals.Keys == MineNames(lines[..i])
      invariant forall n :: n in totals ==> totals[n] == MineValue(lines[..i], n)
      invariant forall n :: n in order <==> n in totals
      invariant forall j, k :: 0 <= j < k < |order| ==> order[j] != order[k]
    {
      ghost var before := totals;
      if Shipped(lines[i].status) {
        var name := lines[i].mine;
        var value := LineValue(lines[i]);
        if name in totals {
          totals := totals[name := totals[name] + value];
        } else {
          totals := totals[name := 0.0 + value];
          order := order + [name];
        }
      }
      TotalsStep(lines, i, before, totals);
    }
    assert lines[..|lines|] == lines;
  }

  /** `getTopMinas`: a running total per mine, then the five largest by value. */
  method TopMines(lines: seq<DispatchLine>) returns (top: seq<MineTotal>)
    ensures |top| <= 5 && NonIncreasing(top) && DistinctNames(top)
    ensures forall i :: 0 <= i < |top| ==> top[i].name in MineNames(lines) && top[i].value == MineValue(lines, top[i].name)
    ensures forall n :: n in MineNames(lines) && (forall i :: 0 <= i < |top| ==> top[i].name != n) ==>
      |top| == 5 && forall i :: 0 <= i < 5 ==> top[i].value >= MineValue(lines, n)
  {
    var totals, order := AccumulateMines(lines);
    var entries := MineEntries(totals, order);
    var sorted := SortByValue(entries);
    SortByValueFacts(entries);
    top := if |sorted| <= 5 then sorted else sorted[..5];
    PrefixOrdered(sorted, |top|);
    TopFacts(lines, totals, order, entries, sorted, top);
  }

  /** `Array.from(minasMap.entries())`: one entry per mine, in first-seen order. */
  function MineEntries(totals: map<string, real>, order: seq<string>): (es: seq<MineTotal>)
    requires forall n :: n in order ==> n in totals
    requires forall j, k :: 0 <= j < k < |order| ==> order[j] != order[k]
    ensures |es| == |order| && forall k :: 0 <= k < |order| ==> es[k] == MineTotal(order[k], totals[order[k]])
    ensures DistinctNames(es)
  {
    seq(|order|, k requires 0 <= k < |order| => MineTotal(order[k], totals[order[k]]))
  }

  /** A prefix of a sorted list of distinct mines is one too. */
  lemma PrefixOrdered(ts: seq<MineTotal>, n: nat)
    requires NonIncreasing(ts) && DistinctNames(ts) && n <= |ts|
    ensures NonIncreasing(ts[..n]) && DistinctNames(ts[..n])
  {
    assert forall i :: 0 <= i < n ==> ts[..n][i] == ts[i];
  }

  lemma TopFacts(lines: seq<DispatchLine>, totals: map<string, real>, order: seq<string>,
                 entries: seq<MineTotal>, sorted: seq<MineTotal>, top: seq<MineTotal>)
    requires totals.Keys == MineNames(lines)
    requires forall n :: n in totals ==> totals[n] == MineValue(lines, n)
    requires forall n :: n in order <==> n in totals
    requires |entries| == |order| && forall k :: 0 <= k < |order| ==> entries[k] == MineTotal(order[k], totals[order[k]])
    requires multiset(sorted) == multiset(entries) && NonIncreasing(sorted)
    requires top == if |sorted| <= 5 then sorted else sorted[..5]
    ensures forall i :: 0 <= i < |top| ==> top[i].name in MineNames(lines) && top[i].value == MineValue(lines, top[i].name)
    ensures forall n :: n in MineNames(lines) && (forall i :: 0 <= i < |top| ==> top[i].name != n) ==>
      |top| == 5 && forall i :: 0 <= i < 5 ==> top[i].value >= MineValue(lines, n)
  {
    forall i | 0 <= i < |top|
      ensures top[i].name in MineNames(lines) && top[i].value == MineValue(lines, top[i].name)
    {
      TopEntryIsMine(lines, totals, order, entries, sorted, i);
    }
    forall n | n in MineNames(lines) && (forall i :: 0 <= i < |top| ==> top[i].name != n)
      ensures |top| == 5 && forall i :: 0 <= i < 5 ==> top[i].value >= MineValue(lines, n)
    {
      var k :| 0 <= k < |order| && order[k] == n;
      assert entries[k] in multiset(sorted);
      var p :| 0 <= p < |sorted| && sorted[p] == entries[k];
      OmittedIsBeaten(sorted, top, p);
    }
  }

  /** Entry `p` of the sorted list is either one of the five kept or worth no more
      than each of them. */
  lemma OmittedIsBeaten(sorted: seq<MineTotal>, top: seq<MineTotal>, p: nat)
    requires NonIncreasing(sorted) && p < |sorted|
    requires top == if |sorted| <= 5 then sorted else sorted[..5]
    ensures p < |top| ==> top[p] == sorted[p]
    ensures p >= |top| ==> |top| == 5 && forall i :: 0 <= i < 5 ==> top[i].value >= sorted[p].value
  {
    assert forall i :: 0 <= i < |top| ==> top[i] == sorted[i];
  }

  /** Every sorted entry is a mine's own total. */
  lemma TopEntryIsMine(lines: seq<DispatchLine>, totals: map<string, real>, order: seq<string>,
                       entries: seq<MineTotal>, sorted: seq<MineTotal>, i: nat)
    requires totals.Keys == MineNames(lines)
    requires forall n :: n in totals ==> totals[n] == MineValue(lines, n)
    requires forall n :: n in order <==> n in totals
    requires |entries| == |order| && forall k :: 0 <= k < |order| ==> entries[k] == MineTotal(order[k], totals[order[k]])
    requires multiset(sorted) == multiset(entries) && i < |sorted|
    ensures sorted[i].name in MineNames(lines) && sorted[i].value == MineValue(lines, sorted[i].name)
  {
    assert sorted[i] in multiset(entries);
    var k :| 0 <= k < |entries| && entries[k] == sorted[i];
    assert order[k] in order;
  }

  // ---------------------------------------------------------------- monthly trend

  /** `${year}-${String(month + 1).padStart(2, '0')}`: it ends in a hyphen and two
      digits. */
  function MonthKey(year: int, month: Month): (r: string)
    ensures |r| >= 4 && r[|r| - 3] == '-' && AllDigits(r[|r| - 2..])
  {
    var p := PadStart(NatToString(month + 1), 2, '0');
    PaddedMonth(month);
    KeyParts(IntToString(year), p);
    IntToString(year) + "-" + p
  }

  function KeyOf(t: Moment): string {
    MonthKey(t.year, t.month)
  }

  /** The year and month of `new Date(y, m - i, 1)`. */
  function MonthsBack(now: Moment, i: nat): (r: (int, Month)) {
    var total := now.year * 12 + now.month - i;
    (total / 12, total % 12)
  }

  /** The key of the bucket `i` months before `now`. */
  function TrendKey(now: Moment, i: nat): string {
    MonthKey(MonthsBack(now, i).0, MonthsBack(now, i).1)
  }

  /** `sixMonthsAgo`: midnight on the first day of the oldest bucket's month. */
  function SixMonthsAgo(now: Moment): Moment {
    Moment(MonthsBack(now, 5).0, MonthsBack(now, 5).1, 1, 0)
  }

  lemma PaddedMonth(month: Month)
    ensures |PadStart(NatToString(month + 1), 2, '0')| == 2
    ensures DigitsValue(PadStart(NatToString(month + 1), 2, '0')) == month + 1
  {
    PaddedDecimalRoundTrip(month + 1, 2);
    if month + 1 >= 10 {
      assert NatToString(month + 1) == NatToString((month + 1) / 10) + [DigitChar((month + 1) % 10)];
    }
  }

  lemma IntToStringInjective(a: int, b: int)
    requires IntToString(a) == IntToString(b)
    ensures a == b
  {
    if a < 0 && b < 0 {
      assert NatToString(-a) == IntToString(a)[1..];
      NatToStringInjective(-a, -b);
    } else if a >= 0 && b >= 0 {
      NatToStringInjective(a, b);
    } else {
      assert false;
    }
  }

  lemma SplitKey(a1: string, p1: string, a2: string, p2: string)
    requires a1 + "-" + p1 == a2 + "-" + p2 && |p1| == 2 && |p2| == 2
    ensures a1 == a2 && p1 == p2
  {
    var k := a1 + "-" + p1;
    assert k[..|k| - 3] == a1 && k[|k| - 2..] == p1;
    var k2 := a2 + "-" + p2;
    assert k2[..|k2| - 3] == a2 && k2[|k2| - 2..] == p2;
  }

  /** Month keys name months one to one. */
  lemma MonthKeyInjective(y1: int, m1: Month, y2: int, m2: Month)
    requires MonthKey(y1, m1) == MonthKey(y2, m2)
    ensures y1 == y2 && m1 == m2
  {
    var a1, a2 := IntToString(y1), IntToString(y2);
    var p1, p2 := PadStart(NatToString(m1 + 1), 2, '0'), PadStart(NatToString(m2 + 1), 2, '0');
    PaddedMonth(m1);
    PaddedMonth(m2);
    assert MonthKey(y1, m1) == a1 + "-" + p1 && MonthKey(y2, m2) == a2 + "-" + p2;
    SplitKey(a1, p1, a2, p2);
    IntToStringInjective(y1, y2);
  }

  /** The six bucket keys are pairwise different, the first is the current month's,
      and each one's month part is the two-digit month number. */
  lemma TrendKeysDistinct(now: Moment, i: nat, j: nat)
    requires i < 6 && j < 6 && i != j
    ensures TrendKey(now, i) != TrendKey(now, j)
  {
    if TrendKey(now, i) == TrendKey(now, j) {
      MonthKeyInjective(MonthsBack(now, i).0, MonthsBack(now, i).1, MonthsBack(now, j).0, MonthsBack(now, j).1);
      assert false;
    }
  }

  /** The first bucket is the current month's. */
  lemma FirstBucketIsCurrentMonth(now: Moment)
    ensures TrendKey(now, 0) == KeyOf(now)
  {
    CurrentMonth(now.year, now.month);
    assert MonthsBack(now, 0) == (now.year, now.month);
  }

  /** Each key is the year, a hyphen and the month number in two digits. */
  lemma TrendKeyShape(now: Moment, i: nat)
    ensures var k := TrendKey(now, i);
      && k[..|k| - 3] == IntToString(MonthsBack(now, i).0) && k[|k| - 3] == '-'
      && |k[|k| - 2..]| == 2 && DigitsValue(k[|k| - 2..]) == MonthsBack(now, i).1 + 1
  {
    var b := MonthsBack(now, i);
    MonthKeyShape(b.0, b.1);
    assert TrendKey(now, i) == MonthKey(b.0, b.1);
  }

  lemma MonthKeyShape(y: int, m: Month)
    ensures var k := MonthKey(y, m);
      && k[..|k| - 3] == IntToString(y) && k[|k| - 3] == '-'
      && |k[|k| - 2..]| == 2 && DigitsValue(k[|k| - 2..]) == m + 1
  {
    var a, p := IntToString(y), PadStart(NatToString(m + 1), 2, '0');
    PaddedMonth(m);
    KeyDigits(a, p, m + 1);
    assert MonthKey(y, m) == a + "-" + p;
  }

  lemma KeyDigits(a: string, p: string, v: nat)
    requires |p| == 2 && AllDigits(p) && DigitsValue(p) == v
    ensures var k := a + "-" + p;
      && k[..|k| - 3] == a && k[|k| - 3] == '-'
      && |k[|k| - 2..]| == 2 && DigitsValue(k[|k| - 2..]) == v
  {
    KeyParts(a, p);
  }

  lemma KeyParts(a: string, p: string)
    requires |p| == 2
    ensures var k := a + "-" + p; k[..|k| - 3] == a && k[|k| - 3] == '-' && k[|k| - 2..] == p
  {
  }

  lemma CurrentMonth(y: int, m: Month)
    ensures (y * 12 + m) / 12 == y && (y * 12 + m) % 12 == m
  {
  }

  /** A trend bucket as returned: `{ periodo, gastos, ventas }`. */
  datatype Bucket = Bucket(period: string, spending: real, sales: real)

  /** `a.localeCompare(b) < 0` on these keys: code-unit order. */
  predicate LexLess(a: string, b: string) {
    if a == [] then b != []
    else if b == [] then false
    else if a[0] != b[0] then a[0] < b[0]
    else LexLess(a[1..], b[1..])
  }

  lemma {:induction false} LexIrreflexive(a: string)
    ensures !LexLess(a, a)
  {
    if a != [] {
      LexIrreflexive(a[1..]);
    }
  }

  lemma {:induction false} LexTransitive(a: string, b: string, c: string)
    requires LexLess(a, b) && LexLess(b, c)
    ensures LexLess(a, c)
  {
    if a != [] && b != [] && c != [] && a[0] == b[0] && b[0] == c[0] {
      LexTransitive(a[1..], b[1..], c[1..]);
    }
  }

  lemma {:induction false} LexTotal(a: string, b: string)
    requires a != b
    ensures LexLess(a, b) || LexLess(b, a)
  {
    if a != [] && b != [] && a[0] == b[0] {
      assert a == [a[0]] + a[1..] && b == [b[0]] + b[1..];
      LexTotal(a[1..], b[1..]);
    }
  }

  predicate SortedByPeriod(bs: seq<Bucket>) {
    forall i, j :: 0 <= i < j < |bs| ==> LexLess(bs[i].period, bs[j].period)
  }

  function InsertByPeriod(b: Bucket, bs: seq<Bucket>): (r: seq<Bucket>)
    ensures multiset(r) == multiset(bs) + multiset{b}
  {
    if bs == [] then [b]
    else if LexLess(b.period, bs[0].period) then [b] + bs
    else
      assert bs == [bs[0]] + bs[1..];
      [bs[0]] + InsertByPeriod(b, bs[1..])
  }

  lemma {:induction false} InsertByPeriodSorted(b: Bucket, bs: seq<Bucket>)
    requires SortedByPeriod(bs)
    requires forall i :: 0 <= i < |bs| ==> bs[i].period != b.period
    ensures SortedByPeriod(InsertByPeriod(b, bs))
  {
    if bs == [] {
    } else if LexLess(b.period, bs[0].period) {
      forall i | 0 <= i < |bs| ensures LexLess(b.period, bs[i].period) {
        if i > 0 {
          LexTransitive(b.period, bs[0].period, bs[i].period);
        }
      }
      PrependSorted(b, bs);
    } else {
      LexTotal(b.period, bs[0].period);
      InsertByPeriodSorted(b, bs[1..]);
      var rest := InsertByPeriod(b, bs[1..]);
      forall i | 0 <= i < |rest| ensures LexLess(bs[0].period, rest[i].period) {
        var x := rest[i];
        assert x in multiset(rest);
        assert x in multiset(bs[1..]) || x == b;
        if x != b {
          var k :| 0 <= k < |bs[1..]| && bs[1..][k] == x;
          assert bs[k + 1] == x;
        }
      }
      PrependSorted(bs[0], rest);
    }
  }

  lemma PrependSorted(h: Bucket, rest: seq<Bucket>)
    requires SortedByPeriod(rest)
    requires forall i :: 0 <= i < |rest| ==> LexLess(h.period, rest[i].period)
    ensures SortedByPeriod([h] + rest)
  {
    var r := [h] + rest;
    forall i, j | 0 <= i < j < |r| ensures LexLess(r[i].period, r[j].period) {
      if i == 0 {
        assert r[j] == rest[j - 1];
      } else {
        assert r[i] == rest[i - 1] && r[j] == rest[j - 1];
      }
    }
  }

  /** `.sort((a, b) => a[0].localeCompare(b[0]))` */
  function SortByPeriod(bs: seq<Bucket>): (r: seq<Bucket>)
    ensures multiset(r) == multiset(bs)
  {
    if bs == [] then []
    else
      assert bs == bs[..|bs| - 1] + [bs[|bs| - 1]];
      InsertByPeriod(bs[|bs| - 1], SortByPeriod(bs[..|bs| - 1]))
  }

  lemma {:induction false} SortByPeriodSorted(bs: seq<Bucket>)
    requires forall i, j :: 0 <= i < j < |bs| ==> bs[i].period != bs[j].period
    ensures SortedByPeriod(SortByPeriod(bs))
  {
    if bs != [] {
      var init := bs[..|bs| - 1];
      var last := bs[|bs| - 1];
      SortByPeriodSorted(init);
      var s := SortByPeriod(init);
      forall i | 0 <= i < |s| ensures s[i].period != last.period {
        assert s[i] in multiset(init);
      }
      InsertByPeriodSorted(last, s);
    }
  }

  /** A requirement line the trend adds to the bucket `key`: live, dated, not before
      `from`, and in that month. */
  predicate SpentIn(l: RequirementLine, key: string, from: Moment) {
    l.status != R.ANULADO && l.issuedAt.Some? && NotAfter(from, l.issuedAt.value) && KeyOf(l.issuedAt.value) == key
  }

  /** `cantidad_solicitada * Number(precio_proveedor)` */
  function Cost(l: RequirementLine): real {
    l.requested as real * l.supplierPrice
  }

  /** A bucket's `gastos`: the cost of the lines spent in its month; undated lines
      never enter it. */
  function TrendSpending(ls: seq<RequirementLine>, key: string, from: Moment): (r: real)
    ensures (forall i :: 0 <= i < |ls| ==> ls[i].issuedAt.None?) ==> r == 0.0
  {
    if ls == [] then 0.0
    else
      var l := ls[|ls| - 1];
      TrendSpending(ls[..|ls| - 1], key, from) + (if SpentIn(l, key, from) then Cost(l) else 0.0)
  }


  predicate SoldIn(l: DispatchLine, key: string, from: Moment) {
    Shipped(l.status) && l.createdAt.Some? && NotAfter(from, l.createdAt.value) && KeyOf(l.createdAt.value) == key
  }

  /** A bucket's `ventas`: the value of the lines sold in its month; undated lines
      never enter it. */
  function TrendSales(ls: seq<DispatchLine>, key: string, from: Moment): (r: real)
    ensures (forall i :: 0 <= i < |ls| ==> ls[i].createdAt.None?) ==> r == 0.0
  {
    if ls == [] then 0.0
    else
      var l := ls[|ls| - 1];
      TrendSales(ls[..|ls| - 1], key, from) + (if SoldIn(l, key, from) then LineValue(l) else 0.0)
  }


  /** One line's contribution added into its bucket, when the bucket exists. */
  function AddTo(m: map<string, (real, real)>, key: Option<string>, spent: real, sold: real): (r: map<string, (real, real)>)
    ensures r.Keys == m.Keys
    ensures forall k :: k in r ==> r[k] == (m[k].0 + (if key == Some(k) then spent else 0.0), m[k].1 + (if key == Some(k) then sold else 0.0))
  {
    if key.Some? && key.value in m then m[key.value := (m[key.value].0 + spent, m[key.value].1 + sold)] else m
  }

  /** A line without a date, or dated in another month, adds nothing to a bucket. */
  lemma UndatedOrOtherMonthAddsNothing(rs: seq<RequirementLine>, r: RequirementLine,
                                       ls: seq<DispatchLine>, l: DispatchLine, key: string, from: Moment)
    requires r.issuedAt.None? || KeyOf(r.issuedAt.value) != key
    requires l.createdAt.None? || KeyOf(l.createdAt.value) != key
    ensures TrendSpending(rs + [r], key, from) == TrendSpending(rs, key, from)
    ensures TrendSales(ls + [l], key, from) == TrendSales(ls, key, from)
  {
    assert (rs + [r])[..|rs|] == rs;
    assert (ls + [l])[..|ls|] == ls;
  }

  /** The six bucket keys, newest first. */
  function TrendKeys(now: Moment): (ks: seq<string>)
    ensures |ks| == 6 && forall i :: 0 <= i < 6 ==> ks[i] == TrendKey(now, i)
  {
    seq(6, i requires 0 <= i < 6 => TrendKey(now, i))
  }

  lemma TrendKeysAreDistinct(now: Moment)
    ensures forall i, j :: 0 <= i < j < 6 ==> TrendKeys(now)[i] != TrendKeys(now)[j]
  {
    forall i, j | 0 <= i < j < 6 ensures TrendKeys(now)[i] != TrendKeys(now)[j] {
      TrendKeysDistinct(now, i, j);
    }
  }

  /** The `for` loop that seeds one zeroed bucket per key. */
  method SeedBuckets(keys: seq<string>) returns (buckets: map<string, (real, real)>)
    requires forall i, j :: 0 <= i < j < |keys| ==> keys[i] != keys[j]
    ensures forall k :: k in buckets <==> k in keys
    ensures |buckets.Keys| == |keys|
    ensures forall k :: k in buckets ==> buckets[k] == (0.0, 0.0)
  {
    buckets := map[];
    for i := 0 to |keys|
      invariant forall k :: k in buckets <==> k in keys[..i]
      invariant |buckets.Keys| == i
      invariant forall k :: k in buckets ==> buckets[k] == (0.0, 0.0)
    {
      assert keys[..i + 1] == keys[..i] + [keys[i]];
      assert keys[i] !in buckets;
      buckets := buckets[keys[i] := (0.0, 0.0)];
    }
    assert keys[..|keys|] == keys;
  }

  /** The `forEach` over requirement lines: each adds into its month's bucket, if there is one. */
  method AddSpending(buckets: map<string, (real, real)>, lines: seq<RequirementLine>, from: Moment)
    returns (out: map<string, (real, real)>)
    ensures out.Keys == buckets.Keys
    ensures forall k :: k in out ==> out[k] == (buckets[k].0 + TrendSpending(lines, k, from), buckets[k].1)
  {
    out := buckets;
    for i := 0 to |lines|
      invariant out == SpendingBuckets(buckets, lines[..i], from)
    {
      SpendingBucketsStep(buckets, lines, i, from);
      out := AddTo(out, SpendKey(lines[i], from), Cost(lines[i]), 0.0);
    }
    assert lines[..|lines|] == lines;
    SpendingBucketsKeys(buckets, lines, from);
    forall k | k in out ensures out[k] == (buckets[k].0 + TrendSpending(lines, k, from), buckets[k].1) {
      SpendingBucketAt(buckets, lines, from, k);
    }
  }

  /** The `forEach` over dispatch lines. */
  method AddSales(buckets: map<string, (real, real)>, lines: seq<DispatchLine>, from: Moment)
    returns (out: map<string, (real, real)>)
    ensures out.Keys == buckets.Keys
    ensures forall k :: k in out ==> out[k] == (buckets[k].0, buckets[k].1 + TrendSales(lines, k, from))
  {
    out := buckets;
    for i := 0 to |lines|
      invariant out == SalesBuckets(buckets, lines[..i], from)
    {
      SalesBucketsStep(buckets, lines, i, from);
      out := AddTo(out, SaleKey(lines[i], from), 0.0, LineValue(lines[i]));
    }
    assert lines[..|lines|] == lines;
    SalesBucketsKeys(buckets, lines, from);
    forall k | k in out ensures out[k] == (buckets[k].0, buckets[k].1 + TrendSales(lines, k, from)) {
      SalesBucketAt(buckets, lines, from, k);
    }
  }

  /** The buckets after adding `ls` line by line. */
  function SpendingBuckets(buckets: map<string, (real, real)>, ls: seq<RequirementLine>, from: Moment): map<string, (real, real)> {
    if ls == [] then buckets
    else
      var l := ls[|ls| - 1];
      AddTo(SpendingBuckets(buckets, ls[..|ls| - 1], from), SpendKey(l, from), Cost(l), 0.0)
  }

  function SalesBuckets(buckets: map<string, (real, real)>, ls: seq<DispatchLine>, from: Moment): map<string, (real, real)> {
    if ls == [] then buckets
    else
      var l := ls[|ls| - 1];
      AddTo(SalesBuckets(buckets, ls[..|ls| - 1], from), SaleKey(l, from), 0.0, LineValue(l))
  }

  lemma SpendingBucketsStep(buckets: map<string, (real, real)>, ls: seq<RequirementLine>, i: nat, from: Moment)
    requires i < |ls|
    ensures SpendingBuckets(buckets, ls[..i + 1], from) ==
      AddTo(SpendingBuckets(buckets, ls[..i], from), SpendKey(ls[i], from), Cost(ls[i]), 0.0)
  {
    assert ls[..i + 1][..i] == ls[..i];
  }

  lemma SalesBucketsStep(buckets: map<string, (real, real)>, ls: seq<DispatchLine>, i: nat, from: Moment)
    requires i < |ls|
    ensures SalesBuckets(buckets, ls[..i + 1], from) ==
      AddTo(SalesBuckets(buckets, ls[..i], from), SaleKey(ls[i], from), 0.0, LineValue(ls[i]))
  {
    assert ls[..i + 1][..i] == ls[..i];
  }

  lemma {:induction false} SpendingBucketsKeys(buckets: map<string, (real, real)>, ls: seq<RequirementLine>, from: Moment)
    ensures SpendingBuckets(buckets, ls, from).Keys == buckets.Keys
  {
    if ls != [] {
      SpendingBucketsKeys(buckets, ls[..|ls| - 1], from);
    }
  }

  lemma {:induction false} SalesBucketsKeys(buckets: map<string, (real, real)>, ls: seq<DispatchLine>, from: Moment)
    ensures SalesBuckets(buckets, ls, from).Keys == buckets.Keys
  {
    if ls != [] {
      SalesBucketsKeys(buckets, ls[..|ls| - 1], from);
    }
  }

  /** Line by line, a bucket gains exactly its month's spending. */
  lemma {:induction false} SpendingBucketAt(buckets: map<string, (real, real)>, ls: seq<RequirementLine>, from: Moment, k: string)
    requires k in buckets
    ensures k in SpendingBuckets(buckets, ls, from)
    ensures SpendingBuckets(buckets, ls, from)[k] == (buckets[k].0 + TrendSpending(ls, k, from), buckets[k].1)
  {
    if ls != [] {
      var init, l := ls[..|ls| - 1], ls[|ls| - 1];
      SpendingBucketAt(buckets, init, from, k);
      assert SpendingBuckets(buckets, ls, from) == AddTo(SpendingBuckets(buckets, init, from), SpendKey(l, from), Cost(l), 0.0);
      assert SpentIn(l, k, from) <==> SpendKey(l, from) == Some(k);
      assert TrendSpending(ls, k, from) == TrendSpending(init, k, from) + (if SpentIn(l, k, from) then Cost(l) else 0.0);
    }
  }

  /** Line by line, a bucket gains exactly its month's sales. */
  lemma {:induction false} SalesBucketAt(buckets: map<string, (real, real)>, ls: seq<DispatchLine>, from: Moment, k: string)
    requires k in buckets
    ensures k in SalesBuckets(buckets, ls, from)
    ensures SalesBuckets(buckets, ls, from)[k] == (buckets[k].0, buckets[k].1 + TrendSales(ls, k, from))
  {
    if ls != [] {
      var init, l := ls[..|ls| - 1], ls[|ls| - 1];
      SalesBucketAt(buckets, init, from, k);
      assert SalesBuckets(buckets, ls, from) == AddTo(SalesBuckets(buckets, init, from), SaleKey(l, from), 0.0, LineValue(l));
      assert SoldIn(l, k, from) <==> SaleKey(l, from) == Some(k);
      assert TrendSales(ls, k, from) == TrendSales(init, k, from) + (if SoldIn(l, k, from) then LineValue(l) else 0.0);
    }
  }

  /** The bucket a requirement line goes to, when it passes the query filter and has a date. */
  function SpendKey(l: RequirementLine, from: Moment): (r: Option<string>)
    ensures forall k :: SpentIn(l, k, from) <==> r == Some(k)
  {
    if l.status != R.ANULADO && l.issuedAt.Some? && NotAfter(from, l.issuedAt.value) then Some(KeyOf(l.issuedAt.value)) else None
  }

  function SaleKey(l: DispatchLine, from: Moment): (r: Option<string>)
    ensures forall k :: SoldIn(l, k, from) <==> r == Some(k)
  {
    if Shipped(l.status) && l.createdAt.Some? && NotAfter(from, l.createdAt.value) then Some(KeyOf(l.createdAt.value)) else None
  }

  /** `Array.from(tendenciaMap.entries())`, one bucket per key. */
  method Entries(buckets: map<string, (real, real)>) returns (entries: seq<Bucket>)
    ensures |entries| == |buckets.Keys|
    ensures forall j :: 0 <= j < |entries| ==>
      entries[j].period in buckets && (entries[j].spending, entries[j].sales) == buckets[entries[j].period]
    ensures forall j, k :: 0 <= j < k < |entries| ==> entries[j].period != entries[k].period
    ensures forall k :: k in buckets ==> exists j :: 0 <= j < |entries| && entries[j].period == k
  {
    entries := [];
    var remaining := buckets.Keys;
    while remaining != {}
      invariant remaining <= buckets.Keys
      invariant |entries| + |remaining| == |buckets.Keys|
      invariant forall j :: 0 <= j < |entries| ==> entries[j].period in buckets && entries[j].period !in remaining
      invariant forall j :: 0 <= j < |entries| ==> (entries[j].spending, entries[j].sales) == buckets[entries[j].period]
      invariant forall j, k :: 0 <= j < k < |entries| ==> entries[j].period != entries[k].period
      invariant forall k :: k in buckets && k !in remaining ==> exists j :: 0 <= j < |entries| && entries[j].period == k
      decreases |remaining|
    {
      var k :| k in remaining;
      ghost var prev := entries;
      entries := entries + [Bucket(k, buckets[k].0, buckets[k].1)];
      remaining := remaining - {k};
      assert entries[|entries| - 1].period == k;
      assert forall j :: 0 <= j < |prev| ==> entries[j] == prev[j];
    }
  }

  /** `getTendenciaMensual`: six zeroed buckets, the requirement lines and the dispatch
      lines added into the bucket of their month when it is one of the six, and the
      buckets in key order. */
  method MonthlyTrend(requirementLines: seq<RequirementLine>, dispatchLines: seq<DispatchLine>, now: Moment)
    returns (trend: seq<Bucket>)
    ensures |trend| == 6 && SortedByPeriod(trend)
    ensures forall k :: k in TrendKeys(now) ==> exists j :: 0 <= j < 6 && trend[j].period == k
    ensures forall j :: 0 <= j < 6 ==> trend[j].period in TrendKeys(now)
    ensures forall j :: 0 <= j < 6 ==>
      && trend[j].spending == TrendSpending(requirementLines, trend[j].period, SixMonthsAgo(now))
      && trend[j].sales == TrendSales(dispatchLines, trend[j].period, SixMonthsAgo(now))
  {
    var from := SixMonthsAgo(now);
    TrendKeysAreDistinct(now);
    var seeded := SeedBuckets(TrendKeys(now));
    var spent := AddSpending(seeded, requirementLines, from);
    var buckets := AddSales(spent, dispatchLines, from);
    var entries := Entries(buckets);
    trend := SortByPeriod(entries);
    SortByPeriodSorted(entries);
    TrendFacts(requirementLines, dispatchLines, from, TrendKeys(now), buckets, entries, trend);
  }

  lemma TrendFacts(requirementLines: seq<RequirementLine>, dispatchLines: seq<DispatchLine>, from: Moment,
                   keys: seq<string>, buckets: map<string, (real, real)>, entries: seq<Bucket>, trend: seq<Bucket>)
    requires forall k :: k in buckets <==> k in keys
    requires |buckets.Keys| == 6
    requires forall k :: k in buckets ==>
      buckets[k] == (TrendSpending(requirementLines, k, from), TrendSales(dispatchLines, k, from))
    requires |entries| == |buckets.Keys|
    requires forall j :: 0 <= j < |entries| ==>
      entries[j].period in buckets && (entries[j].spending, entries[j].sales) == buckets[entries[j].period]
    requires forall k :: k in buckets ==> exists j :: 0 <= j < |entries| && entries[j].period == k
    requires multiset(trend) == multiset(entries)
    ensures |trend| == 6
    ensures forall k :: k in keys ==> exists j :: 0 <= j < 6 && trend[j].period == k
    ensures forall j :: 0 <= j < 6 ==> trend[j].period in keys
    ensures forall j :: 0 <= j < 6 ==>
      && trend[j].spending == TrendSpending(requirementLines, trend[j].period, from)
      && trend[j].sales == TrendSales(dispatchLines, trend[j].period, from)
  {
    assert |trend| == |multiset(trend)| == |multiset(entries)| == |entries|;
    forall j | 0 <= j < 6
      ensures trend[j].period in buckets && (trend[j].spending, trend[j].sales) == buckets[trend[j].period]
    {
      assert trend[j] in multiset(entries);
    }
    forall k | k in keys ensures exists j :: 0 <= j < 6 && trend[j].period == k {
      var e :| 0 <= e < |entries| && entries[e].period == k;
      assert entries[e] in multiset(trend);
      var j :| 0 <= j < |trend| && trend[j] == entries[e];
    }
  }
}
