/** The inventory service (`InventarioService`): two raw-SQL builders that grow a
    statement and its parameter list filter by filter, and the manual adjustment that
    appends one row to the stock ledger. */
module Inventory {
  import opened Common
  import Kardex

  /** A bound parameter; a `None` number is `NaN`. */
  datatype Param = PText(s: string) | PNumber(n: Option<int>) | PDate(t: Instant)

  /** The number of `?` placeholders in a statement. */
  function Placeholders(s: string): nat {
    if s == [] then 0 else Placeholders(s[..|s| - 1]) + (if s[|s| - 1] == '?' then 1 else 0)
  }

  lemma {:induction false} PlaceholdersAppend(a: string, b: string)
    ensures Placeholders(a + b) == Placeholders(a) + Placeholders(b)
    decreases |b|
  {
    if b == [] {
      assert a + b == a;
    } else {
      assert (a + b)[..|a + b| - 1] == a + b[..|b| - 1];
      PlaceholdersAppend(a, b[..|b| - 1]);
    }
  }

  lemma {:induction false} NoPlaceholders(s: string)
    requires forall i :: 0 <= i < |s| ==> s[i] != '?'
    ensures Placeholders(s) == 0
  {
    if s != [] {
      NoPlaceholders(s[..|s| - 1]);
    }
  }

  /** One `sql +=` step with the parameters it pushes. */
  datatype Clause = Clause(text: string, params: seq<Param>)

  /** A clause with as many placeholders as parameters. */
  predicate Balanced(c: Clause) {
    Placeholders(c.text) == |c.params|
  }

  predicate AllBalanced(cs: seq<Clause>) {
    forall i :: 0 <= i < |cs| ==> Balanced(cs[i])
  }

  lemma AllBalancedAppend(a: seq<Clause>, b: seq<Clause>)
    requires AllBalanced(a) && AllBalanced(b)
    ensures AllBalanced(a + b)
  {
    assert forall i :: |a| <= i < |a + b| ==> (a + b)[i] == b[i - |a|];
  }

  /** The statement and parameter list a sequence of steps leaves behind: when every
      step is balanced, the statement has exactly as many placeholders as parameters. */
  function Render(cs: seq<Clause>): (r: (string, seq<Param>))
    ensures AllBalanced(cs) ==> Placeholders(r.0) == |r.1|
  {
    if cs == [] then ("", [])
    else
      var init := Render(cs[..|cs| - 1]);
      var last := cs[|cs| - 1];
      PlaceholdersAppend(init.0, last.text);
      assert AllBalanced(cs) ==> AllBalanced(cs[..|cs| - 1]) && Balanced(last);
      (init.0 + last.text, init.1 + last.params)
  }

  lemma {:induction false} RenderAppend(a: seq<Clause>, b: seq<Clause>)
    ensures Render(a + b) == (Render(a).0 + Render(b).0, Render(a).1 + Render(b).1)
    decreases |b|
  {
    if b == [] {
      assert a + b == a;
      assert Render(a).0 + "" == Render(a).0;
      assert Render(a).1 + [] == Render(a).1;
    } else {
      assert (a + b)[..|a + b| - 1] == a + b[..|b| - 1];
      assert (a + b)[|a + b| - 1] == b[|b| - 1];
      RenderAppend(a, b[..|b| - 1]);
      var x := Render(a);
      var y := Render(b[..|b| - 1]);
      var c := b[|b| - 1];
      assert Render(b) == (y.0 + c.text, y.1 + c.params);
      assert Render(a + b) == ((x.0 + y.0) + c.text, (x.1 + y.1) + c.params);
      assert (x.0 + y.0) + c.text == x.0 + (y.0 + c.text);
      assert (x.1 + y.1) + c.params == x.1 + (y.1 + c.params);
    }
  }

  /** A clause without parameters and without placeholders. */
  function Fixed(text: string): (c: Clause)
    requires forall i :: 0 <= i < |text| ==> text[i] != '?'
    ensures Balanced(c)
  {
    NoPlaceholders(text);
    Clause(text, [])
  }

  /** A clause `text + "?" + tail` with one parameter. */
  function OneParam(text: string, tail: string, p: Param): (c: Clause)
    requires forall i :: 0 <= i < |text| ==> text[i] != '?'
    requires forall i :: 0 <= i < |tail| ==> tail[i] != '?'
    ensures Balanced(c) && c.params == [p]
  {
    NoPlaceholders(text);
    NoPlaceholders(tail);
    PlaceholdersAppend(text, "?");
    PlaceholdersAppend(text + "?", tail);
    assert Placeholders("?") == 1 by {
      assert "?"[..0] == "";
    }
    Clause(text + "?" + tail, [p])
  }

  /** The filters of `getStock` as the validator leaves them. */
  datatype StockQuery = StockQuery(
    page: Option<int>, limit: Option<int>, search: Option<string>, classification: Option<int>,
    measure: Option<int>, lowStock: Option<bool>)

  /** `(page - 1) * limit`, `NaN` when either is `NaN`; page 1 starts at row 0 and a
      later page at a row that is not negative. */
  function Offset(page: Option<int>, limit: Option<int>): (r: Option<int>)
    ensures r.None? <==> page.None? || limit.None?
    ensures page == Some(1) && limit.Some? ==> r == Some(0)
    ensures r.Some? && page.value >= 1 && limit.value >= 0 ==> r.value >= 0
  {
    if page.Some? && limit.Some? then Some(PageSkip(page.value, limit.value)) else None
  }

  const StockBase := "SELECT * FROM v_stock_disponible WHERE 1=1"
  const StockOrder := " ORDER BY stock_actual ASC LIMIT ? OFFSET ?"

  function StockBaseClause(): (c: Clause)
    ensures Balanced(c) && c == Clause(StockBase, [])
  {
    Fixed(StockBase)
  }

  /** One more step: the text and the parameters are appended. */
  lemma Step(cs: seq<Clause>, c: Clause)
    ensures Render(cs + [c]) == (Render(cs).0 + c.text, Render(cs).1 + c.params)
  {
    assert (cs + [c])[..|cs|] == cs;
  }

  function SearchClause(term: string): (c: Clause)
    ensures Balanced(c) && c.params == [PText("%" + term + "%")]
  {
    OneParam(" AND (producto LIKE ", ")", PText("%" + term + "%"))
  }

  /** ` AND <column> = ?` binding an id: the classification and measure filters of
      `getStock` and the product filter of `getKardex`. */
  function IdClause(column: string, id: int): (c: Clause)
    requires forall i :: 0 <= i < |column| ==> column[i] != '?'
    ensures Balanced(c) && c.text == " AND " + column + " = ?" && c.params == [PNumber(Some(id))]
  {
    var text := " AND " + column + " = ";
    assert forall i :: 0 <= i < |text| ==> text[i] != '?' by {
      forall i | 0 <= i < |text| ensures text[i] != '?' {
        if 5 <= i < 5 + |column| {
          assert text[i] == column[i - 5];
        }
      }
    }
    OneParam(text, "", PNumber(Some(id)))
  }

  function LowStockClause(): (c: Clause)
    ensures Balanced(c) && c.params == []
  {
    Fixed(" AND stock_actual < 100")
  }

  function StockOrderClause(limit: Option<int>, offset: Option<int>): (c: Clause)
    ensures Balanced(c) && c.params == [PNumber(limit), PNumber(offset)]
  {
    var c := Clause(StockOrder, [PNumber(limit), PNumber(offset)]);
    var a := " ORDER BY stock_actual ASC LIMIT ";
    var b := " OFFSET ";
    NoPlaceholders(a);
    NoPlaceholders(b);
    assert StockOrder == a + "?" + b + "?";
    PlaceholdersAppend(a, "?");
    PlaceholdersAppend(a + "?", b);
    PlaceholdersAppend(a + "?" + b, "?");
    assert Placeholders("?") == 1 by {
      assert "?"[..0] == "";
    }
    c
  }

  function SearchPart(q: StockQuery): seq<Clause> {
    if TruthyText(q.search) then [SearchClause(q.search.value)] else []
  }

  function ClassificationPart(q: StockQuery): seq<Clause> {
    if TruthyNum(q.classification) then [IdClause("id_clasificacion", q.classification.value)] else []
  }

  function MeasurePart(q: StockQuery): seq<Clause> {
    if TruthyNum(q.measure) then [IdClause("id_medida", q.measure.value)] else []
  }

  function LowStockPart(q: StockQuery): seq<Clause> {
    if q.lowStock == Some(true) then [LowStockClause()] else []
  }

  /** The steps `getStock` takes: the base, one step per truthy filter in a fixed
      order, and the ordering and paging step last. */
  function StockClauses(q: StockQuery): (cs: seq<Clause>)
    ensures AllBalanced(cs)
  {
    var base, s, c, m, l := [StockBaseClause()], SearchPart(q), ClassificationPart(q), MeasurePart(q), LowStockPart(q);
    var o := [StockOrderClause(q.limit, Offset(q.page, q.limit))];
    AllBalancedAppend(base, s);
    AllBalancedAppend(base + s, c);
    AllBalancedAppend(base + s + c, m);
    AllBalancedAppend(base + s + c + m, l);
    AllBalancedAppend(base + s + c + m + l, o);
    base + s + c + m + l + o
  }

  /** `getStock`'s statement builder. */
  method BuildStockQuery(q: StockQuery) returns (sql: string, params: seq<Param>)
    ensures (sql, params) == Render(StockClauses(q))
  {
    ghost var steps: seq<Clause> := [StockBaseClause()];
    sql := StockBase;
    params := [];
    SingletonRender(steps);
    if TruthyText(q.search) {
      sql, params := Push(sql, params, steps, SearchClause(q.search.value));
    }
    steps := Extend(steps, SearchPart(q));
    if TruthyNum(q.classification) {
      sql, params := Push(sql, params, steps, IdClause("id_clasificacion", q.classification.value));
    }
    steps := Extend(steps, ClassificationPart(q));
    if TruthyNum(q.measure) {
      sql, params := Push(sql, params, steps, IdClause("id_medida", q.measure.value));
    }
    steps := Extend(steps, MeasurePart(q));
    if q.lowStock == Some(true) {
      sql, params := Push(sql, params, steps, LowStockClause());
    }
    steps := Extend(steps, LowStockPart(q));
    sql, params := Push(sql, params, steps, StockOrderClause(q.limit, Offset(q.page, q.limit)));
  }

  /** One `sql +=` with its `params.push`. */
  method Push(sql: string, params: seq<Param>, ghost steps: seq<Clause>, c: Clause) returns (sql': string, params': seq<Param>)
    requires (sql, params) == Render(steps)
    ensures (sql', params') == Render(steps + [c])
  {
    Step(steps, c);
    sql', params' := sql + c.text, params + c.params;
  }

  /** The steps taken so far, after an optional one. */
  function Extend(steps: seq<Clause>, part: seq<Clause>): (r: seq<Clause>)
    ensures part == [] ==> r == steps
  {
    steps + part
  }

  function Count(b: bool): nat {
    if b then 1 else 0
  }

  /** The `getStock` statement: as many placeholders as parameters, one parameter per
      truthy value filter plus two, and it ends with the ordering and paging clause
      whose parameters are the limit and the offset. */
  lemma StockQueryShape(q: StockQuery)
    ensures var r := Render(StockClauses(q));
      && Placeholders(r.0) == |r.1|
      && |r.1| == 2 + Count(TruthyText(q.search)) + Count(TruthyNum(q.classification)) + Count(TruthyNum(q.measure))
      && |r.0| >= |StockOrder| && r.0[|r.0| - |StockOrder|..] == StockOrder
      && r.1[|r.1| - 2..] == [PNumber(q.limit), PNumber(Offset(q.page, q.limit))]
  {
    var cs := StockClauses(q);
    var last := StockOrderClause(q.limit, Offset(q.page, q.limit));
    var init := cs[..|cs| - 1];
    assert cs == init + [last];
    RenderAppend(init, [last]);
    assert [last][..0] == [];
    ParamCount(q);
  }

  lemma ParamCount(q: StockQuery)
    ensures |Render(StockClauses(q)).1| ==
      2 + Count(TruthyText(q.search)) + Count(TruthyNum(q.classification)) + Count(TruthyNum(q.measure))
  {
    var base, s, c, m, l := [StockBaseClause()], SearchPart(q), ClassificationPart(q), MeasurePart(q), LowStockPart(q);
    var o := [StockOrderClause(q.limit, Offset(q.page, q.limit))];
    assert StockClauses(q) == base + s + c + m + l + o;
    SixPartLength(base, s, c, m, l, o);
    assert |ParamsOf(base)| == 0 && |ParamsOf(o)| == 2 && |ParamsOf(l)| == 0;
    assert |ParamsOf(s)| == Count(TruthyText(q.search));
    assert |ParamsOf(c)| == Count(TruthyNum(q.classification));
    assert |ParamsOf(m)| == Count(TruthyNum(q.measure));
  }

  /** The parameters of at most one clause. */
  function ParamsOf(cs: seq<Clause>): seq<Param>
    requires |cs| <= 1
  {
    if cs == [] then [] else cs[0].params
  }

  lemma SixPartLength(base: seq<Clause>, s: seq<Clause>, c: seq<Clause>, m: seq<Clause>, l: seq<Clause>, o: seq<Clause>)
    requires |base| <= 1 && |s| <= 1 && |c| <= 1 && |m| <= 1 && |l| <= 1 && |o| <= 1
    ensures |Render(base + s + c + m + l + o).1| ==
      |ParamsOf(base)| + |ParamsOf(s)| + |ParamsOf(c)| + |ParamsOf(m)| + |ParamsOf(l)| + |ParamsOf(o)|
  {
    RenderAppend(base, s);
    RenderAppend(base + s, c);
    RenderAppend(base + s + c, m);
    RenderAppend(base + s + c + m, l);
    RenderAppend(base + s + c + m + l, o);
    OptionalRender(base);
    OptionalRender(s);
    OptionalRender(c);
    OptionalRender(m);
    OptionalRender(l);
    OptionalRender(o);
  }

  lemma SingletonRender(cs: seq<Clause>)
    requires |cs| == 1
    ensures Render(cs) == (cs[0].text, cs[0].params)
  {
    assert cs[..0] == [];
    assert "" + cs[0].text == cs[0].text;
    assert [] + cs[0].params == cs[0].params;
  }

  lemma OptionalRender(cs: seq<Clause>)
    requires |cs| <= 1
    ensures |Render(cs).1| == |ParamsOf(cs)|
  {
    if cs != [] {
      SingletonRender(cs);
    }
  }

  /** The filters of `getKardex` as the validator leaves them. */
  datatype KardexQuery = KardexQuery(
    product: Option<int>, from: Option<string>, to: Option<string>, limit: Option<int>,
    kind: Option<Kardex.MovementKind>)

  const KardexBase := "SELECT * FROM v_kardex_completo WHERE 1=1"
  const KardexOrder := " ORDER BY fecha DESC, id_movimiento DESC LIMIT ?"

  function KardexBaseClause(): (c: Clause)
    ensures Balanced(c) && c == Clause(KardexBase, [])
  {
    Fixed(KardexBase)
  }

  function RangeClause(from: Instant, to: Instant): (c: Clause)
    ensures Balanced(c) && c.params == [PDate(from), PDate(to)]
  {
    var a := " AND fecha BETWEEN ";
    var b := " AND ";
    NoPlaceholders(a);
    NoPlaceholders(b);
    PlaceholdersAppend(a, "?");
    PlaceholdersAppend(a + "?", b);
    PlaceholdersAppend(a + "?" + b, "?");
    assert Placeholders("?") == 1 by {
      assert "?"[..0] == "";
    }
    Clause(a + "?" + b + "?", [PDate(from), PDate(to)])
  }

  function KindClause(k: Kardex.MovementKind): (c: Clause)
    ensures Balanced(c) && c.params == [PText(Kardex.KindName(k))]
  {
    OneParam(" AND tipo = ", "", PText(Kardex.KindName(k)))
  }

  function KardexOrderClause(limit: Option<int>): (c: Clause)
    ensures Balanced(c) && c == Clause(KardexOrder, [PNumber(limit)])
  {
    var a := " ORDER BY fecha DESC,";
    var b := " id_movimiento DESC LIMIT ";
    NoPlaceholders(a);
    NoPlaceholders(b);
    PlaceholdersAppend(a, b);
    PlaceholdersAppend(a + b, "?");
    assert Placeholders("?") == 1 by {
      assert "?"[..0] == "";
    }
    KardexOrderText();
    Clause(a + b + "?", [PNumber(limit)])
  }

  lemma KardexOrderText()
    ensures " ORDER BY fecha DESC," + " id_movimiento DESC LIMIT " + "?" == KardexOrder
  {
  }

  /** The steps `getKardex` takes; the date range needs both bounds. `date` is
      `new Date(text)`. */
  function KardexClauses(q: KardexQuery, date: string -> Instant): (cs: seq<Clause>)
    ensures AllBalanced(cs)
  {
    var base := [KardexBaseClause()];
    var p := if TruthyNum(q.product) then [IdClause("id_producto", q.product.value)] else [];
    var r := if TruthyText(q.from) && TruthyText(q.to) then [RangeClause(date(q.from.value), date(q.to.value))] else [];
    var k := if q.kind.Some? then [KindClause(q.kind.value)] else [];
    var o := [KardexOrderClause(q.limit)];
    AllBalancedAppend(base, p);
    AllBalancedAppend(base + p, r);
    AllBalancedAppend(base + p + r, k);
    AllBalancedAppend(base + p + r + k, o);
    base + p + r + k + o
  }

  /** `getKardex`'s statement builder. */
  method BuildKardexQuery(q: KardexQuery, date: string -> Instant) returns (sql: string, params: seq<Param>)
    ensures (sql, params) == Render(KardexClauses(q, date))
  {
    ghost var steps: seq<Clause> := [KardexBaseClause()];
    sql := KardexBase;
    params := [];
    SingletonRender(steps);
    if TruthyNum(q.product) {
      sql, params := Push(sql, params, steps, IdClause("id_producto", q.product.value));
    }
    steps := Extend(steps, if TruthyNum(q.product) then [IdClause("id_producto", q.product.value)] else []);
    if TruthyText(q.from) && TruthyText(q.to) {
      sql, params := Push(sql, params, steps, RangeClause(date(q.from.value), date(q.to.value)));
    }
    steps := Extend(steps, if TruthyText(q.from) && TruthyText(q.to) then [RangeClause(date(q.from.value), date(q.to.value))] else []);
    if q.kind.Some? {
      sql, params := Push(sql, params, steps, KindClause(q.kind.value));
    }
    steps := Extend(steps, if q.kind.Some? then [KindClause(q.kind.value)] else []);
    sql, params := Push(sql, params, steps, KardexOrderClause(q.limit));
  }

  /** The `getKardex` statement: as many placeholders as parameters, one parameter for
      the product filter, two for a complete date range and one for the kind, plus the
      limit, and it ends with the ordering clause whose one parameter is the limit. */
  lemma KardexQueryShape(q: KardexQuery, date: string -> Instant)
    ensures var r := Render(KardexClauses(q, date));
      && Placeholders(r.0) == |r.1|
      && |r.1| == 1 + Count(TruthyNum(q.product)) + 2 * Count(TruthyText(q.from) && TruthyText(q.to)) + Count(q.kind.Some?)
      && |r.0| >= |KardexOrder| && r.0[|r.0| - |KardexOrder|..] == KardexOrder
      && r.1[|r.1| - 1] == PNumber(q.limit)
  {
    var cs := KardexClauses(q, date);
    var last := KardexOrderClause(q.limit);
    var init := cs[..|cs| - 1];
    assert cs == init + [last];
    RenderAppend(init, [last]);
    SingletonRender([last]);
    KardexParamCount(q, date);
  }

  lemma KardexParamCount(q: KardexQuery, date: string -> Instant)
    ensures |Render(KardexClauses(q, date)).1| ==
      1 + Count(TruthyNum(q.product)) + 2 * Count(TruthyText(q.from) && TruthyText(q.to)) + Count(q.kind.Some?)
  {
    var base := [KardexBaseClause()];
    var p := if TruthyNum(q.product) then [IdClause("id_producto", q.product.value)] else [];
    var r := if TruthyText(q.from) && TruthyText(q.to) then [RangeClause(date(q.from.value), date(q.to.value))] else [];
    var k := if q.kind.Some? then [KindClause(q.kind.value)] else [];
    var o := [KardexOrderClause(q.limit)];
    assert KardexClauses(q, date) == base + p + r + k + [] + o;
    SixPartLength(base, p, r, k, [], o);
    assert |ParamsOf(base)| == 0 && |ParamsOf([])| == 0 && |ParamsOf(o)| == 1;
  }

  /** A validated adjustment body. */
  datatype Adjustment = Adjustment(product: nat, quantity: int, kind: Kardex.MovementKind, reason: string)

  /** The movement `adjustStock` creates: the caller's product, kind and quantity as
      given (no sign is imposed), the reason behind a fixed prefix, and no dispatch. */
  function AdjustmentMovement(a: Adjustment, username: Option<string>): (m: Kardex.Movement)
    ensures m.product == a.product && m.kind == a.kind && m.quantity == a.quantity
    ensures m.dispatch.None? && m.note == "AJUSTE MANUAL: " + a.reason
    ensures m.createdBy == (if TruthyText(username) then username.value else "system")
  {
    Kardex.Movement(a.product, a.kind, a.quantity, None, None, "AJUSTE MANUAL: " + a.reason,
      if TruthyText(username) then username.value else "system")
  }

  /** `adjustStock`: exactly one row is appended to the ledger. */
  method AdjustStock(ledger: Kardex.Ledger, a: Adjustment, username: Option<string>) returns (m: Kardex.Movement)
    modifies ledger
    ensures m == AdjustmentMovement(a, username)
    ensures ledger.movements == old(ledger.movements) + [m]
    ensures forall p :: Kardex.Net(ledger.movements, p) == Kardex.Net(old(ledger.movements), p) + (if p == a.product then a.quantity else 0)
  {
    m := AdjustmentMovement(a, username);
    ledger.Append(m);
    forall p ensures Kardex.Net(ledger.movements, p) ==
      Kardex.Net(old(ledger.movements), p) + (if p == a.product then a.quantity else 0) {
      Kardex.NetAppendOne(old(ledger.movements), m, p);
    }
  }
}
