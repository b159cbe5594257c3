/** The request validators of the inventory endpoints. */
module InventorySchemas {
  import opened Common
  import opened Text
  import opened Zod
  import Kardex
  import I = Inventory

  /** The six names of `tipo_movimiento` in `queryKardexSchema`. */
  function ParseKind(text: string): (r: Option<Kardex.MovementKind>)
    ensures r.Some? ==> Kardex.KindName(r.value) == text
    ensures r.None? ==> forall k: Kardex.MovementKind :: Kardex.KindName(k) != text
  {
    if text == "ENTRADA" then Some(Kardex.ENTRADA)
    else if text == "SALIDA" then Some(Kardex.SALIDA)
    else if text == "AJUSTE_POS" then Some(Kardex.AJUSTE_POS)
    else if text == "AJUSTE_NEG" then Some(Kardex.AJUSTE_NEG)
    else if text == "DEVOLUCION" then Some(Kardex.DEVOLUCION)
    else if text == "AJUSTE_MANUAL" then Some(Kardex.AJUSTE_MANUAL)
    else None
  }

  lemma KindNamesRoundTrip(k: Kardex.MovementKind)
    ensures ParseKind(Kardex.KindName(k)) == Some(k)
  {
  }

  /** The three names `adjustStockSchema` accepts. */
  function ParseAdjustKind(text: string): (r: Option<Kardex.MovementKind>)
    ensures r.Some? <==> text == "ENTRADA" || text == "SALIDA" || text == "AJUSTE_MANUAL"
    ensures r.Some? ==> r == ParseKind(text) && r.value in {Kardex.ENTRADA, Kardex.SALIDA, Kardex.AJUSTE_MANUAL}
  {
    if text == "ENTRADA" || text == "SALIDA" || text == "AJUSTE_MANUAL" then ParseKind(text) else None
  }

  /** `z.string().transform(...).optional()` with the `NaN` and the absent field both
      read as `None`, which is how the service's truthiness tests see them. */
  function OptInt(v: Raw): (r: Option<Option<int>>)
    ensures r.Some? <==> v.Missing? || v.Str?
    ensures v.Missing? ==> r == Some(None)
    ensures v.Str? ==> r == Some(ParseInt(v.s))
  {
    var p := OptParsedInt(v);
    if p.None? then None else if p.value.None? then Some(None) else Some(p.value.value)
  }

  datatype RawStockQuery = RawStockQuery(page: Raw, limit: Raw, search: Raw, classification: Raw, measure: Raw, lowStock: Raw)

  /** `queryStockSchema`: `bajo_stock` is true only for the exact text `true`. */
  function ValidStockQuery(q: RawStockQuery): (r: Option<I.StockQuery>)
    ensures r.Some? <==>
      && (q.page.Missing? || q.page.Str?) && (q.limit.Missing? || q.limit.Str?)
      && OptText(q.search, None).Some? && OptInt(q.classification).Some? && OptInt(q.measure).Some?
      && (q.lowStock.Missing? || q.lowStock.Str?)
    ensures r.Some? ==>
      && r.value.page == ParsedIntOr(q.page, "1").value && r.value.limit == ParsedIntOr(q.limit, "20").value
      && (r.value.lowStock == Some(true) <==> q.lowStock == Str("true"))
      && (r.value.lowStock.None? <==> q.lowStock.Missing?)
  {
    var page := ParsedIntOr(q.page, "1");
    var limit := ParsedIntOr(q.limit, "20");
    var search := OptText(q.search, None);
    var classification := OptInt(q.classification);
    var measure := OptInt(q.measure);
    var low: Option<Option<bool>> :=
      if q.lowStock.Missing? then Some(None)
      else if q.lowStock.Str? then Some(Some(q.lowStock.s == "true"))
      else None;
    if page.Some? && limit.Some? && search.Some? && classification.Some? && measure.Some? && low.Some? then
      Some(I.StockQuery(page.value, limit.value, search.value, classification.value, measure.value, low.value))
    else None
  }

  /** With no page and no limit the stock list shows the first twenty rows. */
  lemma StockQueryDefaults(q: RawStockQuery)
    requires ValidStockQuery(q).Some? && q.page.Missing? && q.limit.Missing?
    ensures ValidStockQuery(q).value.page == Some(1)
    ensures ValidStockQuery(q).value.limit == Some(20)
    ensures I.Offset(Some(1), Some(20)) == Some(0)
  {
    DefaultNumerals();
  }

  lemma DefaultNumerals()
    ensures ParseInt("1") == Some(1) && ParseInt("20") == Some(20) && ParseInt("50") == Some(50)
  {
    One();
    Twenty();
    Fifty();
  }

  lemma One()
    ensures ParseInt("1") == Some(1)
  {
    assert IntToString(1) == "1";
    ParseIntOfIntToString(1);
  }

  lemma Twenty()
    ensures ParseInt("20") == Some(20)
  {
    assert IntToString(20) == NatToString(2) + [DigitChar(0)] == "20";
    ParseIntOfIntToString(20);
  }

  lemma Fifty()
    ensures ParseInt("50") == Some(50)
  {
    assert IntToString(50) == NatToString(5) + [DigitChar(0)] == "50";
    ParseIntOfIntToString(50);
  }

  datatype RawKardexQuery = RawKardexQuery(product: Raw, from: Raw, to: Raw, limit: Raw, kind: Raw)

  /** `queryKardexSchema` */
  function ValidKardexQuery(q: RawKardexQuery): (r: Option<I.KardexQuery>)
    ensures r.Some? <==>
      && OptInt(q.product).Some? && OptText(q.from, None).Some? && OptText(q.to, None).Some?
      && (q.limit.Missing? || q.limit.Str?) && (q.kind.Missing? || (q.kind.Str? && ParseKind(q.kind.s).Some?))
    ensures r.Some? ==>
      && r.value.limit == ParsedIntOr(q.limit, "50").value
      && (r.value.kind.Some? <==> q.kind.Str?)
      && (r.value.kind.Some? ==> Kardex.KindName(r.value.kind.value) == q.kind.s)
  {
    var product := OptInt(q.product);
    var from := OptText(q.from, None);
    var to := OptText(q.to, None);
    var limit := ParsedIntOr(q.limit, "50");
    var kind: Option<Option<Kardex.MovementKind>> :=
      if q.kind.Missing? then Some(None)
      else if q.kind.Str? && ParseKind(q.kind.s).Some? then Some(ParseKind(q.kind.s))
      else None;
    if product.Some? && from.Some? && to.Some? && limit.Some? && kind.Some? then
      Some(I.KardexQuery(product.value, from.value, to.value, limit.value, kind.value))
    else None
  }

  /** With no limit the ledger view shows fifty rows. */
  lemma KardexLimitDefault(q: RawKardexQuery)
    requires ValidKardexQuery(q).Some? && q.limit.Missing?
    ensures ValidKardexQuery(q).value.limit == Some(50)
  {
    DefaultNumerals();
  }

  datatype RawAdjustment = RawAdjustment(product: Raw, quantity: Raw, kind: Raw, reason: Raw)

  /** `adjustStockSchema`: a positive product id, a non-zero integer quantity of either
      sign, one of three kinds and a reason of at least five characters. */
  function ValidAdjustment(b: RawAdjustment): (r: Option<I.Adjustment>)
    ensures r.Some? <==>
      && PositiveInt(b.product).Some? && Integer(b.quantity).Some? && b.quantity.n != 0.0
      && b.kind.Str? && ParseAdjustKind(b.kind.s).Some? && b.reason.Str? && |b.reason.s| >= 5
    ensures r.Some? ==>
      && r.value.quantity != 0 && r.value.quantity as real == b.quantity.n
      && r.value.product as real == b.product.n && |r.value.reason| >= 5 && r.value.reason == b.reason.s
  {
    var product := PositiveInt(b.product);
    var quantity := Integer(b.quantity);
    var kind := if b.kind.Str? then ParseAdjustKind(b.kind.s) else None;
    var reason := Chars(b.reason, 5, None);
    if product.Some? && quantity.Some? && quantity.value != 0 && kind.Some? && reason.Some? then
      Some(I.Adjustment(product.value, quantity.value, kind.value, reason.value))
    else None
  }

  /** A validated adjustment always moves its product's stock, and the movement it
      posts is one of the three manual kinds. */
  lemma ValidAdjustmentMovesStock(b: RawAdjustment, ms: seq<Kardex.Movement>, username: Option<string>)
    requires ValidAdjustment(b).Some?
    ensures var a := ValidAdjustment(b).value;
      var m := I.AdjustmentMovement(a, username);
      && Kardex.Net(ms + [m], a.product) != Kardex.Net(ms, a.product)
      && m.kind in {Kardex.ENTRADA, Kardex.SALIDA, Kardex.AJUSTE_MANUAL}
  {
    var a := ValidAdjustment(b).value;
    Kardex.NetAppendOne(ms, I.AdjustmentMovement(a, username), a.product);
  }
}
