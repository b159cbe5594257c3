/** The requirement service (`RequerimientosService`): purchase requirements with
    their detail lines, the status and header guards, and fulfilment progress. */
module Requirements {
  import opened Common
  import opened Text

  datatype Status = PENDIENTE | PARCIAL | COMPLETADO | ANULADO | RECHAZADO

  datatype DetailInput = DetailInput(
    product: nat, requested: int, supplierPrice: real, minePrice: real, note: Option<string>)

  /** A `requerimiento_detalles` row; `delivered` is kept by the trip procedure. */
  datatype Detail = Detail(
    id: nat, product: nat, requested: int, delivered: Option<nat>,
    supplierPrice: real, minePrice: real, note: Option<string>, createdBy: string)

  /** A validated create body. `issuedAt` absent leaves the column default;
      `promisedAt` absent stores null. */
  datatype CreateInput = CreateInput(
    supplier: nat, mine: nat, supervisor: nat, notes: Option<string>,
    issuedAt: Option<Instant>, promisedAt: Option<Instant>, details: seq<DetailInput>)

  /** A validated header edit: every field optional, no detail lines. */
  datatype UpdateInput = UpdateInput(
    supplier: Option<nat>, mine: Option<nat>, supervisor: Option<nat>, notes: Option<string>,
    promisedAt: Option<Instant>)

  datatype Requirement = Requirement(
    code: string, supplier: nat, mine: nat, supervisor: nat, notes: Option<string>,
    issuedAt: Option<Instant>, promisedAt: Option<Instant>, status: Status,
    cancelReason: Option<string>, createdBy: string, updatedBy: Option<string>,
    deletedAt: Option<Instant>, details: seq<Detail>)

  const NotFound := AppError(404, "Requerimiento no encontrado")
  const CodeFailed := AppError(500, "Error al generar código de requerimiento")
  const Cancelled := AppError(400, "No se puede cambiar el estado de un requerimiento anulado")
  const NotPending := AppError(400, "Solo se pueden editar requerimientos en estado PENDIENTE")

  /** `userId ? String(userId) : 'system'` */
  function Author(userId: Option<int>): (a: string)
    ensures !TruthyNum(userId) ==> a == "system"
    ensures TruthyNum(userId) ==> ParseInt(a) == Some(userId.value)
  {
    if TruthyNum(userId) then
      ParseIntOfIntToString(userId.value);
      IntToString(userId.value)
    else "system"
  }

  /** The detail rows created with a requirement, numbered from `firstId`. */
  function NewDetails(inputs: seq<DetailInput>, firstId: nat, author: string): (ds: seq<Detail>)
    ensures |ds| == |inputs|
    ensures forall i :: 0 <= i < |ds| ==>
      && ds[i].id == firstId + i && ds[i].product == inputs[i].product
      && ds[i].requested == inputs[i].requested && ds[i].delivered.None?
      && ds[i].supplierPrice == inputs[i].supplierPrice && ds[i].minePrice == inputs[i].minePrice
      && ds[i].note == inputs[i].note && ds[i].createdBy == author
  {
    seq(|inputs|, i requires 0 <= i < |inputs| =>
      Detail(firstId + i, inputs[i].product, inputs[i].requested, None,
        inputs[i].supplierPrice, inputs[i].minePrice, inputs[i].note, author))
  }

  /** The header after a header edit (`...data`: absent fields are left alone). */
  function Edited(r: Requirement, input: UpdateInput, userId: Option<int>): (e: Requirement)
    ensures e.code == r.code && e.status == r.status && e.details == r.details
    ensures e.issuedAt == r.issuedAt && e.cancelReason == r.cancelReason && e.deletedAt == r.deletedAt
    ensures e.supplier == (if input.supplier.Some? then input.supplier.value else r.supplier)
    ensures e.mine == (if input.mine.Some? then input.mine.value else r.mine)
    ensures e.supervisor == (if input.supervisor.Some? then input.supervisor.value else r.supervisor)
    ensures e.notes == (if input.notes.Some? then input.notes else r.notes)
    ensures e.promisedAt == (if input.promisedAt.Some? then input.promisedAt else r.promisedAt)
    ensures e.updatedBy == Some(Author(userId))
  {
    r.(supplier := Override(r.supplier, input.supplier),
       mine := Override(r.mine, input.mine),
       supervisor := Override(r.supervisor, input.supervisor),
       notes := OverrideOpt(r.notes, input.notes),
       promisedAt := OverrideOpt(r.promisedAt, input.promisedAt),
       updatedBy := Some(Author(userId)))
  }

  /** `Math.min(100, Math.round(e / s * 100))` in exact arithmetic, with `Math.round`
      rounding halves up: the whole percentage nearest to `100·e/s`, capped at 100. */
  function Percent(e: nat, s: int): (p: int)
    requires s > 0
    ensures 0 <= p <= 100
    ensures p < 100 ==> 2 * p * s - s <= 200 * e < 2 * p * s + s
    ensures p == 100 ==> 200 * e >= 199 * s
    ensures e >= s ==> p == 100
    ensures e == 0 ==> p == 0
  {
    var q := (200 * e + s) / (2 * s);
    RoundedQuotient(e, s, q);
    if q < 100 then q else 100
  }

  lemma MulLe(a: int, b: int, c: int)
    requires a <= b && c >= 0
    ensures a * c <= b * c
  {
    assert b * c - a * c == (b - a) * c;
  }

  /** The quotient behind `Percent`: the whole number nearest to `100·e/s`. */
  lemma RoundedQuotient(e: nat, s: int, q: int)
    requires s > 0 && q == (200 * e + s) / (2 * s)
    ensures q >= 0
    ensures 2 * q * s - s <= 200 * e < 2 * q * s + s
    ensures q >= 100 ==> 200 * e >= 199 * s
    ensures e >= s ==> q >= 100
    ensures e == 0 ==> q == 0
  {
    var n := 200 * e + s;
    var r := n % (2 * s);
    assert n == (2 * s) * q + r && 0 <= r < 2 * s;
    assert (2 * s) * q == 2 * (q * s);
    if q < 0 {
      MulLe(q, -1, s);
      assert false;
    }
    if q >= 100 {
      MulLe(100, q, s);
    }
    if e >= s && q < 100 {
      MulLe(q, 99, s);
      assert false;
    }
    if e == 0 && q > 0 {
      MulLe(1, q, s);
      assert false;
    }
  }

  /** The whole-requirement figure: 0 when nothing was requested. */
  function TotalPercent(delivered: nat, requested: int): (p: int)
    ensures 0 <= p <= 100
    ensures requested <= 0 ==> p == 0
    ensures requested > 0 ==> p == Percent(delivered, requested)
  {
    if requested > 0 then Percent(delivered, requested) else 0
  }

  /** The delivered quantity of a line; one with none recorded counts as 0. */
  function DeliveredOf(d: Detail): (n: nat)
    ensures d.delivered.None? ==> n == 0
    ensures d.delivered.Some? ==> n == d.delivered.value
  {
    if d.delivered.Some? then d.delivered.value else 0
  }

  /** The requested total; when every line asks for something it is positive, so the
      whole-requirement percentage is taken against it. */
  function SumRequested(ds: seq<Detail>): (n: int)
    ensures (forall i :: 0 <= i < |ds| ==> ds[i].requested >= 0) ==> n >= 0
    ensures ds != [] && (forall i :: 0 <= i < |ds| ==> ds[i].requested > 0) ==> n > 0
  {
    if ds == [] then 0 else SumRequested(ds[..|ds| - 1]) + ds[|ds| - 1].requested
  }

  /** The delivered total: 0 while no line has a delivery recorded. */
  function SumDelivered(ds: seq<Detail>): (n: nat)
    ensures (forall i :: 0 <= i < |ds| ==> ds[i].delivered.None?) ==> n == 0
  {
    if ds == [] then 0 else SumDelivered(ds[..|ds| - 1]) + DeliveredOf(ds[|ds| - 1])
  }

  datatype LineProgress = LineProgress(product: nat, name: string, requested: int, delivered: nat, percent: int)

  /** `{porcentaje: 0, detalles: []}` for a requirement without lines, the summary
      otherwise. */
  datatype Progress =
    | NoLines
    | Summary(id: nat, code: string, status: Status, total: int, lines: seq<LineProgress>)

  predicate PositiveRequests(ds: seq<Detail>) {
    forall i :: 0 <= i < |ds| ==> ds[i].requested > 0
  }

  function LineProgressOf(d: Detail, productName: nat -> string): LineProgress
    requires d.requested > 0
  {
    LineProgress(d.product, productName(d.product), d.requested, DeliveredOf(d), Percent(DeliveredOf(d), d.requested))
  }

  function ProgressLines(ds: seq<Detail>, productName: nat -> string): (ls: seq<LineProgress>)
    requires PositiveRequests(ds)
    ensures |ls| == |ds|
    ensures forall i :: 0 <= i < |ds| ==> ls[i] == LineProgressOf(ds[i], productName)
  {
    if ds == [] then [] else ProgressLines(ds[..|ds| - 1], productName) + [LineProgressOf(ds[|ds| - 1], productName)]
  }

  /** If every line is fully delivered, so is the whole. */
  lemma {:induction false} AllDeliveredSums(ds: seq<Detail>)
    requires forall i :: 0 <= i < |ds| ==> DeliveredOf(ds[i]) >= ds[i].requested
    ensures SumDelivered(ds) >= SumRequested(ds)
  {
    if ds != [] {
      AllDeliveredSums(ds[..|ds| - 1]);
    }
  }

  /** Positive requests add up to at least the number of lines. */
  lemma {:induction false} SumRequestedPositive(ds: seq<Detail>)
    requires PositiveRequests(ds)
    ensures SumRequested(ds) >= |ds|
  {
    if ds != [] {
      SumRequestedPositive(ds[..|ds| - 1]);
    }
  }

  lemma FullyDeliveredIsComplete(ds: seq<Detail>)
    requires ds != [] && PositiveRequests(ds)
    requires forall i :: 0 <= i < |ds| ==> DeliveredOf(ds[i]) >= ds[i].requested
    ensures TotalPercent(SumDelivered(ds), SumRequested(ds)) == 100
  {
    AllDeliveredSums(ds);
    SumRequestedPositive(ds);
  }

  /** Forty of a hundred units delivered is 40%, and 1 of 3 rounds to 33%, 2 of 3 to 67%. */
  lemma PercentExamples()
    ensures Percent(40, 100) == 40
    ensures Percent(1, 3) == 33
    ensures Percent(2, 3) == 67
    ensures Percent(1, 200) == 1
    ensures Percent(250, 100) == 100
  {
  }

  /** The filters of `getAll` as the service reads them: absent numbers are `None`. */
  datatype ListFilters = ListFilters(
    page: Option<int>, limit: Option<int>, supplier: Option<int>, mine: Option<int>,
    status: Option<Status>, search: Option<string>, from: Option<Instant>, to: Option<Instant>)

  /** The `where` of `getAll`: live rows only, each filter when truthy, and the issue
      date range only when both bounds are given. */
  predicate Selected(f: ListFilters, r: Requirement)
    ensures Selected(f, r) ==> r.deletedAt.None?
    ensures (f.supplier.None? && f.mine.None? && f.status.None? && f.search.None? && f.from.None? && f.to.None?)
            ==> (Selected(f, r) <==> r.deletedAt.None?)
  {
    && r.deletedAt.None?
    && (TruthyNum(f.supplier) ==> r.supplier == f.supplier.value)
    && (TruthyNum(f.mine) ==> r.mine == f.mine.value)
    && (f.status.Some? ==> r.status == f.status.value)
    && (TruthyText(f.search) ==> Contains(r.code, f.search.value))
    && (f.from.Some? && f.to.Some? ==>
          r.issuedAt.Some? && f.from.value <= r.issuedAt.value <= f.to.value)
  }

  /** `page = Number(page) || 1`, `limit = Number(limit) || 10`; neither is ever 0, so
      the page count is always defined. */
  function PageOf(f: ListFilters, total: nat): (p: Page)
    ensures p.page == (if TruthyNum(f.page) then f.page.value else 1) && p.page != 0
    ensures p.limit == (if TruthyNum(f.limit) then f.limit.value else 10) && p.limit != 0
    ensures p.skip == (p.page - 1) * p.limit && p.total == total
    ensures p.totalPages.Some?
    ensures p.limit > 0 ==> (p.totalPages.value - 1) * p.limit < total <= p.totalPages.value * p.limit
  {
    var page := NumOr(f.page, 1);
    var limit := NumOr(f.limit, 10);
    Paginate(page, limit, total)
  }

  /** A missing page and limit give the first page of ten rows. */
  lemma DefaultPaging(f: ListFilters, total: nat)
    requires f.page.None? && f.limit.None?
    ensures PageOf(f, total).skip == 0 && PageOf(f, total).limit == 10
    ensures PageOf(f, total).totalPages == Some((total + 9) / 10)
  {
    var p := PageOf(f, total);
    var k := (total + 9) / 10;
    assert (k - 1) * 10 < total <= k * 10;
  }

  class RequirementStore {
    var items: map<nat, Requirement>
    var nextId: nat
    var nextDetailId: nat

    /** Ids come from the counters and every stored line asks for a positive amount. */
    ghost predicate Valid()
      reads this
    {
      && 0 < nextId
      && forall id :: id in items ==> 0 < id < nextId && PositiveRequests(items[id].details)
    }

    constructor ()
      ensures Valid() && items == map[]
    {
      items := map[];
      nextId := 1;
      nextDetailId := 1;
    }

    function GetById(id: nat): (r: Result<Requirement>)
      reads this
      ensures r.Err? <==> id !in items
      ensures r.Err? ==> r.error == NotFound
      ensures r.Ok? ==> r.value == items[id]
    {
      if id in items then Ok(items[id]) else Err(NotFound)
    }

    function ListPage(f: ListFilters): (p: Page)
      reads this
      ensures p.total == |set id | id in items && Selected(f, items[id])|
    {
      PageOf(f, |set id | id in items && Selected(f, items[id])|)
    }

    /** `create`. `code` is what `sp_generar_codigo_requerimiento` leaves in `@codigo`;
        `issuedDefault` is what the database stores in `fecha_emision` when the body
        leaves it out (the column default, such as the current time). */
    method Create(input: CreateInput, userId: Option<int>, code: Option<string>, issuedDefault: Option<Instant>)
      returns (r: Result<nat>)
      requires Valid()
      requires forall i :: 0 <= i < |input.details| ==> input.details[i].requested > 0
      modifies this
      ensures Valid()
      ensures !TruthyText(code) ==>
        r == Err(CodeFailed) && items == old(items) && nextId == old(nextId) && nextDetailId == old(nextDetailId)
      ensures TruthyText(code) ==>
        && r == Ok(old(nextId)) && old(nextId) !in old(items)
        && items == old(items)[old(nextId) := Requirement(code.value, input.supplier, input.mine, input.supervisor,
             input.notes, if input.issuedAt.Some? then input.issuedAt else issuedDefault, input.promisedAt,
             PENDIENTE, None, Author(userId), None, None, NewDetails(input.details, old(nextDetailId), Author(userId)))]
        && nextId == old(nextId) + 1 && nextDetailId == old(nextDetailId) + |input.details|
    {
      if !TruthyText(code) {
        return Err(CodeFailed);
      }
      var author := Author(userId);
      var details := NewDetails(input.details, nextDetailId, author);
      var issued := if input.issuedAt.Some? then input.issuedAt else issuedDefault;
      var req := Requirement(code.value, input.supplier, input.mine, input.supervisor, input.notes,
        issued, input.promisedAt, PENDIENTE, None, author, None, None, details);
      r := Ok(nextId);
      items := items[nextId := req];
      nextId := nextId + 1;
      nextDetailId := nextDetailId + |input.details|;
    }

    /** `updateStatus`: any status may follow any other, except that nothing leaves
        ANULADO. An absent reason leaves the stored one. */
    method UpdateStatus(id: nat, status: Status, reason: Option<string>, userId: Option<int>) returns (r: Result<Requirement>)
      requires Valid()
      modifies this
      ensures Valid() && nextId == old(nextId) && nextDetailId == old(nextDetailId)
      ensures id !in old(items) ==> r == Err(NotFound) && items == old(items)
      ensures id in old(items) && old(items[id].status) == ANULADO ==> r == Err(Cancelled) && items == old(items)
      ensures id in old(items) && old(items[id].status) != ANULADO ==>
        && items == old(items)[id := old(items[id]).(status := status,
             cancelReason := OverrideOpt(old(items[id]).cancelReason, reason), updatedBy := Some(Author(userId)))]
        && r == Ok(items[id])
    {
      var found := GetById(id);
      if found.Err? {
        return Err(found.error);
      }
      if found.value.status == ANULADO {
        return Err(Cancelled);
      }
      var e := found.value.(status := status, cancelReason := OverrideOpt(found.value.cancelReason, reason),
        updatedBy := Some(Author(userId)));
      items := items[id := e];
      r := Ok(e);
    }

    /** `update`: header fields only, and only while PENDIENTE. */
    method Update(id: nat, input: UpdateInput, userId: Option<int>) returns (r: Result<Requirement>)
      requires Valid()
      modifies this
      ensures Valid() && nextId == old(nextId) && nextDetailId == old(nextDetailId)
      ensures id !in old(items) ==> r == Err(NotFound) && items == old(items)
      ensures id in old(items) && old(items[id].status) != PENDIENTE ==> r == Err(NotPending) && items == old(items)
      ensures id in old(items) && old(items[id].status) == PENDIENTE ==>
        items == old(items)[id := Edited(old(items[id]), input, userId)] && r == Ok(items[id])
    {
      var found := GetById(id);
      if found.Err? {
        return Err(found.error);
      }
      if found.value.status != PENDIENTE {
        return Err(NotPending);
      }
      var e := Edited(found.value, input, userId);
      items := items[id := e];
      r := Ok(e);
    }

    /** `getProgress`: the loop adds up the requested and delivered amounts while it
        maps each line to its percentage. */
    method GetProgress(id: nat, productName: nat -> string) returns (r: Result<Progress>)
      requires Valid()
      ensures id !in items ==> r == Err(NotFound)
      ensures id in items && items[id].details == [] ==> r == Ok(NoLines)
      ensures id in items && items[id].details != [] ==>
        var ds := items[id].details;
        r == Ok(Summary(id, items[id].code, items[id].status,
          TotalPercent(SumDelivered(ds), SumRequested(ds)), ProgressLines(ds, productName)))
    {
      var found := GetById(id);
      if found.Err? {
        return Err(found.error);
      }
      var ds := found.value.details;
      if |ds| == 0 {
        return Ok(NoLines);
      }
      var totalRequested := 0;
      var totalDelivered := 0;
      var lines := [];
      var i := 0;
      while i < |ds|
        invariant 0 <= i <= |ds|
        invariant totalRequested == SumRequested(ds[..i])
        invariant totalDelivered == SumDelivered(ds[..i])
        invariant lines == ProgressLines(ds[..i], productName)
      {
        var d := ds[i];
        var delivered := DeliveredOf(d);
        totalRequested := totalRequested + d.requested;
        totalDelivered := totalDelivered + delivered;
        lines := lines + [LineProgress(d.product, productName(d.product), d.requested, delivered, Percent(delivered, d.requested))];
        assert ds[..i + 1][..i] == ds[..i];
        assert SumRequested(ds[..i + 1]) == SumRequested(ds[..i]) + d.requested;
        assert SumDelivered(ds[..i + 1]) == SumDelivered(ds[..i]) + delivered;
        i := i + 1;
      }
      assert ds[..|ds|] == ds;
      var total := if totalRequested > 0 then Percent(totalDelivered, totalRequested) else 0;
      r := Ok(Summary(id, found.value.code, found.value.status, total, lines));
    }
  }
}
