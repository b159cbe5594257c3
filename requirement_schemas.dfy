/** The request validators of the requirement endpoints. Date strings become instants
    through `date`, which stands for `new Date(text)`. */
module RequirementSchemas {
  import opened Common
  import opened Text
  import opened Zod
  import R = Requirements

  function StatusName(s: R.Status): string {
    match s
    case PENDIENTE => "PENDIENTE"
    case PARCIAL => "PARCIAL"
    case COMPLETADO => "COMPLETADO"
    case ANULADO => "ANULADO"
    case RECHAZADO => "RECHAZADO"
  }

  /** The five status names of `updateEstadoSchema` and `queryRequerimientoSchema`. */
  function ParseStatus(text: string): (r: Option<R.Status>)
    ensures r.Some? ==> StatusName(r.value) == text
    ensures r.None? ==> forall s: R.Status :: StatusName(s) != text
  {
    if text == "PENDIENTE" then Some(R.PENDIENTE)
    else if text == "PARCIAL" then Some(R.PARCIAL)
    else if text == "COMPLETADO" then Some(R.COMPLETADO)
    else if text == "ANULADO" then Some(R.ANULADO)
    else if text == "RECHAZADO" then Some(R.RECHAZADO)
    else None
  }

  lemma StatusNamesRoundTrip(s: R.Status)
    ensures ParseStatus(StatusName(s)) == Some(s)
  {
  }

  datatype RawDetail = RawDetail(product: Raw, requested: Raw, supplierPrice: Raw, minePrice: Raw, note: Raw)

  /** One element of `detalles` in `createRequerimientoSchema`. */
  function ValidDetail(d: RawDetail): (r: Option<R.DetailInput>)
    ensures r.Some? <==>
      && PositiveInt(d.product).Some? && PositiveInt(d.requested).Some?
      && NonNegative(d.supplierPrice).Some? && NonNegative(d.minePrice).Some?
      && OptText(d.note, None).Some?
    ensures r.Some? ==>
      && r.value.requested > 0 && r.value.requested as real == d.requested.n
      && r.value.supplierPrice >= 0.0 && r.value.minePrice >= 0.0
  {
    var product := PositiveInt(d.product);
    var requested := PositiveInt(d.requested);
    var supplierPrice := NonNegative(d.supplierPrice);
    var minePrice := NonNegative(d.minePrice);
    var note := OptText(d.note, None);
    if product.Some? && requested.Some? && supplierPrice.Some? && minePrice.Some? && note.Some? then
      Some(R.DetailInput(product.value, requested.value, supplierPrice.value, minePrice.value, note.value))
    else None
  }

  /** `z.string().datetime().optional().or(z.string().regex(/^\d{4}-\d{2}-\d{2}$/))`:
      the outer `None` rejects, the inner one is an absent field. */
  function DateField(v: Raw): (r: Option<Option<string>>)
    ensures r == Some(None) <==> v.Missing?
    ensures r.Some? && r.value.Some? <==> v.Str? && (IsDatetime(v.s) || IsDateOnly(v.s))
    ensures r.Some? && r.value.Some? ==> r.value.value == v.s
  {
    if v.Missing? then Some(None)
    else if v.Str? && (IsDatetime(v.s) || IsDateOnly(v.s)) then Some(Some(v.s))
    else None
  }

  datatype RawCreate = RawCreate(
    supplier: Raw, mine: Raw, supervisor: Raw, notes: Raw, issuedAt: Raw, promisedAt: Raw,
    details: Option<seq<RawDetail>>)

  /** `createRequerimientoSchema`. An absent `fecha_emision` stays undefined and an
      absent `fecha_prometida` becomes null; both are `None` here, and the service
      stores the first as the column default and the second as null. */
  function ValidCreate(b: RawCreate, date: string -> Instant): (r: Option<R.CreateInput>)
    ensures r.Some? <==>
      && PositiveInt(b.supplier).Some? && PositiveInt(b.mine).Some? && PositiveInt(b.supervisor).Some?
      && OptText(b.notes, None).Some? && DateField(b.issuedAt).Some? && DateField(b.promisedAt).Some?
      && b.details.Some? && |b.details.value| >= 1 && AllValid(b.details.value, ValidDetail).Some?
    ensures r.Some? ==>
      && |r.value.details| >= 1
      && (forall i :: 0 <= i < |r.value.details| ==> r.value.details[i].requested > 0)
      && r.value.supplier as real == b.supplier.n && r.value.mine as real == b.mine.n
      && r.value.supervisor as real == b.supervisor.n
      && r.value.notes == OptText(b.notes, None).value
      && r.value.details == AllValid(b.details.value, ValidDetail).value
      && (b.issuedAt.Missing? ==> r.value.issuedAt.None?)
      && (b.issuedAt.Str? ==> r.value.issuedAt == Some(date(b.issuedAt.s)))
      && (b.promisedAt.Missing? ==> r.value.promisedAt.None?)
      && (b.promisedAt.Str? ==> r.value.promisedAt == Some(date(b.promisedAt.s)))
  {
    var supplier := PositiveInt(b.supplier);
    var mine := PositiveInt(b.mine);
    var supervisor := PositiveInt(b.supervisor);
    var notes := OptText(b.notes, None);
    var issued := DateField(b.issuedAt);
    var promised := DateField(b.promisedAt);
    if && supplier.Some? && mine.Some? && supervisor.Some? && notes.Some? && issued.Some? && promised.Some?
       && b.details.Some? && |b.details.value| >= 1 then
      var details := AllValid(b.details.value, ValidDetail);
      if details.Some? then
        Some(R.CreateInput(supplier.value, mine.value, supervisor.value, notes.value,
          if issued.value.Some? then Some(date(issued.value.value)) else None,
          if promised.value.Some? then Some(date(promised.value.value)) else None,
          details.value))
      else None
    else None
  }

  /** `updateRequerimientoSchema` has no detail lines, so a header edit cannot touch them. */
  datatype RawUpdate = RawUpdate(supplier: Raw, mine: Raw, supervisor: Raw, notes: Raw, promisedAt: Raw)

  function ValidUpdate(b: RawUpdate, date: string -> Instant): (r: Option<R.UpdateInput>)
    ensures r.Some? <==>
      && OptPositiveInt(b.supplier).Some? && OptPositiveInt(b.mine).Some? && OptPositiveInt(b.supervisor).Some?
      && OptText(b.notes, None).Some? && (b.promisedAt.Missing? || b.promisedAt.Str?)
    ensures r.Some? ==>
      && r.value.supplier == OptPositiveInt(b.supplier).value && r.value.mine == OptPositiveInt(b.mine).value
      && r.value.supervisor == OptPositiveInt(b.supervisor).value && r.value.notes == OptText(b.notes, None).value
      && (r.value.promisedAt.Some? <==> b.promisedAt.Str? && b.promisedAt.s != "")
      && (r.value.promisedAt.Some? ==> r.value.promisedAt == Some(date(b.promisedAt.s)))
  {
    var supplier := OptPositiveInt(b.supplier);
    var mine := OptPositiveInt(b.mine);
    var supervisor := OptPositiveInt(b.supervisor);
    var notes := OptText(b.notes, None);
    if && supplier.Some? && mine.Some? && supervisor.Some? && notes.Some?
       && (b.promisedAt.Missing? || b.promisedAt.Str?) then
      var promised := if b.promisedAt.Str? && b.promisedAt.s != "" then Some(date(b.promisedAt.s)) else None;
      Some(R.UpdateInput(supplier.value, mine.value, supervisor.value, notes.value, promised))
    else None
  }

  /** `updateEstadoSchema`, refinement included: cancelling needs a non-empty reason. */
  function ValidStatus(status: Raw, reason: Raw): (r: Option<(R.Status, Option<string>)>)
    ensures r.Some? <==>
      && status.Str? && ParseStatus(status.s).Some? && OptText(reason, None).Some?
      && (ParseStatus(status.s).value == R.ANULADO ==> reason.Str? && reason.s != "")
    ensures r.Some? ==> r.value.0 == ParseStatus(status.s).value && r.value.1 == OptText(reason, None).value
  {
    var s := if status.Str? then ParseStatus(status.s) else None;
    var m := OptText(reason, None);
    if s.Some? && m.Some? && !(s.value == R.ANULADO && !TruthyText(m.value)) then Some((s.value, m.value))
    else None
  }

  /** What the refinement decides: a missing or empty reason is refused exactly for
      ANULADO. */
  lemma ReasonRequiredOnlyToCancel(s: R.Status, reason: Raw)
    requires reason.Missing? || reason == Str("")
    ensures ValidStatus(Str(StatusName(s)), reason).Some? <==> s != R.ANULADO
  {
    StatusNamesRoundTrip(s);
  }

  datatype RawQuery = RawQuery(page: Raw, limit: Raw, supplier: Raw, status: Raw, from: Raw, to: Raw, search: Raw)

  /** `queryRequerimientoSchema`, read as the filters `getAll` is meant to receive (see
      `FiltersAsPassed` for what its controller hands over). The schema has no mine
      filter, so that one is always absent. */
  function ValidQuery(q: RawQuery, date: string -> Instant): (r: Option<R.ListFilters>)
    ensures r.Some? <==>
      && ParsedIntOr(q.page, "1").Some? && ParsedIntOr(q.limit, "10").Some? && OptParsedInt(q.supplier).Some?
      && (q.status.Missing? || (q.status.Str? && ParseStatus(q.status.s).Some?))
      && OptText(q.from, None).Some? && OptText(q.to, None).Some? && OptText(q.search, None).Some?
    ensures r.Some? ==> r.value.mine.None?
    ensures r.Some? ==> r.value.page == ParsedIntOr(q.page, "1").value && r.value.limit == ParsedIntOr(q.limit, "10").value
  {
    var page := ParsedIntOr(q.page, "1");
    var limit := ParsedIntOr(q.limit, "10");
    var supplier := OptParsedInt(q.supplier);
    var status: Option<Option<R.Status>> :=
      if q.status.Missing? then Some(None)
      else if q.status.Str? && ParseStatus(q.status.s).Some? then Some(ParseStatus(q.status.s))
      else None;
    var from := OptText(q.from, None);
    var to := OptText(q.to, None);
    var search := OptText(q.search, None);
    if page.Some? && limit.Some? && supplier.Some? && status.Some? && from.Some? && to.Some? && search.Some? then
      Some(R.ListFilters(page.value, limit.value,
        if supplier.value.Some? then supplier.value.value else None,
        None, status.value, search.value,
        if TruthyText(from.value) then Some(date(from.value.value)) else None,
        if TruthyText(to.value) then Some(date(to.value.value)) else None))
    else None
  }

  /** With no page or limit, the list starts at row 0 and shows ten rows; a page or a
      limit that `parseInt` reads as `NaN` falls back the same way. */
  lemma QueryPagingDefaults(q: RawQuery, date: string -> Instant, total: nat)
    requires ValidQuery(q, date).Some?
    requires q.page.Missing? || (q.page.Str? && ParseInt(q.page.s).None?)
    requires q.limit.Missing? || (q.limit.Str? && ParseInt(q.limit.s).None?)
    ensures R.PageOf(ValidQuery(q, date).value, total).page == 1
    ensures R.PageOf(ValidQuery(q, date).value, total).limit == 10
    ensures R.PageOf(ValidQuery(q, date).value, total).skip == 0
  {
    DefaultLiterals();
  }

  /** What `getAll(filters)` receives from its controller, which calls
      `getAll(query.page, query.limit, query)`: the page number alone. Every property
      read off a number is `undefined`, so no filter and no paging survives. */
  function FiltersAsPassed(query: R.ListFilters): (r: R.ListFilters)
    ensures !TruthyNum(r.page) && !TruthyNum(r.limit)
    ensures forall x: R.Requirement :: R.Selected(r, x) <==> x.deletedAt.None?
  {
    R.ListFilters(None, None, None, None, None, None, None, None)
  }

  /** As called, the listing is always page 1 of ten rows, and it selects every live
      requirement whatever the query asked for. */
  lemma AsPassedIgnoresQuery(query: R.ListFilters, total: nat, r: R.Requirement)
    ensures R.PageOf(FiltersAsPassed(query), total).page == 1
    ensures R.PageOf(FiltersAsPassed(query), total).limit == 10
    ensures R.Selected(FiltersAsPassed(query), r) <==> r.deletedAt.None?
  {
  }

  /** A query for page 2 of the cancelled requirements: as called, the program shows
      page 1 and counts a pending requirement among them; with the query passed whole,
      page 2 is shown and the pending one is left out. */
  lemma AsPassedLosesQuery(r: R.Requirement, total: nat)
    requires r.deletedAt.None? && r.status == R.PENDIENTE
    ensures var query := R.ListFilters(Some(2), None, None, None, Some(R.ANULADO), None, None, None);
      && R.PageOf(FiltersAsPassed(query), total).page == 1 && R.Selected(FiltersAsPassed(query), r)
      && R.PageOf(query, total).page == 2 && !R.Selected(query, r)
  {
  }
}
