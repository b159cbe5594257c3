/** The request validators of the dispatch endpoints: what a body or query must hold
    to reach `DespachosService`, and the value it reaches it as. */
module DispatchSchemas {
  import opened Common
  import opened Text
  import opened Zod
  import D = Dispatches

  function StatusName(s: D.Status): string {
    match s
    case PREPARANDO => "PREPARANDO"
    case EN_TRANSITO => "EN_TRANSITO"
    case ENTREGADO => "ENTREGADO"
    case ANULADO => "ANULADO"
  }

  /** `DespachoEstadoEnum`: exactly the four status names. */
  function ParseStatus(text: string): (r: Option<D.Status>)
    ensures r.Some? ==> StatusName(r.value) == text
    ensures r.None? ==> forall s: D.Status :: StatusName(s) != text
  {
    if text == "PREPARANDO" then Some(D.PREPARANDO)
    else if text == "EN_TRANSITO" then Some(D.EN_TRANSITO)
    else if text == "ENTREGADO" then Some(D.ENTREGADO)
    else if text == "ANULADO" then Some(D.ANULADO)
    else None
  }

  lemma StatusNamesRoundTrip(s: D.Status)
    ensures ParseStatus(StatusName(s)) == Some(s)
  {
  }

  datatype RawDetail = RawDetail(product: Raw, measure: Raw, quantity: Raw, note: Raw)

  /** `despachoDetalleSchema` */
  function ValidDetail(d: RawDetail): (r: Option<D.LineInput>)
    ensures r.Some? <==>
      && PositiveInt(d.product).Some? && PositiveInt(d.measure).Some? && PositiveInt(d.quantity).Some?
      && (d.note.Missing? || (d.note.Str? && |d.note.s| <= 250))
    ensures r.Some? ==>
      && r.value.product as real == d.product.n && r.value.measure as real == d.measure.n
      && r.value.quantity as real == d.quantity.n && r.value.quantity > 0
      && r.value.note == (if d.note.Missing? then None else Some(d.note.s))
  {
    var product := PositiveInt(d.product);
    var measure := PositiveInt(d.measure);
    var quantity := PositiveInt(d.quantity);
    var note := OptText(d.note, Some(250));
    if product.Some? && measure.Some? && quantity.Some? && note.Some? then
      Some(D.LineInput(product.value, measure.value, quantity.value, note.value))
    else None
  }

  /** An array field: `None` is an absent field or a value that is not an array. */
  datatype RawCreate = RawCreate(mine: Raw, supervisor: Raw, trip: Raw, notes: Raw, details: Option<seq<RawDetail>>)

  /** `createDespachoSchema` */
  function ValidCreate(b: RawCreate): (r: Option<D.CreateInput>)
    ensures r.Some? <==>
      && PositiveInt(b.mine).Some? && OptPositiveInt(b.supervisor).Some? && OptPositiveInt(b.trip).Some?
      && OptText(b.notes, None).Some? && b.details.Some? && |b.details.value| >= 1
      && AllValid(b.details.value, ValidDetail).Some?
    ensures r.Some? ==>
      && |r.value.lines| >= 1 && r.value.lines == AllValid(b.details.value, ValidDetail).value
      && r.value.mine as real == b.mine.n
      && r.value.supervisor == OptPositiveInt(b.supervisor).value && r.value.trip == OptPositiveInt(b.trip).value
      && r.value.notes == OptText(b.notes, None).value
  {
    var mine := PositiveInt(b.mine);
    var supervisor := OptPositiveInt(b.supervisor);
    var trip := OptPositiveInt(b.trip);
    var notes := OptText(b.notes, None);
    if mine.Some? && supervisor.Some? && trip.Some? && notes.Some? && b.details.Some? && |b.details.value| >= 1 then
      var lines := AllValid(b.details.value, ValidDetail);
      if lines.Some? then Some(D.CreateInput(mine.value, supervisor.value, trip.value, notes.value, lines.value))
      else None
    else None
  }

  datatype RawUpdate = RawUpdate(mine: Raw, supervisor: Raw, trip: Raw, notes: Raw, details: Raw, detailList: Option<seq<RawDetail>>)

  /** `updateDespachoSchema`. `details` says whether the field is absent (`Missing`),
      an array (then `detailList` holds it), or something else. */
  function ValidUpdate(b: RawUpdate): (r: Option<D.UpdateInput>)
    ensures r.Some? ==> (b.details.Missing? <==> r.value.lines.None?)
    ensures r.Some? && r.value.lines.Some? ==> |r.value.lines.value| >= 1
    ensures !b.details.Missing? && (b.detailList.None? || b.detailList.value == []) ==> r.None?
    ensures r.Some? <==>
      && OptPositiveInt(b.mine).Some? && OptPositiveInt(b.supervisor).Some? && OptPositiveInt(b.trip).Some?
      && OptText(b.notes, None).Some?
      && (b.details.Missing? ||
          (b.detailList.Some? && |b.detailList.value| >= 1 && AllValid(b.detailList.value, ValidDetail).Some?))
    ensures r.Some? ==>
      && r.value.mine == OptPositiveInt(b.mine).value && r.value.supervisor == OptPositiveInt(b.supervisor).value
      && r.value.trip == OptPositiveInt(b.trip).value && r.value.notes == OptText(b.notes, None).value
      && (r.value.lines.Some? ==> r.value.lines.value == AllValid(b.detailList.value, ValidDetail).value)
  {
    var mine := OptPositiveInt(b.mine);
    var supervisor := OptPositiveInt(b.supervisor);
    var trip := OptPositiveInt(b.trip);
    var notes := OptText(b.notes, None);
    var lines: Option<Option<seq<D.LineInput>>> :=
      if b.details.Missing? then Some(None)
      else if b.detailList.Some? && |b.detailList.value| >= 1 then
        var ls := AllValid(b.detailList.value, ValidDetail);
        if ls.Some? then Some(Some(ls.value)) else None
      else None;
    if mine.Some? && supervisor.Some? && trip.Some? && notes.Some? && lines.Some? then
      Some(D.UpdateInput(mine.value, supervisor.value, trip.value, notes.value, lines.value))
    else None
  }

  /** `transitoDespachoSchema` and `entregarDespachoSchema`: an optional datetime. */
  function ValidDate(v: Raw): (r: Option<Option<string>>)
    ensures r.Some? <==> v.Missing? || (v.Str? && IsDatetime(v.s))
  {
    OptDatetime(v)
  }

  /** `anularDespachoSchema` */
  function ValidCancel(v: Raw): (r: Option<string>)
    ensures r.Some? <==> v.Str? && |v.s| >= 10
    ensures r.Some? ==> r.value == v.s
  {
    Chars(v, 10, None)
  }

  datatype RawQuery = RawQuery(
    page: Raw, limit: Raw, status: Raw, mine: Raw, trip: Raw, requirement: Raw,
    from: Raw, to: Raw, search: Raw)

  /** The validated query; a `None` number is `undefined` or `NaN`. */
  datatype Query = Query(
    page: Option<int>, limit: Option<int>, status: Option<D.Status>, mine: Option<int>, trip: Option<int>,
    requirement: Option<int>, from: Option<string>, to: Option<string>, search: Option<string>)

  /** `z.string().optional().default(d).transform(Number)` */
  function NumberOr(v: Raw, default: string): (r: Option<Option<int>>)
    ensures r.Some? <==> v.Missing? || v.Str?
    ensures v.Missing? ==> r == Some(StringToNumber(default))
    ensures v.Str? ==> r == Some(StringToNumber(v.s))
  {
    if v.Missing? then Some(StringToNumber(default))
    else if v.Str? then Some(StringToNumber(v.s))
    else None
  }

  /** `z.string().optional().transform(val => val ? Number(val) : undefined)` */
  function OptNumber(v: Raw): (r: Option<Option<int>>)
    ensures r.Some? <==> v.Missing? || v.Str?
    ensures v.Missing? || v == Str("") ==> r == Some(None)
    ensures v.Str? && v.s != "" ==> r == Some(StringToNumber(v.s))
  {
    if v.Missing? || v == Str("") then Some(None)
    else if v.Str? then Some(StringToNumber(v.s))
    else None
  }

  /** `z.string().optional().transform(val => val || undefined)` */
  function OptNonEmpty(v: Raw): (r: Option<Option<string>>)
    ensures r.Some? <==> v.Missing? || v.Str?
    ensures r.Some? && r.value.Some? <==> v.Str? && v.s != ""
    ensures r.Some? && r.value.Some? ==> r.value.value == v.s
  {
    if v.Missing? || v == Str("") then Some(None)
    else if v.Str? then Some(Some(v.s))
    else None
  }

  function OptStatus(v: Raw): (r: Option<Option<D.Status>>)
    ensures r == Some(None) <==> v.Missing?
    ensures r.Some? && r.value.Some? <==> v.Str? && ParseStatus(v.s).Some?
  {
    if v.Missing? then Some(None)
    else if v.Str? && ParseStatus(v.s).Some? then Some(ParseStatus(v.s))
    else None
  }

  /** `queryDespachosSchema` */
  function ValidQuery(q: RawQuery): (r: Option<Query>)
    ensures r.Some? <==>
      && NumberOr(q.page, "1").Some? && NumberOr(q.limit, "10").Some? && OptStatus(q.status).Some?
      && OptNumber(q.mine).Some? && OptNumber(q.trip).Some? && OptNumber(q.requirement).Some?
      && OptNonEmpty(q.from).Some? && OptNonEmpty(q.to).Some? && OptText(q.search, None).Some?
    ensures r.Some? ==> r.value.page == NumberOr(q.page, "1").value && r.value.limit == NumberOr(q.limit, "10").value
  {
    var page := NumberOr(q.page, "1");
    var limit := NumberOr(q.limit, "10");
    var status := OptStatus(q.status);
    var mine := OptNumber(q.mine);
    var trip := OptNumber(q.trip);
    var requirement := OptNumber(q.requirement);
    var from := OptNonEmpty(q.from);
    var to := OptNonEmpty(q.to);
    var search := OptText(q.search, None);
    if page.Some? && limit.Some? && status.Some? && mine.Some? && trip.Some? && requirement.Some?
       && from.Some? && to.Some? && search.Some? then
      Some(Query(page.value, limit.value, status.value, mine.value, trip.value, requirement.value,
        from.value, to.value, search.value))
    else None
  }

  /** An absent page reads as 1 and an absent limit as 10. */
  lemma QueryDefaults(q: RawQuery)
    requires ValidQuery(q).Some?
    ensures q.page.Missing? ==> ValidQuery(q).value.page == Some(1)
    ensures q.limit.Missing? ==> ValidQuery(q).value.limit == Some(10)
  {
    DefaultLiterals();
  }

  /** The filters `list` takes from a validated query, the date bounds converted by
      `date` (`new Date(...)`). `None` when the page or the limit is `NaN`: the
      listing has no page to show then. The requirement filter is not read by `list`. */
  function ListQueryOf(q: Query, date: string -> Instant): (r: Option<D.ListQuery>)
    ensures r.Some? <==> q.page.Some? && q.limit.Some?
    ensures r.Some? ==>
      && r.value.page == q.page.value && r.value.limit == q.limit.value
      && r.value.status == q.status && r.value.mine == q.mine && r.value.trip == q.trip
      && r.value.search == q.search
      && (r.value.from.Some? <==> q.from.Some?) && (r.value.to.Some? <==> q.to.Some?)
  {
    if q.page.Some? && q.limit.Some? then
      Some(D.ListQuery(q.page.value, q.limit.value, q.status, q.mine, q.trip,
        if q.from.Some? then Some(date(q.from.value)) else None,
        if q.to.Some? then Some(date(q.to.value)) else None,
        q.search))
    else None
  }

  /** A query without page or limit lists the first ten dispatches: page 1 from row 0. */
  lemma DefaultsReachListing(raw: RawQuery, date: string -> Instant, svc: D.DispatchService)
    requires ValidQuery(raw).Some? && raw.page.Missing? && raw.limit.Missing?
    ensures var q := ListQueryOf(ValidQuery(raw).value, date);
      && q.Some? && q.value.page == 1 && q.value.limit == 10
      && svc.ListPage(q.value).skip == 0
  {
    QueryDefaults(raw);
  }

  /** Every line of a validated body is positive, so the SALIDA posted for it is
      exactly the negated quantity and the AJUSTE_POS the quantity itself. */
  lemma ValidatedLinesPostTheirQuantity(b: RawCreate, code: string, user: string, now: Instant, id: nat, reason: string)
    requires ValidCreate(b).Some?
    ensures var d := D.NewDispatch(ValidCreate(b).value, code, user, now);
      && (forall i :: 0 <= i < |d.lines| ==> D.Salidas(d.lines, id, code, user)[i].quantity == -d.lines[i].quantity)
      && (forall i :: 0 <= i < |d.lines| ==> D.Reversals(d.lines, code, reason, user)[i].quantity == d.lines[i].quantity)
  {
    var input := ValidCreate(b).value;
    var d := D.NewDispatch(input, code, user, now);
    forall i | 0 <= i < |d.lines| ensures d.lines[i].quantity > 0 {
      assert D.AsInput(d.lines[i]) == input.lines[i];
      assert input.lines[i] == ValidDetail(b.details.value[i]).value;
    }
  }
}
