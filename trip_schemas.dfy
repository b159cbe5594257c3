/** The trip-registration validator (`createViajeSchema`). */
module TripSchemas {
  import opened Common
  import opened Zod
  import T = Trips

  function DeliveryName(d: T.Delivery): string {
    match d
    case OK => "OK"
    case RECHAZADO => "RECHAZADO"
    case PARCIAL => "PARCIAL"
    case MUESTRA => "MUESTRA"
    case DA_ADO => "DA_ADO"
  }

  function ParseDelivery(text: string): (r: Option<T.Delivery>)
    ensures r.Some? ==> DeliveryName(r.value) == text
    ensures r.None? ==> forall d: T.Delivery :: DeliveryName(d) != text
  {
    if text == "OK" then Some(T.OK)
    else if text == "RECHAZADO" then Some(T.RECHAZADO)
    else if text == "PARCIAL" then Some(T.PARCIAL)
    else if text == "MUESTRA" then Some(T.MUESTRA)
    else if text == "DA_ADO" then Some(T.DA_ADO)
    else None
  }

  lemma DeliveryNamesRoundTrip(d: T.Delivery)
    ensures ParseDelivery(DeliveryName(d)) == Some(d)
  {
  }

  /** `z.enum([...]).default('OK')` */
  function DeliveryField(v: Raw): (r: Option<T.Delivery>)
    ensures v.Missing? ==> r == Some(T.OK)
    ensures !v.Missing? ==> (r.Some? <==> v.Str? && ParseDelivery(v.s).Some?)
    ensures r.Some? && !v.Missing? ==> DeliveryName(r.value) == v.s
  {
    if v.Missing? then Some(T.OK)
    else if v.Str? then ParseDelivery(v.s)
    else None
  }

  datatype RawDetail = RawDetail(requirementLine: Raw, received: Raw, outcome: Raw, note: Raw)

  function ValidDetail(d: RawDetail): (r: Option<T.DetailInput>)
    ensures r.Some? <==>
      && PositiveInt(d.requirementLine).Some? && PositiveInt(d.received).Some?
      && DeliveryField(d.outcome).Some? && OptText(d.note, None).Some?
    ensures r.Some? ==> r.value.received > 0 && r.value.received as real == d.received.n
    ensures r.Some? && d.outcome.Missing? ==> r.value.outcome == T.OK
  {
    var line := PositiveInt(d.requirementLine);
    var received := PositiveInt(d.received);
    var outcome := DeliveryField(d.outcome);
    var note := OptText(d.note, None);
    if line.Some? && received.Some? && outcome.Some? && note.Some? then
      Some(T.DetailInput(line.value, received.value, outcome.value, note.value))
    else None
  }

  datatype RawTrip = RawTrip(
    requirement: Raw, plate: Raw, driver: Raw, arrivedAt: Raw, notes: Raw, details: Option<seq<RawDetail>>)

  /** `createViajeSchema`. `now` is `new Date()` and `date` is `new Date(text)`. */
  function ValidTrip(b: RawTrip, now: Instant, date: string -> Instant): (r: Option<T.TripInput>)
    ensures r.Some? <==>
      && PositiveInt(b.requirement).Some? && Chars(b.plate, 1, Some(20)).Some? && Chars(b.driver, 1, Some(100)).Some?
      && OptDatetime(b.arrivedAt).Some? && OptText(b.notes, None).Some?
      && b.details.Some? && |b.details.value| >= 1 && AllValid(b.details.value, ValidDetail).Some?
    ensures r.Some? ==>
      && r.value.requirement as real == b.requirement.n
      && r.value.plate == b.plate.s && 1 <= |r.value.plate| <= 20
      && r.value.driver == b.driver.s && 1 <= |r.value.driver| <= 100
      && r.value.notes == OptText(b.notes, None).value
      && |r.value.details| >= 1 && r.value.details == AllValid(b.details.value, ValidDetail).value
      && (b.arrivedAt.Missing? ==> r.value.arrivedAt == now)
      && (b.arrivedAt.Str? ==> r.value.arrivedAt == date(b.arrivedAt.s))
      && (forall i :: 0 <= i < |r.value.details| ==> r.value.details[i].received > 0)
  {
    var requirement := PositiveInt(b.requirement);
    var plate := Chars(b.plate, 1, Some(20));
    var driver := Chars(b.driver, 1, Some(100));
    var arrived := OptDatetime(b.arrivedAt);
    var notes := OptText(b.notes, None);
    if && requirement.Some? && plate.Some? && driver.Some? && arrived.Some? && notes.Some?
       && b.details.Some? && |b.details.value| >= 1 then
      var details := AllValid(b.details.value, ValidDetail);
      if details.Some? then
        Some(T.TripInput(requirement.value, plate.value, driver.value,
          if arrived.value.Some? then date(arrived.value.value) else now,
          notes.value, details.value))
      else None
    else None
  }
}
