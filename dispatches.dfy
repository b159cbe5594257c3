/** The dispatch service (`DespachosService`): dispatches move PREPARANDO ->
    EN_TRANSITO -> ENTREGADO, and any state but ANULADO may be cancelled. Going to
    transit posts one SALIDA per line to the shared ledger; cancelling after transit
    posts one AJUSTE_POS per line. */
module Dispatches {
  import opened Common
  import opened Text
  import Kardex

  datatype Status = PREPARANDO | EN_TRANSITO | ENTREGADO | ANULADO

  /** A detail line as the caller sends it. */
  datatype LineInput = LineInput(product: nat, measure: nat, quantity: int, note: Option<string>)

  /** A stored `despacho_detalles` row. */
  datatype Line = Line(product: nat, measure: nat, quantity: int, note: Option<string>, createdBy: string)

  datatype CreateInput = CreateInput(
    mine: nat, supervisor: Option<nat>, trip: Option<nat>, notes: Option<string>, lines: seq<LineInput>)

  /** Every field optional; `lines`, when given, replaces the whole line list. */
  datatype UpdateInput = UpdateInput(
    mine: Option<nat>, supervisor: Option<nat>, trip: Option<nat>, notes: Option<string>,
    lines: Option<seq<LineInput>>)

  /** A `despachos` row together with its detail lines. */
  datatype Dispatch = Dispatch(
    code: string,
    mine: nat,
    supervisor: Option<nat>,
    trip: Option<nat>,
    notes: Option<string>,
    status: Status,
    cancelReason: Option<string>,
    departedAt: Option<Instant>,
    deliveredAt: Option<Instant>,
    createdAt: Instant,
    createdBy: string,
    updatedBy: Option<string>,
    lines: seq<Line>)

  const NotFound := PlainError("Despacho no encontrado")
  const NotEditable := PlainError("Solo se pueden editar despachos en estado PREPARANDO")
  const NotDeletable := PlainError("Solo se pueden eliminar despachos en estado PREPARANDO")
  const NotReadyForTransit := PlainError("Solo se pueden enviar a tránsito despachos en estado PREPARANDO")
  const NotInTransit := PlainError("Solo se pueden entregar despachos en estado EN_TRANSITO")
  const AlreadyCancelled := PlainError("El despacho ya está anulado")
  const Deleted := "Despacho eliminado correctamente"

  /** The input a stored line was made from (forgets the author). */
  function AsInput(l: Line): LineInput {
    LineInput(l.product, l.measure, l.quantity, l.note)
  }

  /** The rows `createMany` inserts for the given detail lines. */
  function StoredLines(inputs: seq<LineInput>, user: string): (r: seq<Line>)
    ensures |r| == |inputs|
    ensures forall i :: 0 <= i < |r| ==> AsInput(r[i]) == inputs[i] && r[i].createdBy == user
  {
    seq(|inputs|, i requires 0 <= i < |inputs| =>
      Line(inputs[i].product, inputs[i].measure, inputs[i].quantity, inputs[i].note, user))
  }

  /** The largest id in use, 0 when there is none (`ultimoDespacho?.id_despacho || 0`). */
  function LastId(ids: set<nat>): (m: nat)
    ensures ids == {} ==> m == 0
    ensures ids != {} ==> m in ids && forall k :: k in ids ==> k <= m
  {
    if ids == {} then 0
    else
      MaxExists(ids);
      var m :| m in ids && forall k :: k in ids ==> k <= m;
      m
  }

  lemma {:induction false} MaxExists(ids: set<nat>)
    requires ids != {}
    ensures exists m :: m in ids && forall k :: k in ids ==> k <= m
    decreases |ids|
  {
    var x :| x in ids;
    if ids != {x} {
      var rest := ids - {x};
      MaxExists(rest);
      var m :| m in rest && forall k :: k in rest ==> k <= m;
      var top := if x <= m then m else x;
      assert forall k :: k in ids ==> k == x || k in rest;
      assert top in ids && forall k :: k in ids ==> k <= top;
    } else {
      assert forall k :: k in ids ==> k <= x;
    }
  }

  /** `DSP-<year>-<number padded with zeros to four digits>`: the year reads back from
      the digits after the prefix, and a hyphen follows them. */
  function DispatchCode(year: nat, number: nat): (r: string)
    ensures var y := |NatToString(year)|;
      && |r| >= 4 + y + 1 + 4 && r[..4] == "DSP-" && r[4 + y] == '-'
      && AllDigits(r[4..4 + y]) && DigitsValue(r[4..4 + y]) == year
  {
    CodeLayout(year, number);
    "DSP-" + NatToString(year) + "-" + PadStart(NatToString(number), 4, '0')
  }

  lemma CodeLayout(year: nat, number: nat)
    ensures var r, y := "DSP-" + NatToString(year) + "-" + PadStart(NatToString(number), 4, '0'), |NatToString(year)|;
      && |r| >= 4 + y + 1 + 4 && r[..4] == "DSP-" && r[4 + y] == '-'
      && AllDigits(r[4..4 + y]) && DigitsValue(r[4..4 + y]) == year
  {
    DigitsValueOfNatToString(year);
    DigitsLayout(NatToString(year), PadStart(NatToString(number), 4, '0'), year);
  }

  /** Where the prefix, the year's digits and the hyphen sit in a code. */
  lemma DigitsLayout(y: string, pad: string, year: nat)
    requires AllDigits(y) && DigitsValue(y) == year && |pad| >= 4
    ensures var r := "DSP-" + y + "-" + pad;
      && |r| >= 4 + |y| + 1 + 4 && r[..4] == "DSP-" && r[4 + |y|] == '-'
      && AllDigits(r[4..4 + |y|]) && DigitsValue(r[4..4 + |y|]) == year
  {
    var r := "DSP-" + y + "-" + pad;
    assert r[..4] == "DSP-";
    assert r[4..4 + |y|] == y;
  }

  /** The code for a new dispatch, given the ids of the dispatches that exist. */
  function NextCode(year: nat, ids: set<nat>): string {
    DispatchCode(year, LastId(ids) + 1)
  }

  /** The code's number reads back from the part after the second hyphen, which has at
      least four digits. */
  lemma CodeNumberReadsBack(year: nat, number: nat)
    ensures var code := DispatchCode(year, number);
      var tail := code[|"DSP-" + NatToString(year) + "-"|..];
      |tail| >= 4 && AllDigits(tail) && DigitsValue(tail) == number
  {
    var head := "DSP-" + NatToString(year) + "-";
    var pad := PadStart(NatToString(number), 4, '0');
    assert DispatchCode(year, number) == head + pad;
    assert (head + pad)[|head|..] == pad;
    PaddedDecimalRoundTrip(number, 4);
  }

  /** Codes issued in one year for different numbers differ. */
  lemma CodesDistinct(year: nat, a: nat, b: nat)
    requires a != b
    ensures DispatchCode(year, a) != DispatchCode(year, b)
  {
    CodeNumberReadsBack(year, a);
    CodeNumberReadsBack(year, b);
  }

  /** The record `create` inserts. */
  function NewDispatch(input: CreateInput, code: string, user: string, now: Instant): (d: Dispatch)
    ensures d.status == PREPARANDO && d.code == code
    ensures d.mine == input.mine && d.supervisor == input.supervisor && d.trip == input.trip
    ensures d.notes == input.notes && d.createdBy == user && d.createdAt == now
    ensures d.cancelReason.None? && d.departedAt.None? && d.deliveredAt.None? && d.updatedBy.None?
    ensures |d.lines| == |input.lines|
    ensures forall i :: 0 <= i < |d.lines| ==> AsInput(d.lines[i]) == input.lines[i] && d.lines[i].createdBy == user
  {
    Dispatch(code, input.mine, input.supervisor, input.trip, input.notes, PREPARANDO,
      None, None, None, now, user, None, StoredLines(input.lines, user))
  }

  /** The record after a successful `update`. */
  function Edited(d: Dispatch, input: UpdateInput, user: string): (e: Dispatch)
    ensures e.code == d.code && e.status == d.status && e.createdAt == d.createdAt && e.createdBy == d.createdBy
    ensures e.cancelReason == d.cancelReason && e.departedAt == d.departedAt && e.deliveredAt == d.deliveredAt
    ensures e.mine == (if input.mine.Some? then input.mine.value else d.mine)
    ensures e.supervisor == (if input.supervisor.Some? then input.supervisor else d.supervisor)
    ensures e.trip == (if input.trip.Some? then input.trip else d.trip)
    ensures e.notes == (if input.notes.Some? then input.notes else d.notes)
    ensures e.updatedBy == Some(user)
    ensures input.lines.None? ==> e.lines == d.lines
    ensures input.lines.Some? ==>
      |e.lines| == |input.lines.value| &&
      forall i :: 0 <= i < |e.lines| ==> AsInput(e.lines[i]) == input.lines.value[i] && e.lines[i].createdBy == user
  {
    d.(mine := Override(d.mine, input.mine),
       supervisor := OverrideOpt(d.supervisor, input.supervisor),
       trip := OverrideOpt(d.trip, input.trip),
       notes := OverrideOpt(d.notes, input.notes),
       updatedBy := Some(user),
       lines := if input.lines.Some? then StoredLines(input.lines.value, user) else d.lines)
  }

  function Abs(x: int): (r: int)
    ensures r >= 0 && (r == x || r == -x)
  {
    if x < 0 then -x else x
  }

  /** The stock `v_stock_actual` shows for a line's product and measure; a missing row
      reads as 0. */
  function Available(view: map<(nat, nat), int>, l: Line): (r: int)
    ensures (l.product, l.measure) in view ==> r == view[(l.product, l.measure)]
    ensures (l.product, l.measure) !in view ==> r == 0
  {
    if (l.product, l.measure) in view then view[(l.product, l.measure)] else 0
  }

  /** The stock check of one line: it compares the line alone against the whole stock. */
  predicate Covered(view: map<(nat, nat), int>, l: Line) {
    !(Available(view, l) < l.quantity)
  }

  /** The first line the stock does not cover, if any. */
  function FirstShortage(lines: seq<Line>, view: map<(nat, nat), int>): (r: Option<nat>)
    ensures r.None? <==> forall i :: 0 <= i < |lines| ==> Covered(view, lines[i])
    ensures r.Some? ==>
      r.value < |lines| && !Covered(view, lines[r.value]) &&
      forall j :: 0 <= j < r.value ==> Covered(view, lines[j])
  {
    if lines == [] then None
    else if !Covered(view, lines[0]) then Some(0)
    else
      var rest := FirstShortage(lines[1..], view);
      assert forall i :: 1 <= i < |lines| ==> lines[i] == lines[1..][i - 1];
      if rest.Some? then Some(rest.value + 1) else None
  }

  /** The checking loop of `cambiarATransito`: it stops at the first short line. */
  method FindShortage(lines: seq<Line>, view: map<(nat, nat), int>) returns (short: Option<nat>)
    ensures short == FirstShortage(lines, view)
  {
    var i := 0;
    while i < |lines|
      invariant 0 <= i <= |lines|
      invariant forall j :: 0 <= j < i ==> Covered(view, lines[j])
    {
      if !Covered(view, lines[i]) {
        return Some(i);
      }
      i := i + 1;
    }
    return None;
  }

  /** The error text of a short line: it names the product, and the required quantity
      closes it, reading back with `parseInt`. */
  function ShortageMessage(productName: string, available: int, required: int): (r: string)
    ensures IsPrefix("Stock insuficiente para " + productName, r)
    ensures var tail := IntToString(required);
      |tail| <= |r| && ParseInt(r[|r| - |tail|..]) == Some(required)
  {
    var head := "Stock insuficiente para " + productName;
    var tail := IntToString(required);
    var r := head + ". Disponible: " + IntToString(available) + ", Requerido: " + tail;
    assert r[..|head|] == head;
    assert r[|r| - |tail|..] == tail;
    assert ParseInt(r[|r| - |tail|..]) == Some(required) by {
      ParseIntOfIntToString(required);
    }
    r
  }

  /** The SALIDA movement posted for one line. */
  function SalidaFor(l: Line, id: nat, code: string, user: string): Kardex.Movement {
    Kardex.Movement(l.product, Kardex.SALIDA, -Abs(l.quantity), Some(id), Some(user),
      "Despacho " + code + " - Salida a mina", user)
  }

  /** The movements a successful transit posts: one SALIDA per line, in line order. */
  function Salidas(lines: seq<Line>, id: nat, code: string, user: string): (ms: seq<Kardex.Movement>)
    ensures |ms| == |lines|
    ensures forall i :: 0 <= i < |lines| ==>
      ms[i].kind == Kardex.SALIDA && ms[i].product == lines[i].product &&
      ms[i].quantity == -Abs(lines[i].quantity) && ms[i].dispatch == Some(id)
  {
    if lines == [] then []
    else Salidas(lines[..|lines| - 1], id, code, user) + [SalidaFor(lines[|lines| - 1], id, code, user)]
  }

  /** The AJUSTE_POS movement posted for one line on cancellation; it names no dispatch. */
  function ReversalFor(l: Line, code: string, reason: string, user: string): Kardex.Movement {
    Kardex.Movement(l.product, Kardex.AJUSTE_POS, Abs(l.quantity), None, Some(user),
      "Reversión por anulación de despacho " + code + ": " + reason, user)
  }

  /** The movements cancelling a dispatch after transit posts: one AJUSTE_POS per line. */
  function Reversals(lines: seq<Line>, code: string, reason: string, user: string): (ms: seq<Kardex.Movement>)
    ensures |ms| == |lines|
    ensures forall i :: 0 <= i < |lines| ==>
      ms[i].kind == Kardex.AJUSTE_POS && ms[i].product == lines[i].product &&
      ms[i].quantity == Abs(lines[i].quantity) && ms[i].dispatch.None?
  {
    if lines == [] then []
    else Reversals(lines[..|lines| - 1], code, reason, user) + [ReversalFor(lines[|lines| - 1], code, reason, user)]
  }

  /** The total dispatched quantity of a product over a line list. */
  function QuantityOf(lines: seq<Line>, product: nat): (r: int)
    ensures r >= 0
    ensures (forall i :: 0 <= i < |lines| ==> lines[i].product != product) ==> r == 0
  {
    if lines == [] then 0
    else
      var last := lines[|lines| - 1];
      QuantityOf(lines[..|lines| - 1], product) + (if last.product == product then Abs(last.quantity) else 0)
  }

  lemma {:induction false} SalidasNet(lines: seq<Line>, id: nat, code: string, user: string, product: nat)
    ensures Kardex.Net(Salidas(lines, id, code, user), product) == -QuantityOf(lines, product)
  {
    if lines != [] {
      var init := lines[..|lines| - 1];
      SalidasNet(init, id, code, user, product);
      var ms := Salidas(lines, id, code, user);
      assert ms[..|ms| - 1] == Salidas(init, id, code, user);
    }
  }

  lemma {:induction false} ReversalsNet(lines: seq<Line>, code: string, reason: string, user: string, product: nat)
    ensures Kardex.Net(Reversals(lines, code, reason, user), product) == QuantityOf(lines, product)
  {
    if lines != [] {
      var init := lines[..|lines| - 1];
      ReversalsNet(init, code, reason, user, product);
      var ms := Reversals(lines, code, reason, user);
      assert ms[..|ms| - 1] == Reversals(init, code, reason, user);
    }
  }

  /** Transit followed by cancellation leaves every product's ledger sum where it was. */
  lemma TransitThenCancelNetsZero(
    before: seq<Kardex.Movement>, lines: seq<Line>, id: nat, code: string,
    user: string, reason: string, canceller: string, product: nat)
    ensures Kardex.Net(before + Salidas(lines, id, code, user) + Reversals(lines, code, reason, canceller), product)
            == Kardex.Net(before, product)
  {
    var s := Salidas(lines, id, code, user);
    var r := Reversals(lines, code, reason, canceller);
    Kardex.NetAppend(before + s, r, product);
    Kardex.NetAppend(before, s, product);
    SalidasNet(lines, id, code, user, product);
    ReversalsNet(lines, code, reason, canceller, product);
  }

  /** The check is per line: a line repeated for the same product and measure passes
      whenever the stock covers it once, although the two together draw more than the
      stock holds. */
  lemma PerLineCheckAdmitsOverdraw(view: map<(nat, nat), int>, l: Line)
    requires 0 < l.quantity <= Available(view, l) < 2 * l.quantity
    ensures FirstShortage([l, l], view).None?
    ensures QuantityOf([l, l], l.product) > Available(view, l)
  {
    var lines := [l, l];
    assert lines[..1] == [l];
    assert lines[..1][..0] == [];
    assert QuantityOf(lines, l.product) == 2 * l.quantity;
  }

  /** Filters of the dispatch list, as the query validator leaves them. */
  datatype ListQuery = ListQuery(
    page: int, limit: int, status: Option<Status>, mine: Option<int>, trip: Option<int>,
    from: Option<Instant>, to: Option<Instant>, search: Option<string>)

  /** The `where` of `list`: each filter applies only when present, and either date
      bound applies on its own. With no filter, or a search for its own code, every
      dispatch is listed. */
  predicate Selected(q: ListQuery, d: Dispatch)
    ensures (q.status.None? && q.mine.None? && q.trip.None? && q.from.None? && q.to.None?
             && (q.search.None? || q.search == Some(d.code))) ==> Selected(q, d)
  {
    && (q.status.Some? ==> d.status == q.status.value)
    && (TruthyNum(q.mine) ==> d.mine == q.mine.value)
    && (TruthyNum(q.trip) ==> d.trip == Some(q.trip.value))
    && (q.from.Some? ==> q.from.value <= d.createdAt)
    && (q.to.Some? ==> d.createdAt <= q.to.value)
    && (TruthyText(q.search) ==>
          Contains(d.code, q.search.value) || (d.notes.Some? && Contains(d.notes.value, q.search.value)))
  }

  /** Ids come from the counter, each code is the one issued for its row, a code's
      number never exceeds its row's id, and no two rows share a number. */
  ghost predicate Consistent(ds: map<nat, Dispatch>, nextId: nat, issued: map<nat, (nat, nat)>) {
    && 0 < nextId
    && (forall id :: id in ds ==>
          && 0 < id < nextId && id in issued
          && ds[id].code == DispatchCode(issued[id].0, issued[id].1)
          && issued[id].1 <= id)
    && (forall a, b :: a in ds && b in ds && a != b ==> issued[a].1 != issued[b].1)
  }

  /** Writing back a row under its own code keeps the table consistent. */
  lemma ReplaceConsistent(ds: map<nat, Dispatch>, nextId: nat, issued: map<nat, (nat, nat)>, id: nat, e: Dispatch)
    requires Consistent(ds, nextId, issued) && id in ds && e.code == ds[id].code
    ensures Consistent(ds[id := e], nextId, issued)
  {
    var ds' := ds[id := e];
    assert ds'.Keys == ds.Keys;
    forall k | k in ds' ensures ds'[k].code == ds[k].code {
    }
  }

  /** Inserting the next row, numbered one past the largest id, keeps the table
      consistent. */
  lemma CreateConsistent(ds: map<nat, Dispatch>, nextId: nat, issued: map<nat, (nat, nat)>, year: nat, d: Dispatch)
    requires Consistent(ds, nextId, issued) && d.code == NextCode(year, ds.Keys)
    ensures Consistent(ds[nextId := d], nextId + 1, issued[nextId := (year, LastId(ds.Keys) + 1)])
  {
    CreateKeepsCodes(ds, nextId, issued, year, d);
    CreateKeepsNumbers(ds, nextId, issued, year);
  }

  /** After the insert every row still carries the code of its year and number. */
  lemma CreateKeepsCodes(ds: map<nat, Dispatch>, nextId: nat, issued: map<nat, (nat, nat)>, year: nat, d: Dispatch)
    requires Consistent(ds, nextId, issued) && d.code == NextCode(year, ds.Keys)
    ensures var ds', issued' := ds[nextId := d], issued[nextId := (year, LastId(ds.Keys) + 1)];
      forall id :: id in ds' ==>
        && 0 < id < nextId + 1 && id in issued'
        && ds'[id].code == DispatchCode(issued'[id].0, issued'[id].1)
        && issued'[id].1 <= id
  {
    var number := LastId(ds.Keys) + 1;
    var ds', issued' := ds[nextId := d], issued[nextId := (year, number)];
    assert number <= nextId;
    assert d.code == DispatchCode(year, number);
    forall id | id in ds' ensures 0 < id < nextId + 1 && id in issued'
      && ds'[id].code == DispatchCode(issued'[id].0, issued'[id].1) && issued'[id].1 <= id
    {
      if id != nextId {
        assert id in ds && ds'[id] == ds[id] && issued'[id] == issued[id];
      }
    }
  }

  /** After the insert no two rows share a number. */
  lemma CreateKeepsNumbers(ds: map<nat, Dispatch>, nextId: nat, issued: map<nat, (nat, nat)>, year: nat)
    requires Consistent(ds, nextId, issued)
    ensures var issued' := issued[nextId := (year, LastId(ds.Keys) + 1)];
      forall a, b :: a in ds.Keys + {nextId} && b in ds.Keys + {nextId} && a != b ==> issued'[a].1 != issued'[b].1
  {
    var issued' := issued[nextId := (year, LastId(ds.Keys) + 1)];
    forall a, b | a in ds.Keys + {nextId} && b in ds.Keys + {nextId} && a != b ensures issued'[a].1 != issued'[b].1 {
      if a == nextId {
        assert issued[b].1 <= b <= LastId(ds.Keys);
      } else if b == nextId {
        assert issued[a].1 <= a <= LastId(ds.Keys);
      } else {
        assert issued'[a] == issued[a] && issued'[b] == issued[b];
      }
    }
  }

  class DispatchService {
    var dispatches: map<nat, Dispatch>
    /** The next value of the table's auto-increment id. */
    var nextId: nat
    const ledger: Kardex.Ledger
    /** The year and the number each stored code was issued with. */
    ghost var issued: map<nat, (nat, nat)>

    /** See `Consistent`. */
    ghost predicate Valid()
      reads this
    {
      Consistent(dispatches, nextId, issued)
    }

    constructor (ledger: Kardex.Ledger)
      ensures Valid() && dispatches == map[] && this.ledger == ledger
    {
      dispatches := map[];
      nextId := 1;
      this.ledger := ledger;
      issued := map[];
    }

    /** Two dispatches created in the same year never carry the same code. */
    lemma CodesUnique(a: nat, b: nat)
      requires Valid()
      requires a in dispatches && b in dispatches && a != b && issued[a].0 == issued[b].0
      ensures dispatches[a].code != dispatches[b].code
    {
      CodesDistinct(issued[a].0, issued[a].1, issued[b].1);
    }

    function GetById(id: nat): (r: Result<Dispatch>)
      reads this
      ensures r.Err? <==> id !in dispatches
      ensures r.Err? ==> r.error == NotFound
      ensures r.Ok? ==> r.value == dispatches[id]
    {
      if id in dispatches then Ok(dispatches[id]) else Err(NotFound)
    }

    /** The ids `list` selects and the pagination it reports. */
    function ListPage(q: ListQuery): (p: Page)
      reads this
      ensures p.total == |set id | id in dispatches && Selected(q, dispatches[id])|
      ensures p.skip == (q.page - 1) * q.limit
      ensures q.limit > 0 ==> p.totalPages.Some? && (p.totalPages.value - 1) * q.limit < p.total <= p.totalPages.value * q.limit
    {
      var total := |set id | id in dispatches && Selected(q, dispatches[id])|;
      Paginate(q.page, q.limit, total)
    }

    method Create(input: CreateInput, user: string, year: nat, now: Instant) returns (id: nat, d: Dispatch)
      requires Valid()
      modifies this
      ensures Valid()
      ensures id == old(nextId) && id !in old(dispatches) && nextId == old(nextId) + 1
      ensures d == NewDispatch(input, NextCode(year, old(dispatches).Keys), user, now)
      ensures dispatches == old(dispatches)[id := d]
    {
      var number := LastId(dispatches.Keys) + 1;
      var code := NextCode(year, dispatches.Keys);
      d := NewDispatch(input, code, user, now);
      id := nextId;
      CreateConsistent(dispatches, nextId, issued, year, d);
      dispatches := dispatches[id := d];
      issued := issued[id := (year, number)];
      nextId := nextId + 1;
    }

    /** Writes back a row whose code is unchanged. */
    method Replace(id: nat, e: Dispatch)
      requires Valid() && id in dispatches && e.code == dispatches[id].code
      modifies this
      ensures Valid() && nextId == old(nextId) && issued == old(issued)
      ensures dispatches == old(dispatches)[id := e]
    {
      ReplaceConsistent(dispatches, nextId, issued, id, e);
      dispatches := dispatches[id := e];
    }

    method Update(id: nat, input: UpdateInput, user: string) returns (r: Result<Dispatch>)
      requires Valid()
      modifies this
      ensures Valid() && nextId == old(nextId)
      ensures id !in old(dispatches) ==> r == Err(NotFound) && dispatches == old(dispatches)
      ensures id in old(dispatches) && old(dispatches[id].status) != PREPARANDO ==>
        r == Err(NotEditable) && dispatches == old(dispatches)
      ensures id in old(dispatches) && old(dispatches[id].status) == PREPARANDO ==>
        dispatches == old(dispatches)[id := Edited(old(dispatches[id]), input, user)] && r == Ok(dispatches[id])
    {
      var found := GetById(id);
      if found.Err? {
        return Err(found.error);
      }
      var d := found.value;
      if d.status != PREPARANDO {
        return Err(NotEditable);
      }
      var e := Edited(d, input, user);
      Replace(id, e);
      r := Ok(e);
    }

    method Delete(id: nat) returns (r: Result<string>)
      requires Valid()
      modifies this
      ensures Valid() && nextId == old(nextId)
      ensures id !in old(dispatches) ==> r == Err(NotFound) && dispatches == old(dispatches)
      ensures id in old(dispatches) && old(dispatches[id].status) != PREPARANDO ==>
        r == Err(NotDeletable) && dispatches == old(dispatches)
      ensures id in old(dispatches) && old(dispatches[id].status) == PREPARANDO ==>
        r == Ok(Deleted) && dispatches == old(dispatches) - {id}
    {
      var found := GetById(id);
      if found.Err? {
        return Err(found.error);
      }
      if found.value.status != PREPARANDO {
        return Err(NotDeletable);
      }
      dispatches := dispatches - {id};
      r := Ok(Deleted);
    }

    /** The SALIDA loop of `cambiarATransito`. */
    method PostSalidas(lines: seq<Line>, id: nat, code: string, user: string)
      modifies ledger
      ensures ledger.movements == old(ledger.movements) + Salidas(lines, id, code, user)
    {
      var i := 0;
      while i < |lines|
        invariant 0 <= i <= |lines|
        invariant ledger.movements == old(ledger.movements) + Salidas(lines[..i], id, code, user)
      {
        ledger.Append(SalidaFor(lines[i], id, code, user));
        assert lines[..i + 1][..i] == lines[..i];
        i := i + 1;
      }
      assert lines[..|lines|] == lines;
    }

    /** The AJUSTE_POS loop of `anular`. */
    method PostReversals(lines: seq<Line>, code: string, reason: string, user: string)
      modifies ledger
      ensures ledger.movements == old(ledger.movements) + Reversals(lines, code, reason, user)
    {
      var i := 0;
      while i < |lines|
        invariant 0 <= i <= |lines|
        invariant ledger.movements == old(ledger.movements) + Reversals(lines[..i], code, reason, user)
      {
        ledger.Append(ReversalFor(lines[i], code, reason, user));
        assert lines[..i + 1][..i] == lines[..i];
        i := i + 1;
      }
      assert lines[..|lines|] == lines;
    }

    /** `cambiarATransito`. `view` is `v_stock_actual` as read during the check and
        `productName` the product names the error message quotes. */
    method ToTransit(
      id: nat, user: string, departure: Option<Instant>, now: Instant,
      view: map<(nat, nat), int>, productName: nat -> string)
      returns (r: Result<Dispatch>)
      requires Valid()
      modifies this, ledger
      ensures Valid() && nextId == old(nextId)
      ensures id !in old(dispatches) ==>
        r == Err(NotFound) && dispatches == old(dispatches) && ledger.movements == old(ledger.movements)
      ensures id in old(dispatches) && old(dispatches[id].status) != PREPARANDO ==>
        r == Err(NotReadyForTransit) && dispatches == old(dispatches) && ledger.movements == old(ledger.movements)
      ensures id in old(dispatches) && old(dispatches[id].status) == PREPARANDO ==>
        var d := old(dispatches[id]);
        var short := FirstShortage(d.lines, view);
        && (short.Some? ==>
              var l := d.lines[short.value];
              && r == Err(PlainError(ShortageMessage(productName(l.product), Available(view, l), l.quantity)))
              && dispatches == old(dispatches) && ledger.movements == old(ledger.movements))
        && (short.None? ==>
              && ledger.movements == old(ledger.movements) + Salidas(d.lines, id, d.code, user)
              && dispatches == old(dispatches)[id := d.(status := EN_TRANSITO,
                   departedAt := Some(OrElse(departure, now)), updatedBy := Some(user))]
              && r == Ok(dispatches[id]))
    {
      if id !in dispatches {
        return Err(NotFound);
      }
      var d := dispatches[id];
      if d.status != PREPARANDO {
        return Err(NotReadyForTransit);
      }
      var short := FindShortage(d.lines, view);
      if short.Some? {
        var l := d.lines[short.value];
        return Err(PlainError(ShortageMessage(productName(l.product), Available(view, l), l.quantity)));
      }
      PostSalidas(d.lines, id, d.code, user);
      var moved := d.(status := EN_TRANSITO, departedAt := Some(OrElse(departure, now)), updatedBy := Some(user));
      Replace(id, moved);
      r := Ok(moved);
    }

    /** `marcarEntregado` */
    method MarkDelivered(id: nat, user: string, delivery: Option<Instant>, now: Instant) returns (r: Result<Dispatch>)
      requires Valid()
      modifies this
      ensures Valid() && nextId == old(nextId)
      ensures id !in old(dispatches) ==> r == Err(NotFound) && dispatches == old(dispatches)
      ensures id in old(dispatches) && old(dispatches[id].status) != EN_TRANSITO ==>
        r == Err(NotInTransit) && dispatches == old(dispatches)
      ensures id in old(dispatches) && old(dispatches[id].status) == EN_TRANSITO ==>
        dispatches == old(dispatches)[id := old(dispatches[id]).(status := ENTREGADO,
          deliveredAt := Some(OrElse(delivery, now)), updatedBy := Some(user))]
        && r == Ok(dispatches[id])
    {
      var found := GetById(id);
      if found.Err? {
        return Err(found.error);
      }
      var d := found.value;
      if d.status != EN_TRANSITO {
        return Err(NotInTransit);
      }
      var delivered := d.(status := ENTREGADO, deliveredAt := Some(OrElse(delivery, now)), updatedBy := Some(user));
      Replace(id, delivered);
      r := Ok(delivered);
    }

    /** `anular` */
    method Cancel(id: nat, reason: string, user: string) returns (r: Result<Dispatch>)
      requires Valid()
      modifies this, ledger
      ensures Valid() && nextId == old(nextId)
      ensures id !in old(dispatches) ==>
        r == Err(NotFound) && dispatches == old(dispatches) && ledger.movements == old(ledger.movements)
      ensures id in old(dispatches) && old(dispatches[id].status) == ANULADO ==>
        r == Err(AlreadyCancelled) && dispatches == old(dispatches) && ledger.movements == old(ledger.movements)
      ensures id in old(dispatches) && old(dispatches[id].status) != ANULADO ==>
        var d := old(dispatches[id]);
        && ledger.movements == old(ledger.movements) +
             (if d.status == EN_TRANSITO || d.status == ENTREGADO then Reversals(d.lines, d.code, reason, user) else [])
        && dispatches == old(dispatches)[id := d.(status := ANULADO, cancelReason := Some(reason), updatedBy := Some(user))]
        && r == Ok(dispatches[id])
    {
      if id !in dispatches {
        return Err(NotFound);
      }
      var d := dispatches[id];
      if d.status == ANULADO {
        return Err(AlreadyCancelled);
      }
      if d.status == EN_TRANSITO || d.status == ENTREGADO {
        PostReversals(d.lines, d.code, reason, user);
      }
      var cancelled := d.(status := ANULADO, cancelReason := Some(reason), updatedBy := Some(user));
      Replace(id, cancelled);
      r := Ok(cancelled);
    }
  }

  /** A dispatch that goes to transit and is then cancelled leaves every product's
      ledger sum as it was before. */
  method TransitThenCancel(
    svc: DispatchService, id: nat, user: string, now: Instant,
    view: map<(nat, nat), int>, productName: nat -> string, reason: string)
    returns (moved: Result<Dispatch>, cancelled: Result<Dispatch>)
    requires svc.Valid()
    modifies svc, svc.ledger
    ensures svc.Valid()
    ensures moved.Ok? ==> cancelled.Ok? && cancelled.value.status == ANULADO
    ensures moved.Ok? ==> forall p :: Kardex.Net(svc.ledger.movements, p) == Kardex.Net(old(svc.ledger.movements), p)
  {
    ghost var before := svc.ledger.movements;
    moved := svc.ToTransit(id, user, None, now, view, productName);
    cancelled := svc.Cancel(id, reason, user);
    if moved.Ok? {
      ghost var d := old(svc.dispatches[id]);
      forall p ensures Kardex.Net(svc.ledger.movements, p) == Kardex.Net(before, p) {
        TransitThenCancelNetsZero(before, d.lines, id, d.code, user, reason, user, p);
      }
    }
  }
}
