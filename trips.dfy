/** The trip service (`ViajesService`): registering a supplier delivery against a
    requirement, and reading trips back. The header row, its id and its number come
    from the stored procedure `sp_registrar_viaje`, which the model takes as an
    outcome the caller supplies. */
module Trips {
  import opened Common
  import R = Requirements

  datatype Delivery = OK | RECHAZADO | PARCIAL | MUESTRA | DA_ADO

  datatype DetailInput = DetailInput(requirementLine: nat, received: int, outcome: Delivery, note: Option<string>)

  /** A validated trip body; `arrivedAt` and `notes` are validated but never stored. */
  datatype TripInput = TripInput(
    requirement: nat, plate: string, driver: string, arrivedAt: Instant, notes: Option<string>,
    details: seq<DetailInput>)

  /** A `viaje_detalles` row. */
  datatype Detail = Detail(trip: nat, requirementLine: nat, received: int, outcome: Delivery, note: Option<string>, createdBy: string)

  /** A `viajes` row: what the procedure is given (requirement, plate, driver, user)
      and what it allocates (id, number), with the trip's detail rows. */
  datatype Trip = Trip(
    id: nat, requirement: nat, number: nat, plate: string, driver: string, registeredBy: string,
    details: seq<Detail>)

  /** What `sp_registrar_viaje` leaves in `@id_viaje`, with the number it gave the trip;
      `None` is a null id. The id is an auto-increment key, so it is never negative;
      `!idViaje` then fails exactly on `None` and on 0. */
  datatype Allocation = Allocation(id: nat, number: nat)

  const RequirementNotFound := AppError(404, "Requerimiento no encontrado")
  const RequirementCancelled := AppError(400, "No se pueden registrar viajes para un requerimiento ANULADO")
  const ProcedureFailed := AppError(500, "Error al registrar el viaje en base de datos")
  const NotFound := AppError(404, "Viaje no encontrado")
  const Registered := "Viaje registrado exitosamente"

  /** The rows `createMany` inserts: every input line, whatever its outcome. */
  function StoredDetails(inputs: seq<DetailInput>, trip: nat, user: string): (ds: seq<Detail>)
    ensures |ds| == |inputs|
    ensures forall i :: 0 <= i < |ds| ==>
      && ds[i].trip == trip && ds[i].requirementLine == inputs[i].requirementLine
      && ds[i].received == inputs[i].received && ds[i].outcome == inputs[i].outcome
      && ds[i].note == inputs[i].note && ds[i].createdBy == user
  {
    seq(|inputs|, i requires 0 <= i < |inputs| =>
      Detail(trip, inputs[i].requirementLine, inputs[i].received, inputs[i].outcome, inputs[i].note, user))
  }

  /** `username || 'system'` */
  function UserOrSystem(username: Option<string>): (u: string)
    ensures TruthyText(username) ==> u == username.value
    ensures !TruthyText(username) ==> u == "system"
  {
    if TruthyText(username) then username.value else "system"
  }

  predicate SortedByNumber(ts: seq<Trip>) {
    forall i, j :: 0 <= i < j < |ts| ==> ts[i].number <= ts[j].number
  }

  predicate DistinctIds(ts: seq<Trip>) {
    forall i, j :: 0 <= i < j < |ts| ==> ts[i].id != ts[j].id
  }

  /** Where a trip numbered `n` goes in a list sorted by number: after every trip
      numbered at most `n`. */
  function InsertionPoint(ts: seq<Trip>, n: nat): (k: nat)
    ensures k <= |ts|
    ensures forall i :: 0 <= i < k ==> ts[i].number <= n
    ensures k < |ts| ==> ts[k].number > n
  {
    if ts == [] || ts[0].number > n then 0 else 1 + InsertionPoint(ts[1..], n)
  }

  /** `ts` with `t` placed at its insertion point. */
  function Insert(ts: seq<Trip>, t: Trip): seq<Trip> {
    var k := InsertionPoint(ts, t.number);
    ts[..k] + [t] + ts[k..]
  }

  /** Inserting keeps the list sorted, adds exactly `t`, and keeps ids distinct when
      `t`'s id is new. */
  lemma InsertFacts(ts: seq<Trip>, t: Trip)
    requires SortedByNumber(ts) && DistinctIds(ts)
    requires forall i :: 0 <= i < |ts| ==> ts[i].id != t.id
    ensures SortedByNumber(Insert(ts, t)) && DistinctIds(Insert(ts, t))
    ensures forall x :: x in Insert(ts, t) <==> x in ts || x == t
  {
    var k := InsertionPoint(ts, t.number);
    InsertOrdered(ts, t, k);
    InsertMembers(ts, t, k);
  }

  /** Where each element of `ts[..k] + [t] + ts[k..]` comes from. */
  lemma InsertIndex(ts: seq<Trip>, t: Trip, k: nat)
    requires k <= |ts|
    ensures var r := ts[..k] + [t] + ts[k..];
      && |r| == |ts| + 1
      && (forall i :: 0 <= i < k ==> r[i] == ts[i])
      && r[k] == t
      && (forall i :: k < i < |r| ==> r[i] == ts[i - 1])
  {
  }

  lemma InsertOrdered(ts: seq<Trip>, t: Trip, k: nat)
    requires SortedByNumber(ts) && DistinctIds(ts)
    requires forall i :: 0 <= i < |ts| ==> ts[i].id != t.id
    requires k == InsertionPoint(ts, t.number)
    ensures SortedByNumber(ts[..k] + [t] + ts[k..]) && DistinctIds(ts[..k] + [t] + ts[k..])
  {
    var r := ts[..k] + [t] + ts[k..];
    InsertIndex(ts, t, k);
    forall i, j | 0 <= i < j < |r| ensures r[i].number <= r[j].number && r[i].id != r[j].id {
      if j < k {
      } else if j == k {
      } else if i < k {
      } else if i == k {
        assert ts[k].number > t.number;
      } else {
      }
    }
  }

  lemma InsertMembers(ts: seq<Trip>, t: Trip, k: nat)
    requires k <= |ts|
    ensures forall x :: x in ts[..k] + [t] + ts[k..] <==> x in ts || x == t
  {
    var r := ts[..k] + [t] + ts[k..];
    InsertIndex(ts, t, k);
    forall x | x in ts ensures x in r {
      var i :| 0 <= i < |ts| && ts[i] == x;
      if i < k { assert r[i] == x; } else { assert r[i + 1] == x; }
    }
  }

  class TripService {
    var trips: map<nat, Trip>
    const requirements: R.RequirementStore

    /** Each trip is stored under its own id, which is positive. */
    ghost predicate Valid()
      reads this
    {
      forall id :: id in trips ==> id > 0 && trips[id].id == id
    }

    constructor (requirements: R.RequirementStore)
      ensures Valid() && trips == map[] && this.requirements == requirements
    {
      trips := map[];
      this.requirements := requirements;
    }

    /** `create`. `allocation` is the procedure's result; a fresh id is all the model
        assumes of it. */
    method Create(input: TripInput, username: Option<string>, allocation: Option<Allocation>)
      returns (r: Result<(nat, string)>)
      requires Valid()
      requires allocation.Some? && allocation.value.id != 0 ==> allocation.value.id !in trips
      modifies this
      ensures Valid()
      ensures input.requirement !in requirements.items ==> r == Err(RequirementNotFound) && trips == old(trips)
      ensures input.requirement in requirements.items && requirements.items[input.requirement].status == R.ANULADO ==>
        r == Err(RequirementCancelled) && trips == old(trips)
      ensures input.requirement in requirements.items && requirements.items[input.requirement].status != R.ANULADO ==>
        && (allocation.None? || allocation.value.id == 0 ==> r == Err(ProcedureFailed) && trips == old(trips))
        && (allocation.Some? && allocation.value.id != 0 ==>
              var id := allocation.value.id;
              var user := UserOrSystem(username);
              && r == Ok((id, Registered))
              && trips == old(trips)[id := Trip(id, input.requirement, allocation.value.number, input.plate,
                   input.driver, user, StoredDetails(input.details, id, user))])
    {
      if input.requirement !in requirements.items {
        return Err(RequirementNotFound);
      }
      if requirements.items[input.requirement].status == R.ANULADO {
        return Err(RequirementCancelled);
      }
      var user := UserOrSystem(username);
      if allocation.None? || allocation.value.id == 0 {
        return Err(ProcedureFailed);
      }
      var id := allocation.value.id;
      var trip := Trip(id, input.requirement, allocation.value.number, input.plate, input.driver, user,
        StoredDetails(input.details, id, user));
      trips := trips[id := trip];
      r := Ok((id, Registered));
    }

    function GetById(id: nat): (r: Result<Trip>)
      reads this
      ensures r.Err? <==> id !in trips
      ensures r.Err? ==> r.error == NotFound
      ensures r.Ok? ==> r.value == trips[id]
    {
      if id in trips then Ok(trips[id]) else Err(NotFound)
    }

    /** `getByRequerimiento`: the requirement's trips, each once, by ascending number. */
    method GetByRequirement(requirement: nat) returns (ts: seq<Trip>)
      requires Valid()
      ensures SortedByNumber(ts) && DistinctIds(ts)
      ensures forall i :: 0 <= i < |ts| ==> ts[i].id in trips && trips[ts[i].id] == ts[i] && ts[i].requirement == requirement
      ensures forall id :: id in trips && trips[id].requirement == requirement ==> trips[id] in ts
    {
      var remaining := set id | id in trips && trips[id].requirement == requirement;
      ts := [];
      while remaining != {}
        invariant remaining <= trips.Keys
        invariant SortedByNumber(ts) && DistinctIds(ts)
        invariant forall x :: x in ts ==> x.id in trips && trips[x.id] == x && x.requirement == requirement && x.id !in remaining
        invariant forall id :: id in remaining ==> trips[id].requirement == requirement
        invariant forall id :: id in trips && trips[id].requirement == requirement && id !in remaining ==> trips[id] in ts
        decreases |remaining|
      {
        var id :| id in remaining;
        var t := trips[id];
        InsertFacts(ts, t);
        ts := Insert(ts, t);
        remaining := remaining - {id};
      }
    }
  }
}
