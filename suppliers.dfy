/** The supplier service (`ProveedoresService`): soft deletion and the rule that no
    two live suppliers share a non-empty RUC. */
module Suppliers {
  import opened Common
  import opened Text

  /** A validated create body. The RUC may be absent, empty, or eleven digits. */
  datatype SupplierInput = SupplierInput(
    name: string, businessName: Option<string>, ruc: Option<string>, contact: Option<string>, phone: Option<string>)

  /** A validated update body: every field optional. */
  datatype SupplierUpdate = SupplierUpdate(
    name: Option<string>, businessName: Option<string>, ruc: Option<string>, contact: Option<string>, phone: Option<string>)

  /** A `proveedores` row. */
  datatype Supplier = Supplier(
    id: nat, name: string, businessName: Option<string>, ruc: Option<string>, contact: Option<string>,
    phone: Option<string>, deletedAt: Option<Instant>)

  const NotFound := AppError(404, "Proveedor no encontrado")
  const DuplicateRuc := AppError(400, "Ya existe un proveedor con este RUC")

  predicate Live(s: Supplier) {
    s.deletedAt.None?
  }

  /** `getAll`'s `where`: live rows, and with a non-empty search, those whose name,
      business name or RUC contains it. */
  predicate Selected(search: Option<string>, s: Supplier)
    ensures !TruthyText(search) ==> (Selected(search, s) <==> Live(s))
    ensures Live(s) && (search == Some(s.name) || (s.ruc.Some? && search == s.ruc)) ==> Selected(search, s)
  {
    && Live(s)
    && (TruthyText(search) ==>
          || Contains(s.name, search.value)
          || (s.businessName.Some? && Contains(s.businessName.value, search.value))
          || (s.ruc.Some? && Contains(s.ruc.value, search.value)))
  }

  /** The row `update` writes: given fields replace stored ones. */
  function Edited(s: Supplier, u: SupplierUpdate): (r: Supplier)
    ensures r.id == s.id && r.deletedAt == s.deletedAt
    ensures r.name == OrElse(u.name, s.name) && r.ruc == OverrideOpt(s.ruc, u.ruc)
    ensures r.businessName == OverrideOpt(s.businessName, u.businessName)
    ensures r.contact == OverrideOpt(s.contact, u.contact) && r.phone == OverrideOpt(s.phone, u.phone)
  {
    s.(name := Override(s.name, u.name), businessName := OverrideOpt(s.businessName, u.businessName),
       ruc := OverrideOpt(s.ruc, u.ruc), contact := OverrideOpt(s.contact, u.contact),
       phone := OverrideOpt(s.phone, u.phone))
  }

  class SupplierService {
    var suppliers: map<nat, Supplier>
    var nextId: nat

    /** No two live suppliers hold the same non-empty RUC. */
    ghost predicate RucsUnique()
      reads this
    {
      forall a, b ::
        (a in suppliers && b in suppliers && a != b && Live(suppliers[a]) && Live(suppliers[b]) && TruthyText(suppliers[a].ruc))
        ==> suppliers[a].ruc != suppliers[b].ruc
    }

    ghost predicate Valid()
      reads this
    {
      && (forall id :: id in suppliers ==> suppliers[id].id == id && id < nextId)
      && RucsUnique()
    }

    constructor ()
      ensures Valid() && suppliers == map[]
    {
      suppliers := map[];
      nextId := 1;
    }

    /** Whether a live supplier other than `except` holds `ruc`. */
    predicate RucTaken(ruc: string, except: Option<nat>)
      reads this
    {
      exists id :: id in suppliers && Some(id) != except && Live(suppliers[id]) && suppliers[id].ruc == Some(ruc)
    }

    /** `getById`: a missing and a soft-deleted supplier read the same. */
    function GetById(id: nat): (r: Result<Supplier>)
      reads this
      ensures r.Err? <==> id !in suppliers || !Live(suppliers[id])
      ensures r.Err? ==> r.error == NotFound
      ensures r.Ok? ==> r.value == suppliers[id] && Live(r.value)
    {
      if id in suppliers && Live(suppliers[id]) then Ok(suppliers[id]) else Err(NotFound)
    }

    /** `getAll`'s pagination block. */
    function ListPage(page: int, limit: int, search: Option<string>): (p: Page)
      reads this
      ensures p.total == |set id | id in suppliers && Selected(search, suppliers[id])|
      ensures p.skip == (page - 1) * limit
      ensures limit > 0 ==> p.totalPages.Some? && (p.totalPages.value - 1) * limit < p.total <= p.totalPages.value * limit
    {
      Paginate(page, limit, |set id | id in suppliers && Selected(search, suppliers[id])|)
    }

    /** `create`: a non-empty RUC already held by a live supplier is refused; an empty or
        absent one is not checked. */
    method Create(input: SupplierInput) returns (r: Result<Supplier>)
      requires Valid()
      modifies this
      ensures Valid()
      ensures TruthyText(input.ruc) && old(RucTaken(input.ruc.value, None)) ==>
        r == Err(DuplicateRuc) && suppliers == old(suppliers)
      ensures !(TruthyText(input.ruc) && old(RucTaken(input.ruc.value, None))) ==>
        var s := Supplier(old(nextId), input.name, input.businessName, input.ruc, input.contact, input.phone, None);
        old(nextId) !in old(suppliers) && r == Ok(s) && suppliers == old(suppliers)[old(nextId) := s]
    {
      if TruthyText(input.ruc) && RucTaken(input.ruc.value, None) {
        return Err(DuplicateRuc);
      }
      var s := Supplier(nextId, input.name, input.businessName, input.ruc, input.contact, input.phone, None);
      suppliers := suppliers[nextId := s];
      nextId := nextId + 1;
      r := Ok(s);
    }

    /** `update`: the supplier must be live, and a non-empty RUC that differs from its
        own must not be held by another live supplier. */
    method Update(id: nat, u: SupplierUpdate) returns (r: Result<Supplier>)
      requires Valid()
      modifies this
      ensures Valid() && nextId == old(nextId)
      ensures old(GetById(id)).Err? ==> r == Err(NotFound) && suppliers == old(suppliers)
      ensures old(GetById(id)).Ok? ==>
        if TruthyText(u.ruc) && u.ruc != old(suppliers)[id].ruc && old(RucTaken(u.ruc.value, Some(id))) then
          r == Err(DuplicateRuc) && suppliers == old(suppliers)
        else
          r == Ok(Edited(old(suppliers)[id], u)) && suppliers == old(suppliers)[id := Edited(old(suppliers)[id], u)]
    {
      var found := GetById(id);
      if found.Err? {
        return Err(NotFound);
      }
      var s := found.value;
      if TruthyText(u.ruc) && u.ruc != s.ruc && RucTaken(u.ruc.value, Some(id)) {
        return Err(DuplicateRuc);
      }
      var e := Edited(s, u);
      suppliers := suppliers[id := e];
      r := Ok(e);
    }

    /** `delete`: the supplier must be live; it is then stamped deleted, so a second
        delete is refused. */
    method Delete(id: nat, now: Instant) returns (r: Result<Supplier>)
      requires Valid()
      modifies this
      ensures Valid() && nextId == old(nextId)
      ensures old(GetById(id)).Err? ==> r == Err(NotFound) && suppliers == old(suppliers)
      ensures old(GetById(id)).Ok? ==>
        r == Ok(old(suppliers)[id].(deletedAt := Some(now))) && suppliers == old(suppliers)[id := r.value]
      ensures GetById(id) == Err(NotFound)
    {
      var found := GetById(id);
      if found.Err? {
        return Err(NotFound);
      }
      var s := found.value.(deletedAt := Some(now));
      suppliers := suppliers[id := s];
      r := Ok(s);
    }
  }

  /** Deleting the same supplier twice: the second call is refused and changes nothing. */
  method DeleteTwice(service: SupplierService, id: nat, now: Instant, later: Instant) returns (first: Result<Supplier>, second: Result<Supplier>)
    requires service.Valid()
    modifies service
    ensures service.Valid()
    ensures second == Err(NotFound)
  {
    first := service.Delete(id, now);
    second := service.Delete(id, later);
  }
}
