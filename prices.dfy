/** The supplier price catalogue (`PreciosService`): one row per (supplier, product)
    pair in `producto_proveedores`, soft deletion, reactivation on re-create, and a
    `precio_historico` row for each price change made through `update`. */
module Prices {
  import opened Common
  import Zod

  /** A validated create body; the validator defaults `activo` to true. */
  datatype PriceInput = PriceInput(supplier: nat, product: nat, price: real, active: bool)

  /** A validated update body: every field optional. */
  datatype PriceUpdate = PriceUpdate(supplier: Option<nat>, product: Option<nat>, price: Option<real>, active: Option<bool>)

  /** A `producto_proveedores` row. A `None` author is a column the service left unset. */
  datatype Entry = Entry(
    id: nat, supplier: nat, product: nat, price: real, active: bool,
    deletedAt: Option<Instant>, updatedAt: Option<Instant>, createdBy: Option<string>, updatedBy: Option<string>)

  /** A `precio_historico` row. */
  datatype PriceChange = PriceChange(entry: nat, oldPrice: real, newPrice: real, changedBy: Option<string>)

  datatype Filters = Filters(supplier: Option<int>, product: Option<int>, active: Option<bool>)

  const NotFound := AppError(404, "Registro de precio no encontrado")
  const Duplicate := AppError(400, "Ya existe un precio para este producto y proveedor")

  /** `getAll`'s `where`: live rows; supplier and product only when truthy, `activo`
      whenever it is defined. */
  predicate Selected(f: Filters, e: Entry)
    ensures Selected(f, e) ==> e.deletedAt.None?
    ensures (f.supplier.None? && f.product.None? && f.active.None?) ==> (Selected(f, e) <==> e.deletedAt.None?)
  {
    && e.deletedAt.None?
    && (TruthyNum(f.supplier) ==> e.supplier == f.supplier.value)
    && (TruthyNum(f.product) ==> e.product == f.product.value)
    && (f.active.Some? ==> e.active == f.active.value)
  }

  /** The `activo` of `queryPrecioSchema` as written, `val === 'true'` on an optional
      string: the filter is always defined, so a query without `activo` asks for the
      inactive rows. The outer `None` is a rejected query. */
  function ActiveFilterAsWritten(v: Zod.Raw): (r: Option<Option<bool>>)
    ensures r.Some? <==> v.Missing? || v.Str?
    ensures r.Some? ==> r.value.Some? && (r.value.value <==> v == Zod.Str("true"))
  {
    if v.Missing? || v.Str? then Some(Some(v == Zod.Str("true"))) else None
  }

  /** The `activo` filter `getAll` is written to receive (`activo !== undefined`): an
      absent field applies no filter, a given one is `'true'` or not. */
  function ActiveFilter(v: Zod.Raw): (r: Option<Option<bool>>)
    ensures r.Some? <==> v.Missing? || v.Str?
    ensures v.Missing? ==> r == Some(None)
    ensures v.Str? ==> r == Some(Some(v.s == "true"))
  {
    if v.Missing? then Some(None) else if v.Str? then Some(Some(v.s == "true")) else None
  }

  /** As written, a listing without `activo` leaves out every live, active link. */
  lemma AsWrittenHidesActiveLinks(e: Entry)
    requires e.deletedAt.None? && e.active
    ensures !Selected(Filters(None, None, ActiveFilterAsWritten(Zod.Missing).value), e)
  {
  }

  /** With the intended filter, a listing without filters shows every live link, active
      or not. */
  lemma UnfilteredListsEveryLiveLink(e: Entry)
    ensures Selected(Filters(None, None, ActiveFilter(Zod.Missing).value), e) <==> e.deletedAt.None?
  {
  }

  /** The row `update` writes: given fields replace stored ones, and the author only
      when one was found. */
  function Edited(e: Entry, u: PriceUpdate, user: Option<string>, now: Instant): (r: Entry)
    ensures r.id == e.id && r.deletedAt == e.deletedAt && r.createdBy == e.createdBy
    ensures r.supplier == OrElse(u.supplier, e.supplier) && r.product == OrElse(u.product, e.product)
    ensures r.price == OrElse(u.price, e.price) && r.active == OrElse(u.active, e.active)
    ensures r.updatedAt == Some(now) && r.updatedBy == (if user.Some? then user else e.updatedBy)
  {
    e.(supplier := Override(e.supplier, u.supplier), product := Override(e.product, u.product),
       price := Override(e.price, u.price), active := Override(e.active, u.active),
       updatedAt := Some(now), updatedBy := OverrideOpt(e.updatedBy, user))
  }

  /** The history row `update` writes, if any: only for a given price that differs
      from the stored one. */
  function ChangeFor(e: Entry, u: PriceUpdate, user: Option<string>): (r: seq<PriceChange>)
    ensures |r| <= 1
    ensures |r| == 1 <==> u.price.Some? && u.price.value != e.price
    ensures |r| == 1 ==> r[0] == PriceChange(e.id, e.price, u.price.value, user)
  {
    if u.price.Some? && u.price.value != e.price then [PriceChange(e.id, e.price, u.price.value, user)] else []
  }

  /** A supplier link given with a product: the same table, written by the product
      service without author or flags. */
  datatype LinkInput = LinkInput(supplier: nat, price: real)

  /** The `activo` a row gets when the insert leaves it out: the column default,
      taken to be true (the product queries list links with `activo: true`). */
  const LinkActive := true

  /** The rows `createMany` writes for `links`, numbered from `start`. */
  function NewLinks(start: nat, product: nat, links: seq<LinkInput>): (m: map<nat, Entry>)
    ensures forall id :: id in m <==> start <= id < start + |links|
    ensures forall id :: id in m ==>
      m[id] == Entry(id, links[id - start].supplier, product, links[id - start].price, LinkActive, None, None, None, None)
  {
    if links == [] then map[]
    else
      var n := |links| - 1;
      NewLinks(start, product, links[..n])[start + n := Entry(start + n, links[n].supplier, product, links[n].price, LinkActive, None, None, None, None)]
  }

  /** Whether `createMany` can write `links` for `product` without breaking the
      (supplier, product) key: no supplier twice, and no pair already stored. */
  predicate LinksInsertable(entries: map<nat, Entry>, product: nat, links: seq<LinkInput>) {
    && (forall i, j :: 0 <= i < j < |links| ==> links[i].supplier != links[j].supplier)
    && (forall i, id :: 0 <= i < |links| && id in entries ==> !(entries[id].supplier == links[i].supplier && entries[id].product == product))
  }

  /** What `deleteMany({ id_producto })` leaves: every row of other products. */
  function OtherProducts(entries: map<nat, Entry>, product: nat): (m: map<nat, Entry>)
    ensures forall id :: id in m <==> id in entries && entries[id].product != product
    ensures forall id :: id in m ==> m[id] == entries[id]
  {
    map id | id in entries && entries[id].product != product :: entries[id]
  }

  class PriceCatalog {
    var entries: map<nat, Entry>
    var history: seq<PriceChange>
    var nextId: nat

    /** Rows are stored under their ids, below the next id, and no two rows share a
        (supplier, product) pair, as the table's unique key requires. */
    ghost predicate Valid()
      reads this
    {
      && (forall id :: id in entries ==> entries[id].id == id && id < nextId)
      && (forall a, b :: a in entries && b in entries && a != b ==>
            (entries[a].supplier, entries[a].product) != (entries[b].supplier, entries[b].product))
    }

    constructor ()
      ensures Valid() && entries == map[] && history == []
    {
      entries := map[];
      history := [];
      nextId := 1;
    }

    /** The live, active links of `product`, as the product queries include them. */
    function ActiveLinks(product: nat): (r: set<Entry>)
      reads this
      ensures forall e :: e in r <==> e in entries.Values && e.product == product && e.deletedAt.None? && e.active
    {
      set id | id in entries && entries[id].product == product && entries[id].deletedAt.None? && entries[id].active :: entries[id]
    }

    /** The product service's `createMany` of links; the caller has checked that the
        insert keeps the pair key, and rolls back its transaction otherwise. */
    method InsertLinks(product: nat, links: seq<LinkInput>)
      requires Valid() && LinksInsertable(entries, product, links)
      modifies this
      ensures Valid() && history == old(history) && nextId == old(nextId) + |links|
      ensures entries == old(entries) + NewLinks(old(nextId), product, links)
      ensures old(nextId) !in old(entries) || links == []
    {
      var added := NewLinks(nextId, product, links);
      forall id | id in added ensures id !in entries {
      }
      entries := entries + added;
      nextId := nextId + |links|;
      forall a, b | a in entries && b in entries && a != b
        ensures (entries[a].supplier, entries[a].product) != (entries[b].supplier, entries[b].product)
      {
        if a in added && b in added {
          var i := a - old(nextId);
          var j := b - old(nextId);
          if i < j {
            assert links[i].supplier != links[j].supplier;
          } else {
            assert links[j].supplier != links[i].supplier;
          }
        } else if a in added {
          assert b in old(entries);
          var i := a - old(nextId);
          assert !(old(entries)[b].supplier == links[i].supplier && old(entries)[b].product == product);
        } else if b in added {
          assert a in old(entries);
          var j := b - old(nextId);
          assert !(old(entries)[a].supplier == links[j].supplier && old(entries)[a].product == product);
        }
      }
    }

    /** The product service's `deleteMany` of a product's links: the rows go, whatever
        their flags. */
    method DeleteLinks(product: nat)
      requires Valid()
      modifies this
      ensures Valid() && history == old(history) && nextId == old(nextId)
      ensures entries == OtherProducts(old(entries), product)
    {
      entries := OtherProducts(entries, product);
    }

    /** `getById`: a missing and a soft-deleted row read the same. */
    function GetById(id: nat): (r: Result<Entry>)
      reads this
      ensures r.Err? <==> id !in entries || entries[id].deletedAt.Some?
      ensures r.Err? ==> r.error == NotFound
      ensures r.Ok? ==> r.value == entries[id] && r.value.deletedAt.None?
    {
      if id in entries && entries[id].deletedAt.None? then Ok(entries[id]) else Err(NotFound)
    }

    /** `getAll`'s pagination block. */
    function ListPage(page: int, limit: int, f: Filters): (p: Page)
      reads this
      ensures p.total == |set id | id in entries && Selected(f, entries[id])|
      ensures p.skip == (page - 1) * limit
      ensures limit > 0 ==> p.totalPages.Some? && (p.totalPages.value - 1) * limit < p.total <= p.totalPages.value * limit
    {
      Paginate(page, limit, |set id | id in entries && Selected(f, entries[id])|)
    }

    /** `create`: a soft-deleted row for the pair is brought back with the new price and
        flag, a live one is a conflict, and otherwise a new row is inserted. */
    method Create(input: PriceInput, userId: Option<int>, usernames: map<int, string>, now: Instant)
      returns (r: Result<Entry>)
      requires Valid()
      modifies this
      ensures Valid() && history == old(history)
      ensures forall id :: id in old(entries) && old(entries)[id].supplier == input.supplier && old(entries)[id].product == input.product ==>
        if old(entries)[id].deletedAt.Some? then
          var back := old(entries)[id].(deletedAt := None, price := input.price, active := input.active, updatedAt := Some(now));
          r == Ok(back) && entries == old(entries)[id := back]
        else
          r == Err(Duplicate) && entries == old(entries)
      ensures (forall id :: id in old(entries) ==> (old(entries)[id].supplier, old(entries)[id].product) != (input.supplier, input.product)) ==>
        var user := ActorName(userId, usernames);
        var e := Entry(old(nextId), input.supplier, input.product, input.price, input.active, None, None, user, user);
        old(nextId) !in old(entries) && r == Ok(e) && entries == old(entries)[old(nextId) := e]
    {
      if exists id :: id in entries && entries[id].supplier == input.supplier && entries[id].product == input.product {
        var id :| id in entries && entries[id].supplier == input.supplier && entries[id].product == input.product;
        var existing := entries[id];
        if existing.deletedAt.Some? {
          var back := existing.(deletedAt := None, price := input.price, active := input.active, updatedAt := Some(now));
          entries := entries[id := back];
          return Ok(back);
        }
        return Err(Duplicate);
      }
      var user := ActorName(userId, usernames);
      var e := Entry(nextId, input.supplier, input.product, input.price, input.active, None, None, user, user);
      entries := entries[nextId := e];
      nextId := nextId + 1;
      r := Ok(e);
    }

    /** `update`: a live row is required; a changed price is logged first, and then the
        row is written, which fails on the pair's unique key if the new pair is taken. */
    method Update(id: nat, u: PriceUpdate, userId: Option<int>, usernames: map<int, string>, now: Instant)
      returns (r: Result<Entry>)
      requires Valid()
      modifies this
      ensures Valid() && nextId == old(nextId)
      ensures old(GetById(id)).Err? ==> r == Err(NotFound) && entries == old(entries) && history == old(history)
      ensures old(GetById(id)).Ok? ==>
        var e := old(entries)[id];
        var user := ActorName(userId, usernames);
        var edited := Edited(e, u, user, now);
        && history == old(history) + ChangeFor(e, u, user)
        && (if exists other :: other in old(entries) && other != id &&
                (old(entries)[other].supplier, old(entries)[other].product) == (edited.supplier, edited.product)
            then r == Err(DbFailure(UniqueViolation)) && entries == old(entries)
            else r == Ok(edited) && entries == old(entries)[id := edited])
    {
      var found := GetById(id);
      if found.Err? {
        return Err(NotFound);
      }
      var e := found.value;
      var user := ActorName(userId, usernames);
      if u.price.Some? && u.price.value != e.price {
        history := history + [PriceChange(id, e.price, u.price.value, user)];
      }
      var edited := Edited(e, u, user, now);
      if exists other :: other in entries && other != id &&
          (entries[other].supplier, entries[other].product) == (edited.supplier, edited.product) {
        return Err(DbFailure(UniqueViolation));
      }
      entries := entries[id := edited];
      r := Ok(edited);
    }

    /** `delete`: no existence check of its own, so a missing id is the database's
        record-not-found error; any stored row, even a deleted one, is stamped again. */
    method Delete(id: nat, userId: Option<int>, usernames: map<int, string>, now: Instant) returns (r: Result<Entry>)
      requires Valid()
      modifies this
      ensures Valid() && history == old(history) && nextId == old(nextId)
      ensures id !in old(entries) ==> r == Err(DbFailure(RecordNotFound)) && entries == old(entries)
      ensures id in old(entries) ==>
        var e := old(entries)[id].(deletedAt := Some(now), updatedAt := Some(now),
                                   updatedBy := OverrideOpt(old(entries)[id].updatedBy, ActorName(userId, usernames)));
        r == Ok(e) && entries == old(entries)[id := e]
      ensures GetById(id) == Err(NotFound)
    {
      if id !in entries {
        return Err(DbFailure(RecordNotFound));
      }
      var e := entries[id].(deletedAt := Some(now), updatedAt := Some(now),
                            updatedBy := OverrideOpt(entries[id].updatedBy, ActorName(userId, usernames)));
      entries := entries[id := e];
      r := Ok(e);
    }
  }

  /** Deleting a price and creating the same pair again brings the same row back live,
      with the new price, rather than adding a second row. */
  method DeleteThenCreate(catalog: PriceCatalog, id: nat, input: PriceInput, userId: Option<int>,
                          usernames: map<int, string>, now: Instant) returns (r: Result<Entry>)
    requires catalog.Valid() && id in catalog.entries
    requires catalog.entries[id].supplier == input.supplier && catalog.entries[id].product == input.product
    modifies catalog
    ensures catalog.Valid()
    ensures r.Ok? && r.value.id == id && r.value.price == input.price && r.value.deletedAt.None?
    ensures catalog.entries.Keys == old(catalog.entries.Keys)
    ensures catalog.GetById(id) == Ok(r.value)
  {
    var _ := catalog.Delete(id, userId, usernames, now);
    r := catalog.Create(input, userId, usernames, now);
  }
}
