/** The product service (`ProductosService`): products with soft deletion, and their
    supplier links, which live in the price catalogue's table and are replaced as a
    whole when an update lists them. */
module Products {
  import opened Common
  import opened Text
  import P = Prices

  /** A validated create body; the validator defaults the sale price and the stock to 0. */
  datatype ProductInput = ProductInput(
    name: string, measure: nat, classification: Option<nat>, salePrice: real, stock: int,
    notes: Option<string>, suppliers: Option<seq<P.LinkInput>>)

  /** A validated update body: every field optional, with no defaults. */
  datatype ProductUpdate = ProductUpdate(
    name: Option<string>, measure: Option<nat>, classification: Option<nat>, salePrice: Option<real>,
    stock: Option<int>, notes: Option<string>, suppliers: Option<seq<P.LinkInput>>)

  /** A `productos` row. */
  datatype Product = Product(
    id: nat, name: string, measure: nat, classification: Option<nat>, salePrice: real, stock: int,
    notes: Option<string>, deletedAt: Option<Instant>, updatedAt: Option<Instant>,
    createdBy: Option<string>, updatedBy: Option<string>)

  const NotFound := AppError(404, "Producto no encontrado")

  predicate Live(p: Product) {
    p.deletedAt.None?
  }

  /** `getAll`'s `where`: live products, and with a non-empty search, those whose
      name contains it. */
  predicate Selected(search: Option<string>, p: Product)
    ensures !TruthyText(search) ==> (Selected(search, p) <==> Live(p))
    ensures Live(p) && search == Some(p.name) ==> Selected(search, p)
  {
    Live(p) && (TruthyText(search) ==> Contains(p.name, search.value))
  }

  /** The row `create` inserts. */
  function NewProduct(id: nat, input: ProductInput, user: Option<string>): (p: Product)
    ensures p.id == id && Live(p) && p.createdBy == user && p.updatedBy == user
    ensures p.name == input.name && p.measure == input.measure && p.classification == input.classification
    ensures p.salePrice == input.salePrice && p.stock == input.stock && p.notes == input.notes
  {
    Product(id, input.name, input.measure, input.classification, input.salePrice, input.stock, input.notes,
      None, None, user, user)
  }

  /** The row `update` writes: given fields replace stored ones, and the author only
      when one was found. */
  function Edited(p: Product, u: ProductUpdate, user: Option<string>, now: Instant): (r: Product)
    ensures r.id == p.id && r.deletedAt == p.deletedAt && r.createdBy == p.createdBy
    ensures r.name == OrElse(u.name, p.name) && r.measure == OrElse(u.measure, p.measure)
    ensures r.classification == OverrideOpt(p.classification, u.classification)
    ensures r.salePrice == OrElse(u.salePrice, p.salePrice) && r.stock == OrElse(u.stock, p.stock)
    ensures r.notes == OverrideOpt(p.notes, u.notes)
    ensures r.updatedAt == Some(now) && r.updatedBy == (if user.Some? then user else p.updatedBy)
  {
    p.(name := Override(p.name, u.name), measure := Override(p.measure, u.measure),
       classification := OverrideOpt(p.classification, u.classification),
       salePrice := Override(p.salePrice, u.salePrice), stock := Override(p.stock, u.stock),
       notes := OverrideOpt(p.notes, u.notes), updatedAt := Some(now), updatedBy := OverrideOpt(p.updatedBy, user))
  }

  class ProductService {
    var products: map<nat, Product>
    var nextId: nat
    const links: P.PriceCatalog

    ghost predicate Valid()
      reads this, links
    {
      && (forall id :: id in products ==> products[id].id == id && id < nextId)
      && links.Valid()
    }

    constructor (links: P.PriceCatalog)
      requires links.Valid()
      ensures Valid() && products == map[] && this.links == links
    {
      products := map[];
      nextId := 1;
      this.links := links;
    }

    /** `getById`: a missing or soft-deleted product is not found; a live one comes with
        its live, active supplier links. */
    function GetById(id: nat): (r: Result<(Product, set<P.Entry>)>)
      reads this, links
      ensures r.Err? <==> id !in products || !Live(products[id])
      ensures r.Err? ==> r.error == NotFound
      ensures r.Ok? ==> r.value.0 == products[id] && r.value.1 == links.ActiveLinks(id)
    {
      if id in products && Live(products[id]) then Ok((products[id], links.ActiveLinks(id))) else Err(NotFound)
    }

    /** `getAll`'s pagination block. */
    function ListPage(page: int, limit: int, search: Option<string>): (p: Page)
      reads this
      ensures p.total == |set id | id in products && Selected(search, products[id])|
      ensures p.skip == (page - 1) * limit
      ensures limit > 0 ==> p.totalPages.Some? && (p.totalPages.value - 1) * limit < p.total <= p.totalPages.value * limit
    {
      Paginate(page, limit, |set id | id in products && Selected(search, products[id])|)
    }

    /** `create`: in one transaction, the product and one link per listed supplier (none
        for an absent or empty list). A link that breaks the (supplier, product) key
        rolls the whole transaction back. */
    method Create(input: ProductInput, userId: Option<int>, usernames: map<int, string>) returns (r: Result<Product>)
      requires Valid()
      modifies this, links
      ensures Valid() && links.history == old(links.history)
      ensures var ls := OrElse(input.suppliers, []);
        if !P.LinksInsertable(old(links.entries), old(nextId), ls) then
          r == Err(DbFailure(UniqueViolation)) && products == old(products) && links.entries == old(links.entries)
        else
          var p := NewProduct(old(nextId), input, ActorName(userId, usernames));
          && old(nextId) !in old(products) && r == Ok(p) && products == old(products)[old(nextId) := p]
          && links.entries == old(links.entries) + P.NewLinks(old(links.nextId), old(nextId), ls)
    {
      var user := ActorName(userId, usernames);
      var ls := OrElse(input.suppliers, []);
      var id := nextId;
      if !P.LinksInsertable(links.entries, id, ls) {
        return Err(DbFailure(UniqueViolation));
      }
      var p := NewProduct(id, input, user);
      products := products[id := p];
      nextId := nextId + 1;
      if |ls| > 0 {
        links.InsertLinks(id, ls);
      } else {
        assert P.NewLinks(links.nextId, id, ls) == map[];
        assert links.entries + map[] == links.entries;
      }
      r := Ok(p);
    }

    /** `update`: the product must be live. With a supplier list, all its links are
        deleted and the listed ones inserted, in the same transaction as the row; with
        none, its links are left alone. */
    method Update(id: nat, u: ProductUpdate, userId: Option<int>, usernames: map<int, string>, now: Instant)
      returns (r: Result<Product>)
      requires Valid()
      modifies this, links
      ensures Valid() && links.history == old(links.history) && nextId == old(nextId)
      ensures old(GetById(id)).Err? ==> r == Err(NotFound) && products == old(products) && links.entries == old(links.entries)
      ensures old(GetById(id)).Ok? && u.suppliers.None? ==>
        var e := Edited(old(products)[id], u, ActorName(userId, usernames), now);
        r == Ok(e) && products == old(products)[id := e] && links.entries == old(links.entries)
      ensures old(GetById(id)).Ok? && u.suppliers.Some? ==>
        var kept := P.OtherProducts(old(links.entries), id);
        if !P.LinksInsertable(kept, id, u.suppliers.value) then
          r == Err(DbFailure(UniqueViolation)) && products == old(products) && links.entries == old(links.entries)
        else
          var e := Edited(old(products)[id], u, ActorName(userId, usernames), now);
          && r == Ok(e) && products == old(products)[id := e]
          && links.entries == kept + P.NewLinks(old(links.nextId), id, u.suppliers.value)
          && (forall k :: k in links.entries && links.entries[k].product == id <==>
                old(links.nextId) <= k < old(links.nextId) + |u.suppliers.value|)
    {
      var found := GetById(id);
      if found.Err? {
        return Err(NotFound);
      }
      var user := ActorName(userId, usernames);
      var e := Edited(found.value.0, u, user, now);
      if u.suppliers.None? {
        products := products[id := e];
        return Ok(e);
      }
      var ls := u.suppliers.value;
      if !P.LinksInsertable(P.OtherProducts(links.entries, id), id, ls) {
        return Err(DbFailure(UniqueViolation));
      }
      products := products[id := e];
      links.DeleteLinks(id);
      ghost var kept := links.entries;
      if |ls| > 0 {
        links.InsertLinks(id, ls);
      } else {
        assert P.NewLinks(links.nextId, id, ls) == map[];
        assert links.entries + map[] == links.entries;
      }
      assert links.entries == kept + P.NewLinks(old(links.nextId), id, ls);
      r := Ok(e);
    }

    /** `delete`: the product must be live; only its deletion stamp and author change,
        and its links stay. */
    method Delete(id: nat, userId: Option<int>, usernames: map<int, string>, now: Instant) returns (r: Result<Product>)
      requires Valid()
      modifies this
      ensures Valid() && nextId == old(nextId)
      ensures old(GetById(id)).Err? ==> r == Err(NotFound) && products == old(products)
      ensures old(GetById(id)).Ok? ==>
        var p := old(products)[id];
        && r == Ok(p.(deletedAt := Some(now), updatedAt := Some(now), updatedBy := OverrideOpt(p.updatedBy, ActorName(userId, usernames))))
        && products == old(products)[id := r.value]
      ensures GetById(id) == Err(NotFound)
    {
      var found := GetById(id);
      if found.Err? {
        return Err(NotFound);
      }
      var p := found.value.0;
      var d := p.(deletedAt := Some(now), updatedAt := Some(now), updatedBy := OverrideOpt(p.updatedBy, ActorName(userId, usernames)));
      products := products[id := d];
      r := Ok(d);
    }
  }
}
