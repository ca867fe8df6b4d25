/**
 * The top-viral catalogue store behind the admin CMS: two collections, sections
 * and products, each record carrying an `order`. Sections keep the list of their
 * products' ids. Every request handler is one atomic step that returns an HTTP
 * status code; fresh ids and timestamps come in as parameters.
 */
module TopViralStore {
  import opened Common
  import opened Sorting
  import opened Collection

  /** The catalogue fields of a product, as the admin form sends them. */
  datatype Listing = Listing(
    title: string,
    description: string,
    price: real,
    originalPrice: real,
    discount: real,
    rating: real,
    reviewCount: int,
    category: string,
    tags: seq<string>,
    image: string,
    isNew: bool,
    isFeatured: bool,
    isBestSeller: bool,
    downloadCount: int,
    fileSize: string,
    format: string,
    compatibility: seq<string>,
    features: seq<string>)

  datatype SectionDoc = SectionDoc(
    title: string,
    description: string,
    products: seq<string>,
    viewAllLink: string,
    status: string,
    createdAt: string,
    updatedAt: string)

  datatype ProductDoc = ProductDoc(
    listing: Listing,
    status: string,
    sectionId: string,
    createdAt: string,
    updatedAt: string)

  type Section = Record<SectionDoc>
  type Product = Record<ProductDoc>

  const OK: int := 200
  const BAD_REQUEST: int := 400
  const NOT_FOUND: int := 404

  // ---------------------------------------------------------------------------
  // Request bodies

  /** `body.section` of a createSection request. */
  datatype SectionInput = SectionInput(
    title: string,
    description: Option<string>,
    viewAllLink: string,
    status: Option<string>)

  /** `body.product` of a createProduct request; `id` is present only when the body names one. */
  datatype ProductInput = ProductInput(id: Option<string>, listing: Listing, status: Option<string>)

  /** The fields an updateSection request sets; absent fields are left alone. */
  datatype SectionUpdates = SectionUpdates(
    title: Option<string>,
    description: Option<string>,
    viewAllLink: Option<string>,
    status: Option<string>,
    order: Option<int>)

  /** The fields an updateProduct request sets; absent fields are left alone. */
  datatype ProductUpdates = ProductUpdates(listing: Option<Listing>, status: Option<string>, order: Option<int>)

  /** `value || fallback` on an optional string: an absent and an empty value both fall back. */
  function OrElse(value: Option<string>, fallback: string): (r: string)
    ensures value.Some? && value.value != "" ==> r == value.value
    ensures value.None? || value.value == "" ==> r == fallback
  {
    if value.Some? && value.value != "" then value.value else fallback
  }

  // ---------------------------------------------------------------------------
  // Filters and new documents

  /** The filter `{sectionId: sid}` on products. */
  function InSection(sid: string): Product -> bool {
    (p: Product) => p.doc.sectionId == sid
  }

  /** The filter of `deleteMany({sectionId: sid})`'s survivors. */
  function OutsideSection(sid: string): Product -> bool {
    (p: Product) => p.doc.sectionId != sid
  }

  /** The filter `{id: {$in: ids}}`. */
  function Listed<T>(ids: seq<string>): Record<T> -> bool {
    (r: Record<T>) => r.id in ids
  }

  predicate SectionExists(sections: seq<Section>, sid: string) {
    FirstIndex(sections, ById(sid)) < |sections|
  }

  /** The section createSection inserts when `count` sections exist already. */
  function NewSection(input: SectionInput, key: nat, id: string, count: nat, now: string): (r: Section)
    ensures r.key == key && r.id == id && r.order == count + 1
    ensures r.doc.products == [] && r.doc.createdAt == now && r.doc.updatedAt == now
    ensures r.doc.title == input.title && r.doc.viewAllLink == input.viewAllLink
    ensures r.doc.description == OrElse(input.description, "")
    ensures r.doc.status == OrElse(input.status, "active")
    ensures input.description.None? ==> r.doc.description == ""
    ensures input.status.None? ==> r.doc.status == "active"
  {
    Record(key, id, count + 1,
      SectionDoc(input.title, OrElse(input.description, ""), [], input.viewAllLink,
                 OrElse(input.status, "active"), now, now))
  }

  /** The product createProduct inserts into section `sid` when `count` products of that
      section exist already. An `id` in the body replaces the generated one. */
  function NewProduct(input: ProductInput, key: nat, freshId: string, sid: string, count: nat, now: string): (r: Product)
    ensures r.key == key && r.order == count + 1
    ensures input.id.Some? ==> r.id == input.id.value
    ensures input.id.None? ==> r.id == freshId
    ensures r.doc.sectionId == sid && r.doc.listing == input.listing
    ensures r.doc.createdAt == now && r.doc.updatedAt == now
    ensures r.doc.status == OrElse(input.status, "active")
  {
    Record(key, input.id.GetOr(freshId), count + 1,
      ProductDoc(input.listing, OrElse(input.status, "active"), sid, now, now))
  }

  // ---------------------------------------------------------------------------
  // Edits of one document

  /** The `$push`/`$pull`/`$set` edits applied to one section. */
  datatype SectionEdit =
    | PushProduct(productId: string, at: string)
    | PullProduct(productId: string, at: string)
    | Patch(updates: SectionUpdates, at: string)
    | Touch(at: string)

  /** `$set: {...updates, updatedAt}` on a section: every field the update carries is set,
      every other field is kept, and updatedAt is refreshed. */
  function PatchSection(s: Section, u: SectionUpdates, at: string): (r: Section)
    ensures r.key == s.key && r.id == s.id
    ensures r.doc.products == s.doc.products && r.doc.createdAt == s.doc.createdAt && r.doc.updatedAt == at
    ensures r.order == u.order.GetOr(s.order) && r.doc.title == u.title.GetOr(s.doc.title)
    ensures r.doc.description == u.description.GetOr(s.doc.description)
    ensures r.doc.viewAllLink == u.viewAllLink.GetOr(s.doc.viewAllLink) && r.doc.status == u.status.GetOr(s.doc.status)
    ensures u == SectionUpdates(None, None, None, None, None) ==> r == s.(doc := s.doc.(updatedAt := at))
  {
    s.(order := u.order.GetOr(s.order),
       doc := s.doc.(title := u.title.GetOr(s.doc.title),
                     description := u.description.GetOr(s.doc.description),
                     viewAllLink := u.viewAllLink.GetOr(s.doc.viewAllLink),
                     status := u.status.GetOr(s.doc.status),
                     updatedAt := at))
  }

  /** The same on a product. */
  function PatchProduct(p: Product, u: ProductUpdates, at: string): (r: Product)
    ensures r.key == p.key && r.id == p.id
    ensures r.doc.sectionId == p.doc.sectionId && r.doc.createdAt == p.doc.createdAt && r.doc.updatedAt == at
    ensures r.order == u.order.GetOr(p.order) && r.doc.listing == u.listing.GetOr(p.doc.listing)
    ensures r.doc.status == u.status.GetOr(p.doc.status)
    ensures u == ProductUpdates(None, None, None) ==> r == p.(doc := p.doc.(updatedAt := at))
  {
    p.(order := u.order.GetOr(p.order),
       doc := p.doc.(listing := u.listing.GetOr(p.doc.listing),
                     status := u.status.GetOr(p.doc.status),
                     updatedAt := at))
  }

  /** The `$pull` condition: every id other than `pid` stays. */
  function Other(pid: string): string -> bool {
    (x: string) => x != pid
  }

  function ApplySectionEdit(s: Section, e: SectionEdit): (r: Section)
    ensures r.key == s.key && r.id == s.id
    ensures e.PushProduct? ==> r.doc.products == s.doc.products + [e.productId]
    ensures e.PullProduct? ==>
      && r.doc.products == Filter(s.doc.products, Other(e.productId))
      && IsSubsequence(r.doc.products, s.doc.products)
      && (forall i :: 0 <= i < |r.doc.products| ==> r.doc.products[i] != e.productId)
      && (forall i :: 0 <= i < |s.doc.products| && s.doc.products[i] != e.productId ==>
            s.doc.products[i] in r.doc.products)
    ensures e.PushProduct? || e.PullProduct? || e.Touch? ==>
      r == s.(doc := s.doc.(products := r.doc.products, updatedAt := e.at))
    ensures e.Patch? ==> r == PatchSection(s, e.updates, e.at)
    ensures r.doc.updatedAt == e.at
  {
    match e
    case PushProduct(pid, at) => s.(doc := s.doc.(products := s.doc.products + [pid], updatedAt := at))
    case PullProduct(pid, at) =>
      FilterIsSubsequence(s.doc.products, Other(pid));
      s.(doc := s.doc.(products := Filter(s.doc.products, Other(pid)), updatedAt := at))
    case Patch(u, at) => PatchSection(s, u, at)
    case Touch(at) => s.(doc := s.doc.(updatedAt := at))
  }

  /** `updateOne({id: sid}, edit)` on the sections: the first section with that id changes. */
  function EditSection(sections: seq<Section>, sid: string, e: SectionEdit): (r: seq<Section>)
    ensures SameSelection(r, sections)
    ensures forall j :: 0 <= j < |sections| ==>
      r[j] == if j == FirstIndex(sections, ById(sid)) then ApplySectionEdit(sections[j], e) else sections[j]
  {
    var i := FirstIndex(sections, ById(sid));
    if i < |sections| then sections[i := ApplySectionEdit(sections[i], e)] else sections
  }

  /** The position of the first product matching `{id: pid, sectionId: sid}`, or
      `|products|` when none does. */
  function ProductIndex(products: seq<Product>, pid: string, sid: string): (i: nat)
    ensures i <= |products|
    ensures forall j :: 0 <= j < i ==> !(products[j].id == pid && products[j].doc.sectionId == sid)
    ensures i < |products| ==> products[i].id == pid && products[i].doc.sectionId == sid
  {
    if products == [] then 0
    else if products[0].id == pid && products[0].doc.sectionId == sid then 0
    else
      var i := ProductIndex(products[1..], pid, sid);
      assert forall j :: 1 <= j < i + 1 ==> products[j] == products[1..][j - 1];
      1 + i
  }

  // ---------------------------------------------------------------------------
  // What GET returns

  /** A section together with its products, as GET sends it. */
  datatype SectionView = SectionView(section: Section, products: seq<Product>)

  /** Sections sorted by order, each with the products of that section sorted by order. */
  function View(sections: seq<Section>, products: seq<Product>): (r: seq<SectionView>)
    ensures |r| == |sections|
  {
    var sorted := SortByOrder(sections);
    var ps := SortByOrder(products);
    seq(|sorted|, i requires 0 <= i < |sorted| => SectionView(sorted[i], Filter(ps, InSection(sorted[i].id))))
  }

  /** GET lists the sections ascending by order (a permutation of the stored ones), each
      carrying exactly the products whose sectionId is the section's id, ascending by order. */
  lemma ViewSpec(sections: seq<Section>, products: seq<Product>)
    ensures var r := View(sections, products);
      && (forall i :: 0 <= i < |r| ==> r[i].section == SortByOrder(sections)[i])
      && (forall i, j :: 0 <= i < j < |r| ==> r[i].section.order <= r[j].section.order)
      && (forall i :: 0 <= i < |r| ==> SortedBy(r[i].products, OrderKey))
      && (forall i, k :: 0 <= i < |r| && 0 <= k < |r[i].products| ==>
            r[i].products[k].doc.sectionId == r[i].section.id)
      && (forall i :: 0 <= i < |r| ==>
            multiset(r[i].products) == multiset(Filter(products, InSection(r[i].section.id))))
  {
    var r := View(sections, products);
    var sorted := SortByOrder(sections);
    var ps := SortByOrder(products);
    forall i, j | 0 <= i < j < |r| ensures r[i].section.order <= r[j].section.order {
      assert OrderKey(sorted[i]) <= OrderKey(sorted[j]);
    }
    forall i | 0 <= i < |r|
      ensures SortedBy(r[i].products, OrderKey)
      ensures multiset(r[i].products) == multiset(Filter(products, InSection(r[i].section.id)))
    {
      FilterKeepsSorted(ps, OrderKey, InSection(sorted[i].id));
      FilterPreservesPermutation(ps, products, InSection(sorted[i].id));
    }
  }

  // ---------------------------------------------------------------------------
  // Request envelopes

  datatype PostBody = PostBody(action: string, sectionId: string, product: ProductInput, section: SectionInput)

  /** A PUT body; `updates` is read as section fields, product fields or id lists by action. */
  datatype PutBody = PutBody(
    action: string,
    sectionId: string,
    productId: string,
    sectionUpdates: SectionUpdates,
    productUpdates: ProductUpdates,
    productIds: seq<string>,
    sectionIds: seq<string>)

  /** The query string of a DELETE request. */
  datatype DeleteQuery = DeleteQuery(action: string, sectionId: string, productId: string)

  // ---------------------------------------------------------------------------
  // The store

  class Store {
    var sections: seq<Section>
    var products: seq<Product>
    /** The next storage key to hand out; every stored key is below it. */
    var nextKey: nat

    ghost predicate Valid()
      reads this
    {
      && UniqueKeys(sections) && UniqueKeys(products)
      && (forall i :: 0 <= i < |sections| ==> sections[i].key < nextKey)
      && (forall i :: 0 <= i < |products| ==> products[i].key < nextKey)
    }

    constructor ()
      ensures Valid() && sections == [] && products == [] && nextKey == 0
    {
      sections := [];
      products := [];
      nextKey := 0;
    }

    /** GET: the sections with their products. */
    method Get() returns (data: seq<SectionView>)
      ensures data == View(sections, products)
    {
      data := View(sections, products);
    }

    /** POST createSection. */
    method CreateSection(input: SectionInput, freshId: string, now: string) returns (code: int, created: Section)
      requires Valid()
      modifies this
      ensures Valid()
      ensures code == OK
      ensures created == NewSection(input, old(nextKey), freshId, |old(sections)|, now)
      ensures sections == old(sections) + [created] && products == old(products)
    {
      created := NewSection(input, nextKey, freshId, |sections|, now);
      sections := sections + [created];
      nextKey := nextKey + 1;
      code := OK;
    }

    /** POST createProduct: 404 and no change when no section has that id; otherwise the new
        product is appended and its id pushed onto the section's list. */
    method CreateProduct(sid: string, input: ProductInput, freshId: string, now: string)
      returns (code: int, created: Option<Product>)
      requires Valid()
      modifies this
      ensures Valid()
      ensures !SectionExists(old(sections), sid) ==>
        && code == NOT_FOUND && created == None
        && sections == old(sections) && products == old(products) && nextKey == old(nextKey)
      ensures SectionExists(old(sections), sid) ==>
        && code == OK
        && created == Some(NewProduct(input, old(nextKey), freshId, sid, |Filter(old(products), InSection(sid))|, now))
        && products == old(products) + [created.value]
        && sections == EditSection(old(sections), sid, PushProduct(created.value.id, now))
    {
      if !SectionExists(sections, sid) {
        return NOT_FOUND, None;
      }
      var p := NewProduct(input, nextKey, freshId, sid, |Filter(products, InSection(sid))|, now);
      products := products + [p];
      nextKey := nextKey + 1;
      sections := EditSection(sections, sid, PushProduct(p.id, now));
      SameSelectionKeepsUniqueKeys(sections, old(sections));
      code, created := OK, Some(p);
    }

    /** PUT updateSection: 404 when no section has that id; otherwise the first one is patched
        and returned. */
    method UpdateSection(sid: string, u: SectionUpdates, now: string) returns (code: int, updated: Option<Section>)
      requires Valid()
      modifies this
      ensures Valid()
      ensures products == old(products)
      ensures !SectionExists(old(sections), sid) ==> code == NOT_FOUND && updated == None && sections == old(sections)
      ensures SectionExists(old(sections), sid) ==>
        && code == OK
        && sections == EditSection(old(sections), sid, Patch(u, now))
        && updated == Some(PatchSection(old(sections)[FirstIndex(old(sections), ById(sid))], u, now))
    {
      var i := FirstIndex(sections, ById(sid));
      if i == |sections| {
        return NOT_FOUND, None;
      }
      sections := EditSection(sections, sid, Patch(u, now));
      SameSelectionKeepsUniqueKeys(sections, old(sections));
      FirstIndexSameSelection(sections, old(sections), ById(sid));
      code, updated := OK, Some(sections[FirstIndex(sections, ById(sid))]);
    }

    /** PUT updateProduct: 404 when no product matches both ids; otherwise that product is
        patched, its section's updatedAt refreshed, and the first product with that id (in any
        section) returned. */
    method UpdateProduct(sid: string, pid: string, u: ProductUpdates, now: string)
      returns (code: int, updated: Option<Product>)
      requires Valid()
      modifies this
      ensures Valid()
      ensures ProductIndex(old(products), pid, sid) == |old(products)| ==>
        code == NOT_FOUND && updated == None && sections == old(sections) && products == old(products)
      ensures ProductIndex(old(products), pid, sid) < |old(products)| ==>
        var i := ProductIndex(old(products), pid, sid);
        && code == OK
        && products == old(products)[i := PatchProduct(old(products)[i], u, now)]
        && sections == EditSection(old(sections), sid, Touch(now))
        && FirstIndex(products, ById(pid)) <= i
        && updated == Some(products[FirstIndex(products, ById(pid))])
    {
      var i := ProductIndex(products, pid, sid);
      if i == |products| {
        return NOT_FOUND, None;
      }
      products := products[i := PatchProduct(products[i], u, now)];
      assert SameSelection(products, old(products)) by {
        assert forall j :: 0 <= j < |products| ==> products[j].key == old(products)[j].key && products[j].id == old(products)[j].id;
      }
      SameSelectionKeepsUniqueKeys(products, old(products));
      sections := EditSection(sections, sid, Touch(now));
      SameSelectionKeepsUniqueKeys(sections, old(sections));
      assert Selects(products[i], ById(pid));
      code, updated := OK, Some(products[FirstIndex(products, ById(pid))]);
    }

    /** The loop `for i: updateOne(sels[i], {$set: {order: i + 1}})` over the products. */
    method ReorderProductsBy(sels: seq<Selector>)
      requires Valid()
      modifies this
      ensures Valid()
      ensures products == Reorder(old(products), sels)
      ensures sections == old(sections) && nextKey == old(nextKey)
    {
      var i := 0;
      while i < |sels|
        invariant 0 <= i <= |sels|
        invariant products == Reorder(old(products), sels[..i])
        invariant sections == old(sections) && nextKey == old(nextKey)
      {
        assert sels[..i + 1][..i] == sels[..i];
        products := SetOrder(products, sels[i], i + 1);
        i := i + 1;
      }
      assert sels[..i] == sels;
      ReorderSpec(old(products), sels);
      SameSelectionKeepsUniqueKeys(products, old(products));
      assert forall j :: 0 <= j < |products| ==> products[j].key == old(products)[j].key;
    }

    /** The same loop over the sections. */
    method ReorderSectionsBy(sels: seq<Selector>)
      requires Valid()
      modifies this
      ensures Valid()
      ensures sections == Reorder(old(sections), sels)
      ensures products == old(products) && nextKey == old(nextKey)
    {
      var i := 0;
      while i < |sels|
        invariant 0 <= i <= |sels|
        invariant sections == Reorder(old(sections), sels[..i])
        invariant products == old(products) && nextKey == old(nextKey)
      {
        assert sels[..i + 1][..i] == sels[..i];
        sections := SetOrder(sections, sels[i], i + 1);
        i := i + 1;
      }
      assert sels[..i] == sels;
      ReorderSpec(old(sections), sels);
      SameSelectionKeepsUniqueKeys(sections, old(sections));
      assert forall j :: 0 <= j < |sections| ==> sections[j].key == old(sections)[j].key;
    }

    /** PUT reorderProducts: position i of the list gets order i + 1; the listed products are
        returned sorted by order. */
    method ReorderProducts(ids: seq<string>) returns (code: int, data: seq<Product>)
      requires Valid()
      modifies this
      ensures Valid()
      ensures code == OK
      ensures products == Reorder(old(products), IdSelectors(ids)) && sections == old(sections)
      ensures data == SortByOrder(Filter(products, Listed(ids)))
    {
      ReorderProductsBy(IdSelectors(ids));
      code, data := OK, SortByOrder(Filter(products, Listed(ids)));
    }

    /** PUT reorderSections: the same for sections. */
    method ReorderSections(ids: seq<string>) returns (code: int, data: seq<Section>)
      requires Valid()
      modifies this
      ensures Valid()
      ensures code == OK
      ensures sections == Reorder(old(sections), IdSelectors(ids)) && products == old(products)
      ensures data == SortByOrder(Filter(sections, Listed(ids)))
    {
      ReorderSectionsBy(IdSelectors(ids));
      code, data := OK, SortByOrder(Filter(sections, Listed(ids)));
    }

    /** DELETE deleteSection: the section's products go first, even when the section itself is
        then not found; on success the remaining sections are renumbered 1..N. */
    method DeleteSection(sid: string) returns (code: int)
      requires Valid()
      modifies this
      ensures Valid()
      ensures products == Filter(old(products), OutsideSection(sid))
      ensures !SectionExists(old(sections), sid) ==> code == NOT_FOUND && sections == old(sections)
      ensures SectionExists(old(sections), sid) ==>
        code == OK && sections == Renumbered(DeleteFirst(old(sections), ById(sid)))
    {
      products := Filter(products, OutsideSection(sid));
      FilterKeepsUniqueKeys(old(products), OutsideSection(sid));
      var i := FirstIndex(sections, ById(sid));
      if i == |sections| {
        return NOT_FOUND;
      }
      sections := DeleteFirst(sections, ById(sid));
      DropKeepsUniqueKeys(old(sections), i);
      DropKeepsKeysBelow(old(sections), i, sections, nextKey);
      ReorderSectionsBy(KeySelectors(RenumberKeys(sections, AnyRecord())));
      code := OK;
    }

    /** DELETE deleteProduct: 404 when no product matches both ids; otherwise that product goes,
        its id is pulled from the section's list, and the section's remaining products are
        renumbered 1..N. */
    method DeleteProduct(sid: string, pid: string, now: string) returns (code: int)
      requires Valid()
      modifies this
      ensures Valid()
      ensures ProductIndex(old(products), pid, sid) == |old(products)| ==>
        code == NOT_FOUND && sections == old(sections) && products == old(products)
      ensures ProductIndex(old(products), pid, sid) < |old(products)| ==>
        var i := ProductIndex(old(products), pid, sid);
        && code == OK
        && sections == EditSection(old(sections), sid, PullProduct(pid, now))
        && products == RenumberedWhere(old(products)[..i] + old(products)[i + 1..], InSection(sid))
    {
      var i := ProductIndex(products, pid, sid);
      if i == |products| {
        return NOT_FOUND;
      }
      products := products[..i] + products[i + 1..];
      DropKeepsUniqueKeys(old(products), i);
      DropKeepsKeysBelow(old(products), i, products, nextKey);
      sections := EditSection(sections, sid, PullProduct(pid, now));
      SameSelectionKeepsUniqueKeys(sections, old(sections));
      ReorderProductsBy(KeySelectors(RenumberKeys(products, InSection(sid))));
      code := OK;
    }

    /** POST: createSection or createProduct; any other action is a 400 and changes nothing. */
    method Post(body: PostBody, freshId: string, now: string) returns (code: int)
      requires Valid()
      modifies this
      ensures Valid()
      ensures body.action == "createSection" ==>
        && code == OK
        && sections == old(sections) + [NewSection(body.section, old(nextKey), freshId, |old(sections)|, now)]
        && products == old(products)
      ensures body.action == "createProduct" && !SectionExists(old(sections), body.sectionId) ==>
        code == NOT_FOUND && sections == old(sections) && products == old(products)
      ensures body.action == "createProduct" && SectionExists(old(sections), body.sectionId) ==>
        var p := NewProduct(body.product, old(nextKey), freshId, body.sectionId,
                            |Filter(old(products), InSection(body.sectionId))|, now);
        && code == OK
        && products == old(products) + [p]
        && sections == EditSection(old(sections), body.sectionId, PushProduct(p.id, now))
      ensures body.action != "createSection" && body.action != "createProduct" ==>
        code == BAD_REQUEST && sections == old(sections) && products == old(products)
    {
      if body.action == "createSection" {
        var created;
        code, created := CreateSection(body.section, freshId, now);
      } else if body.action == "createProduct" {
        var created;
        code, created := CreateProduct(body.sectionId, body.product, freshId, now);
      } else {
        code := BAD_REQUEST;
      }
    }

    /** PUT: the two updates and the two reorders; any other action is a 400 and changes
        nothing. */
    method Put(body: PutBody, now: string) returns (code: int)
      requires Valid()
      modifies this
      ensures Valid()
      ensures body.action == "updateSection" ==>
        && products == old(products)
        && (!SectionExists(old(sections), body.sectionId) ==> code == NOT_FOUND && sections == old(sections))
        && (SectionExists(old(sections), body.sectionId) ==>
              code == OK && sections == EditSection(old(sections), body.sectionId, Patch(body.sectionUpdates, now)))
      ensures body.action == "updateProduct" ==>
        var i := ProductIndex(old(products), body.productId, body.sectionId);
        && (i == |old(products)| ==> code == NOT_FOUND && sections == old(sections) && products == old(products))
        && (i < |old(products)| ==>
              && code == OK
              && products == old(products)[i := PatchProduct(old(products)[i], body.productUpdates, now)]
              && sections == EditSection(old(sections), body.sectionId, Touch(now)))
      ensures body.action == "reorderProducts" ==>
        code == OK && products == Reorder(old(products), IdSelectors(body.productIds)) && sections == old(sections)
      ensures body.action == "reorderSections" ==>
        code == OK && sections == Reorder(old(sections), IdSelectors(body.sectionIds)) && products == old(products)
      ensures body.action !in {"updateSection", "updateProduct", "reorderProducts", "reorderSections"} ==>
        code == BAD_REQUEST && sections == old(sections) && products == old(products)
    {
      if body.action == "updateSection" {
        var updated;
        code, updated := UpdateSection(body.sectionId, body.sectionUpdates, now);
      } else if body.action == "updateProduct" {
        var updated;
        code, updated := UpdateProduct(body.sectionId, body.productId, body.productUpdates, now);
      } else if body.action == "reorderProducts" {
        var data;
        code, data := ReorderProducts(body.productIds);
      } else if body.action == "reorderSections" {
        var data;
        code, data := ReorderSections(body.sectionIds);
      } else {
        code := BAD_REQUEST;
      }
    }

    /** DELETE: deleteSection or deleteProduct; any other action is a 400 and changes nothing. */
    method Delete(query: DeleteQuery, now: string) returns (code: int)
      requires Valid()
      modifies this
      ensures Valid()
      ensures query.action == "deleteSection" ==>
        && products == Filter(old(products), OutsideSection(query.sectionId))
        && (!SectionExists(old(sections), query.sectionId) ==> code == NOT_FOUND && sections == old(sections))
        && (SectionExists(old(sections), query.sectionId) ==>
              code == OK && sections == Renumbered(DeleteFirst(old(sections), ById(query.sectionId))))
      ensures query.action == "deleteProduct" && ProductIndex(old(products), query.productId, query.sectionId) == |old(products)| ==>
        code == NOT_FOUND && sections == old(sections) && products == old(products)
      ensures query.action == "deleteProduct" && ProductIndex(old(products), query.productId, query.sectionId) < |old(products)| ==>
        var i := ProductIndex(old(products), query.productId, query.sectionId);
        && code == OK
        && sections == EditSection(old(sections), query.sectionId, PullProduct(query.productId, now))
        && products == RenumberedWhere(old(products)[..i] + old(products)[i + 1..], InSection(query.sectionId))
      ensures query.action !in {"deleteSection", "deleteProduct"} ==>
        code == BAD_REQUEST && sections == old(sections) && products == old(products)
    {
      if query.action == "deleteSection" {
        code := DeleteSection(query.sectionId);
      } else if query.action == "deleteProduct" {
        code := DeleteProduct(query.sectionId, query.productId, now);
      } else {
        code := BAD_REQUEST;
      }
    }
  }
}
