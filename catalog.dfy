/**
  The listings of customers, fruits and suppliers in the REST interface, and
  the single-fruit view. Fruits are shown with the name of the supplier that
  their `supplierId` refers to.
 */
module Catalog {
  import opened Wrappers
  import opened Values
  import opened Records
  import opened Queries
  import opened Serializer

  /** `supplier["name"] if supplier else "Unknown"` for `find_one({"_id": ref})`. */
  function SupplierName(suppliers: seq<Supplier>, ref: Value): (name: string)
    ensures SupplierWithId(suppliers, ref).None? ==> name == "Unknown"
    ensures SupplierWithId(suppliers, ref).Some? ==>
      exists i :: 0 <= i < |suppliers| && Oid(suppliers[i].id) == ref && name == suppliers[i].name
  {
    match SupplierWithId(suppliers, ref)
    case Some(s) => s.name
    case None => "Unknown"
  }

  /** A fruit document after `fruit["supplierName"] = ...`, which runs only for a truthy `supplierId`. */
  function WithSupplierName(suppliers: seq<Supplier>, f: Fruit): (doc: Entries)
    ensures !Truthy(f.supplierId) ==> doc == FruitDoc(f)
    ensures Truthy(f.supplierId) ==>
      && Keys(doc) == Keys(FruitDoc(f)) + ["supplierName"]
      && Lookup(doc, "supplierName") == Some(Str(SupplierName(suppliers, f.supplierId)))
    ensures forall k :: k != "supplierName" ==> Lookup(doc, k) == Lookup(FruitDoc(f), k)
  {
    var base := FruitDoc(f);
    assert !HasKey(base, "supplierName") by {
      assert Keys(base) == ["_id", "barCode", "name", "category", "pricePerKg", "stockKg", "country", "supplierId", "isOrganic"];
    }
    if Truthy(f.supplierId) then
      var doc := SetKey(base, "supplierName", Str(SupplierName(suppliers, f.supplierId)));
      assert forall k :: Lookup(doc, k) == if k == "supplierName" then Some(Str(SupplierName(suppliers, f.supplierId))) else Lookup(base, k) by {
        forall k ensures Lookup(doc, k) == if k == "supplierName" then Some(Str(SupplierName(suppliers, f.supplierId))) else Lookup(base, k) {
          SetKeyLookup(base, "supplierName", Str(SupplierName(suppliers, f.supplierId)), k);
        }
      }
      doc
    else base
  }

  /** The serialized document of a fruit as the fruit endpoints return it. */
  function FruitView(suppliers: seq<Supplier>, f: Fruit): Value {
    Serialize(Dict(WithSupplierName(suppliers, f)))
  }

  /**
    A fruit's view shows its `_id` as hex text, its stored `supplierId`
    serialized, and a `supplierName` exactly when the `supplierId` is truthy.
   */
  lemma FruitViewFields(suppliers: seq<Supplier>, f: Fruit)
    ensures var v := FruitView(suppliers, f);
      && v.Dict?
      && Lookup(v.entries, "_id") == Some(Str(f.id))
      && Lookup(v.entries, "name") == Some(Str(f.name))
      && Lookup(v.entries, "pricePerKg") == Some(Float(f.pricePerKg))
      && Lookup(v.entries, "supplierId") == Some(SerializeField(f.supplierId))
      && (Truthy(f.supplierId) ==> Lookup(v.entries, "supplierName") == Some(Str(SupplierName(suppliers, f.supplierId))))
      && (!Truthy(f.supplierId) ==> !HasKey(v.entries, "supplierName"))
  {
    var doc := WithSupplierName(suppliers, f);
    FruitDocIsPlain(suppliers, f);
    FruitDocReads(f);
    var named := if Truthy(f.supplierId) then Some(SupplierName(suppliers, f.supplierId)) else None;
    assert Lookup(doc, "supplierName") == if named.Some? then Some(Str(named.value)) else None;
    SerializedFruit(doc, f, named);
  }

  /** The serialized fields of any plain document that reads a fruit's fields. */
  lemma SerializedFruit(doc: Entries, f: Fruit, named: Option<string>)
    requires !HasKey(doc, "$oid") && !HasKey(doc, "$date")
    requires Lookup(doc, "_id") == Some(Oid(f.id)) && Lookup(doc, "name") == Some(Str(f.name))
    requires Lookup(doc, "pricePerKg") == Some(Float(f.pricePerKg)) && Lookup(doc, "supplierId") == Some(f.supplierId)
    requires Lookup(doc, "supplierName") == if named.Some? then Some(Str(named.value)) else None
    ensures var v := Serialize(Dict(doc));
      && v.Dict?
      && Lookup(v.entries, "_id") == Some(Str(f.id))
      && Lookup(v.entries, "name") == Some(Str(f.name))
      && Lookup(v.entries, "pricePerKg") == Some(Float(f.pricePerKg))
      && Lookup(v.entries, "supplierId") == Some(SerializeField(f.supplierId))
      && (named.Some? ==> Lookup(v.entries, "supplierName") == Some(Str(named.value)))
      && (named.None? ==> !HasKey(v.entries, "supplierName"))
  {
    SerializedKey(doc, "_id", Oid(f.id));
    SerializedKey(doc, "name", Str(f.name));
    SerializedKey(doc, "pricePerKg", Float(f.pricePerKg));
    SerializedKey(doc, "supplierId", f.supplierId);
    SerializeDictLookup(doc, "supplierName");
  }

  /** The fruit document has no wrapper keys. */
  lemma FruitDocIsPlain(suppliers: seq<Supplier>, f: Fruit)
    ensures !HasKey(WithSupplierName(suppliers, f), "$oid") && !HasKey(WithSupplierName(suppliers, f), "$date")
    ensures !HasKey(FruitDoc(f), "supplierName")
  {
    assert Keys(FruitDoc(f)) == ["_id", "barCode", "name", "category", "pricePerKg", "stockKg", "country", "supplierId", "isOrganic"];
  }

  /** The fields of a fruit a view shows. */
  lemma FruitDocReads(f: Fruit)
    ensures Lookup(FruitDoc(f), "_id") == Some(Oid(f.id))
    ensures Lookup(FruitDoc(f), "name") == Some(Str(f.name))
    ensures Lookup(FruitDoc(f), "pricePerKg") == Some(Float(f.pricePerKg))
    ensures Lookup(FruitDoc(f), "supplierId") == Some(f.supplierId)
  {
    var doc := FruitDoc(f);
    LookupDistinct(doc);
    assert doc[0].0 == "_id" && doc[2].0 == "name" && doc[4].0 == "pricePerKg" && doc[7].0 == "supplierId";
  }

  // ---------------------------------------------------------------------
  // Listings

  /** The customers `find(filter_query)` yields for `is_member`, in stored order. */
  function MatchingCustomers(customers: seq<Customer>, isMember: Option<bool>): (r: seq<Customer>)
    ensures forall i :: 0 <= i < |r| ==> r[i] in customers && (isMember.Some? ==> r[i].isMember == isMember.value)
    ensures forall i :: 0 <= i < |customers| && (isMember.Some? ==> customers[i].isMember == isMember.value) ==>
      customers[i] in r
    ensures r == Filter(customers, (c: Customer) => isMember.Some? ==> c.isMember == isMember.value)
  {
    var r := Filter(customers, (c: Customer) => Matches(CustomerDoc(c), CustomerFilter(isMember)));
    assert forall c :: Matches(CustomerDoc(c), CustomerFilter(isMember)) <==> (isMember.Some? ==> c.isMember == isMember.value) by {
      forall c ensures Matches(CustomerDoc(c), CustomerFilter(isMember)) <==> (isMember.Some? ==> c.isMember == isMember.value) {
        CustomerFilterMeaning(c, isMember);
      }
    }
    FilterAgree(customers, (c: Customer) => Matches(CustomerDoc(c), CustomerFilter(isMember)),
                (c: Customer) => isMember.Some? ==> c.isMember == isMember.value);
    r
  }

  /** The fruits `find(filter_query)` yields for `category`, `is_organic` and `min_stock`, in stored order. */
  function MatchingFruits(fruits: seq<Fruit>, category: Option<string>, isOrganic: Option<bool>, minStock: Option<int>)
    : (r: seq<Fruit>)
    ensures forall i :: 0 <= i < |r| ==>
      && r[i] in fruits
      && (category.Some? && category.value != "" ==> r[i].category == category.value)
      && (isOrganic.Some? ==> r[i].isOrganic == isOrganic.value)
      && (minStock.Some? ==> r[i].stockKg >= minStock.value)
    ensures forall i :: 0 <= i < |fruits| ==>
      (&& (category.Some? && category.value != "" ==> fruits[i].category == category.value)
       && (isOrganic.Some? ==> fruits[i].isOrganic == isOrganic.value)
       && (minStock.Some? ==> fruits[i].stockKg >= minStock.value))
      ==> fruits[i] in r
    ensures r == Filter(fruits, (f: Fruit) =>
      && (category.Some? && category.value != "" ==> f.category == category.value)
      && (isOrganic.Some? ==> f.isOrganic == isOrganic.value)
      && (minStock.Some? ==> f.stockKg >= minStock.value))
  {
    var filter := FruitFilter(category, isOrganic, minStock);
    var r := Filter(fruits, (f: Fruit) => Matches(FruitDoc(f), filter));
    assert forall f :: Matches(FruitDoc(f), filter) <==>
        && (category.Some? && category.value != "" ==> f.category == category.value)
        && (isOrganic.Some? ==> f.isOrganic == isOrganic.value)
        && (minStock.Some? ==> f.stockKg >= minStock.value) by {
      forall f ensures Matches(FruitDoc(f), filter) <==>
          && (category.Some? && category.value != "" ==> f.category == category.value)
          && (isOrganic.Some? ==> f.isOrganic == isOrganic.value)
          && (minStock.Some? ==> f.stockKg >= minStock.value) {
        FruitFilterMeaning(f, category, isOrganic, minStock);
      }
    }
    FilterAgree(fruits, (f: Fruit) => Matches(FruitDoc(f), filter), (f: Fruit) =>
      && (category.Some? && category.value != "" ==> f.category == category.value)
      && (isOrganic.Some? ==> f.isOrganic == isOrganic.value)
      && (minStock.Some? ==> f.stockKg >= minStock.value));
    r
  }

  /** The suppliers `find(filter_query)` yields for `active_only`, in stored order. */
  function MatchingSuppliers(suppliers: seq<Supplier>, activeOnly: bool): (r: seq<Supplier>)
    ensures forall i :: 0 <= i < |r| ==> r[i] in suppliers && (activeOnly ==> r[i].active)
    ensures forall i :: 0 <= i < |suppliers| && (activeOnly ==> suppliers[i].active) ==> suppliers[i] in r
    ensures r == Filter(suppliers, (s: Supplier) => activeOnly ==> s.active)
  {
    var r := Filter(suppliers, (s: Supplier) => Matches(SupplierDoc(s), SupplierFilter(activeOnly)));
    assert forall s :: Matches(SupplierDoc(s), SupplierFilter(activeOnly)) <==> (activeOnly ==> s.active) by {
      forall s ensures Matches(SupplierDoc(s), SupplierFilter(activeOnly)) <==> (activeOnly ==> s.active) {
        SupplierFilterMeaning(s, activeOnly);
      }
    }
    FilterAgree(suppliers, (s: Supplier) => Matches(SupplierDoc(s), SupplierFilter(activeOnly)),
                (s: Supplier) => activeOnly ==> s.active);
    r
  }

  /** `get_customers`: the serialized page of matching customers and the pagination block. */
  function GetCustomers(customers: seq<Customer>, skip: Option<int>, limit: Option<int>, isMember: Option<bool>)
    : (r: Result<Listing<Value>>)
    ensures r.Err? <==> CheckPage(skip, limit).Err?
    ensures r.Err? ==> Status(r.failure) == 422
    ensures r.Ok? ==>
      var p := CheckPage(skip, limit).value;
      var page := Paginate(MatchingCustomers(customers, isMember), p);
      && r.value.data.List?
      && |r.value.data.items| == |page| <= p.limit
      && (forall i :: 0 <= i < |page| ==> r.value.data.items[i] == Serialize(Dict(CustomerDoc(page[i]))))
      && r.value.total == |MatchingCustomers(customers, isMember)|
      && r.value.hasMore == HasMore(p, r.value.total)
  {
    match CheckPage(skip, limit)
    case Err(e) => Err(e)
    case Ok(p) =>
      var matched := MatchingCustomers(customers, isMember);
      var page := Paginate(matched, p);
      SerializeList(seq(|page|, i requires 0 <= i < |page| => Dict(CustomerDoc(page[i]))));
      Ok(Listing(Serialize(List(seq(|page|, i requires 0 <= i < |page| => Dict(CustomerDoc(page[i]))))),
                 p.skip, p.limit, |matched|, HasMore(p, |matched|)))
  }

  /**
    `get_fruits`: the serialized page of matching fruits, each with its
    supplier's name; `min_stock` must not be negative.
   */
  function GetFruits(fruits: seq<Fruit>, suppliers: seq<Supplier>, skip: Option<int>, limit: Option<int>,
                     category: Option<string>, isOrganic: Option<bool>, minStock: Option<int>)
    : (r: Result<Listing<Value>>)
    ensures r.Err? <==> CheckPage(skip, limit).Err? || (minStock.Some? && minStock.value < 0)
    ensures r.Err? ==> Status(r.failure) == 422
    ensures r.Ok? ==>
      var p := CheckPage(skip, limit).value;
      var matched := MatchingFruits(fruits, category, isOrganic, minStock);
      var page := Paginate(matched, p);
      && r.value.data.List?
      && |r.value.data.items| == |page| <= p.limit
      && (forall i :: 0 <= i < |page| ==> r.value.data.items[i] == FruitView(suppliers, page[i]))
      && r.value.total == |matched|
      && r.value.hasMore == HasMore(p, r.value.total)
  {
    match CheckPage(skip, limit)
    case Err(e) => Err(e)
    case Ok(p) =>
      if minStock.Some? && minStock.value < 0 then Err(InvalidQuery("min_stock"))
      else
        var matched := MatchingFruits(fruits, category, isOrganic, minStock);
        var page := Paginate(matched, p);
        var docs := seq(|page|, i requires 0 <= i < |page| => Dict(WithSupplierName(suppliers, page[i])));
        SerializeList(docs);
        Ok(Listing(Serialize(List(docs)), p.skip, p.limit, |matched|, HasMore(p, |matched|)))
  }

  /** `get_suppliers`: the serialized page of suppliers, only active ones when `active_only` is set. */
  function GetSuppliers(suppliers: seq<Supplier>, skip: Option<int>, limit: Option<int>, activeOnly: bool)
    : (r: Result<Listing<Value>>)
    ensures r.Err? <==> CheckPage(skip, limit).Err?
    ensures r.Err? ==> Status(r.failure) == 422
    ensures r.Ok? ==>
      var p := CheckPage(skip, limit).value;
      var page := Paginate(MatchingSuppliers(suppliers, activeOnly), p);
      && r.value.data.List?
      && |r.value.data.items| == |page| <= p.limit
      && (forall i :: 0 <= i < |page| ==> r.value.data.items[i] == Serialize(Dict(SupplierDoc(page[i]))))
      && r.value.total == |MatchingSuppliers(suppliers, activeOnly)|
      && r.value.hasMore == HasMore(p, r.value.total)
  {
    match CheckPage(skip, limit)
    case Err(e) => Err(e)
    case Ok(p) =>
      var matched := MatchingSuppliers(suppliers, activeOnly);
      var page := Paginate(matched, p);
      SerializeList(seq(|page|, i requires 0 <= i < |page| => Dict(SupplierDoc(page[i]))));
      Ok(Listing(Serialize(List(seq(|page|, i requires 0 <= i < |page| => Dict(SupplierDoc(page[i]))))),
                 p.skip, p.limit, |matched|, HasMore(p, |matched|)))
  }

  /** `get_fruit`: the id must parse and name a fruit; the answer is that fruit's view. */
  function GetFruit(fruits: seq<Fruit>, suppliers: seq<Supplier>, fruitId: string): (r: Result<Value>)
    ensures ParseObjectId(Str(fruitId)).None? ==> r == Err(InvalidId(fruitId))
    ensures r == Err(FruitNotFound) <==>
      ParseObjectId(Str(fruitId)).Some? && forall i :: 0 <= i < |fruits| ==> fruits[i].id != ParseObjectId(Str(fruitId)).value
    ensures r.Ok? ==>
      exists i :: 0 <= i < |fruits| && fruits[i].id == ParseObjectId(Str(fruitId)).value && r.value == FruitView(suppliers, fruits[i])
  {
    match ParseObjectId(Str(fruitId))
    case None => Err(InvalidId(fruitId))
    case Some(h) =>
      match FruitWithId(fruits, Oid(h))
      case None => Err(FruitNotFound)
      case Some(f) => Ok(FruitView(suppliers, f))
  }
}
