/**
  Partial updates of the REST interface: `{k: v for k, v in update.dict().items()
  if v is not None}`, refused with "No update data provided" when nothing is
  left. Customer and order updates then stamp `updated_at`; fruit and supplier
  updates do not. A fruit update turns a given `supplierId` into an ObjectId.
 */
module Updates {
  import opened Wrappers
  import opened Values
  import opened Records

  /** The fields of an update model in declaration order, `None` when not given. */
  type Fields = seq<(string, Option<Value>)>

  function NonNone(fields: Fields): (r: Entries)
    ensures |r| <= |fields|
  {
    if |fields| == 0 then []
    else
      var rest := NonNone(fields[1..]);
      if fields[0].1.Some? then [(fields[0].0, fields[0].1.value)] + rest else rest
  }

  /** The names of the fields that were given, in declaration order. */
  function GivenNames(fields: Fields): seq<string> {
    if |fields| == 0 then []
    else if fields[0].1.Some? then [fields[0].0] + GivenNames(fields[1..])
    else GivenNames(fields[1..])
  }

  /** Exactly the given fields are kept, in order, with their values. */
  lemma {:induction false} NonNoneKeepsGiven(fields: Fields)
    ensures Keys(NonNone(fields)) == GivenNames(fields)
    ensures forall i :: 0 <= i < |NonNone(fields)| ==> Some(NonNone(fields)[i].1) in FieldValues(fields)
    ensures NonNone(fields) == [] <==> forall i :: 0 <= i < |fields| ==> fields[i].1.None?
  {
    if |fields| > 0 {
      NonNoneKeepsGiven(fields[1..]);
      var rest := NonNone(fields[1..]);
      assert FieldValues(fields) == [fields[0].1] + FieldValues(fields[1..]);
      if fields[0].1.Some? {
        assert Keys([(fields[0].0, fields[0].1.value)] + rest) == [fields[0].0] + Keys(rest);
      } else {
        assert forall i :: 1 <= i < |fields| ==> fields[i] == fields[1..][i - 1];
      }
    }
  }

  lemma {:induction false} GivenIsNamed(fields: Fields, i: nat)
    requires i < |fields| && fields[i].1.Some?
    ensures fields[i].0 in GivenNames(fields)
  {
    if i > 0 {
      GivenIsNamed(fields[1..], i - 1);
    }
  }

  function FieldValues(fields: Fields): (vs: seq<Option<Value>>)
    ensures |vs| == |fields|
    ensures forall i :: 0 <= i < |fields| ==> vs[i] == fields[i].1
  {
    seq(|fields|, i requires 0 <= i < |fields| => fields[i].1)
  }

  /** The `$set` document, or "No update data provided"; `stamp` is the `updated_at` value, if any. */
  function BuildUpdate(fields: Fields, stamp: Option<Value>): (r: Result<Entries>)
    ensures r.Err? <==> forall i :: 0 <= i < |fields| ==> fields[i].1.None?
    ensures r.Err? ==> r.failure == NoUpdateData
    ensures r.Ok? && stamp.None? ==> r.value == NonNone(fields)
    ensures r.Ok? && stamp.Some? ==> r.value == NonNone(fields) + [("updated_at", stamp.value)]
  {
    NonNoneKeepsGiven(fields);
    var kept := NonNone(fields);
    if kept == [] then Err(NoUpdateData)
    else if stamp.Some? then Ok(kept + [("updated_at", stamp.value)])
    else Ok(kept)
  }

  function OptStr(o: Option<string>): Option<Value> {
    if o.Some? then Some(Str(o.value)) else None
  }

  function OptBool(o: Option<bool>): Option<Value> {
    if o.Some? then Some(Bool(o.value)) else None
  }

  datatype CustomerUpdate = CustomerUpdate(
    name: Option<string>, phone: Option<string>, address: Option<string>, isMember: Option<bool>)

  datatype FruitUpdate = FruitUpdate(
    barCode: Option<string>, name: Option<string>, category: Option<string>, pricePerKg: Option<real>,
    stockKg: Option<int>, country: Option<string>, supplierId: Option<string>, isOrganic: Option<bool>)

  datatype SupplierUpdate = SupplierUpdate(
    name: Option<string>, phone: Option<string>, location: Option<string>,
    fruitsSupplied: Option<seq<string>>, active: Option<bool>)

  datatype OrderUpdate = OrderUpdate(status: Option<string>)

  /** `CustomerUpdateModel` has no `customerId`: the business identifier cannot be changed this way. */
  function CustomerFields(u: CustomerUpdate): Fields {
    [("name", OptStr(u.name)), ("phone", OptStr(u.phone)), ("address", OptStr(u.address)),
     ("isMember", OptBool(u.isMember))]
  }

  function FruitFields(u: FruitUpdate): Fields {
    [("barCode", OptStr(u.barCode)), ("name", OptStr(u.name)), ("category", OptStr(u.category)),
     ("pricePerKg", if u.pricePerKg.Some? then Some(Float(u.pricePerKg.value)) else None),
     ("stockKg", if u.stockKg.Some? then Some(Int(u.stockKg.value)) else None),
     ("country", OptStr(u.country)), ("supplierId", OptStr(u.supplierId)), ("isOrganic", OptBool(u.isOrganic))]
  }

  function SupplierFields(u: SupplierUpdate): Fields {
    [("name", OptStr(u.name)), ("phone", OptStr(u.phone)), ("location", OptStr(u.location)),
     ("fruitsSupplied",
        if u.fruitsSupplied.Some? then
          var fs := u.fruitsSupplied.value;
          Some(List(seq(|fs|, i requires 0 <= i < |fs| => Str(fs[i]))))
        else None),
     ("active", OptBool(u.active))]
  }

  function OrderFields(u: OrderUpdate): Fields {
    [("status", OptStr(u.status))]
  }

  /** `update_customer_api` up to the write: the given fields plus `updated_at = now`. */
  function CustomerUpdateDoc(u: CustomerUpdate, now: Value): Result<Entries> {
    BuildUpdate(CustomerFields(u), Some(now))
  }

  /** `update_supplier_api` up to the write: the given fields, no timestamp. */
  function SupplierUpdateDoc(u: SupplierUpdate): Result<Entries> {
    BuildUpdate(SupplierFields(u), None)
  }

  /** `update_order_api` up to the write: the status if given, plus `updated_at = now`. */
  function OrderUpdateDoc(u: OrderUpdate, now: Value): Result<Entries> {
    BuildUpdate(OrderFields(u), Some(now))
  }

  /**
    `update_fruit_api` up to the write: the given fields, no timestamp, and a
    given `supplierId` converted with `ObjectId()` (which can raise).
   */
  function FruitUpdateDoc(u: FruitUpdate): (r: Result<Entries>)
    ensures r.Err? && r.failure == NoUpdateData <==> BuildUpdate(FruitFields(u), None).Err?
    ensures r.Ok? ==> Keys(r.value) == Keys(NonNone(FruitFields(u)))
  {
    match BuildUpdate(FruitFields(u), None)
    case Err(f) => Err(f)
    case Ok(doc) =>
      if u.supplierId.Some? then
        assert HasKey(doc, "supplierId") by {
          NonNoneKeepsGiven(FruitFields(u));
          GivenIsNamed(FruitFields(u), 6);
        }
        match ParseObjectId(Str(u.supplierId.value))
        case None => Err(InvalidId(u.supplierId.value))
        case Some(h) => Ok(SetKey(doc, "supplierId", Oid(h)))
      else Ok(doc)
  }

  /** A given `supplierId` that parses is written as that ObjectId. */
  lemma FruitUpdateSupplierId(u: FruitUpdate)
    requires u.supplierId.Some? && ParseObjectId(Str(u.supplierId.value)).Some?
    ensures FruitUpdateDoc(u).Ok?
    ensures Lookup(FruitUpdateDoc(u).value, "supplierId") == Some(Oid(ParseObjectId(Str(u.supplierId.value)).value))
  {
    assert FruitFields(u)[6].1.Some?;
    var doc := BuildUpdate(FruitFields(u), None).value;
    SetKeyLookup(doc, "supplierId", Oid(ParseObjectId(Str(u.supplierId.value)).value), "supplierId");
  }

  /** Customer updates are refused exactly when no field is given, and stamp `updated_at` last otherwise. */
  lemma CustomerUpdateMeaning(u: CustomerUpdate, now: Value)
    ensures CustomerUpdateDoc(u, now).Err?
        <==> u.name.None? && u.phone.None? && u.address.None? && u.isMember.None?
    ensures CustomerUpdateDoc(u, now).Ok? ==>
        var doc := CustomerUpdateDoc(u, now).value;
        && doc[|doc| - 1] == ("updated_at", now)
        && Keys(doc[..|doc| - 1]) == GivenNames(CustomerFields(u))
  {
    var fields := CustomerFields(u);
    NonNoneKeepsGiven(fields);
    assert fields[0].1.None? <==> u.name.None?;
    assert fields[1].1.None? <==> u.phone.None?;
    assert fields[2].1.None? <==> u.address.None?;
    assert fields[3].1.None? <==> u.isMember.None?;
    assert (forall i :: 0 <= i < |fields| ==> fields[i].1.None?)
        <==> u.name.None? && u.phone.None? && u.address.None? && u.isMember.None?;
    if CustomerUpdateDoc(u, now).Ok? {
      var doc := CustomerUpdateDoc(u, now).value;
      assert doc[..|doc| - 1] == NonNone(fields);
    }
  }

  /** A supplier update is written without an `updated_at` stamp. */
  lemma SupplierUpdateHasNoStamp(u: SupplierUpdate)
    ensures SupplierUpdateDoc(u).Ok? ==> !HasKey(SupplierUpdateDoc(u).value, "updated_at")
  {
    var fields := SupplierFields(u);
    NonNoneKeepsGiven(fields);
    if SupplierUpdateDoc(u).Ok? {
      GivenNamesAmong(fields);
      assert forall i :: 0 <= i < |fields| ==> fields[i].0 != "updated_at";
    }
  }

  lemma {:induction false} GivenNamesAmong(fields: Fields)
    ensures forall n :: n in GivenNames(fields) ==> exists i :: 0 <= i < |fields| && fields[i].0 == n
  {
    if |fields| > 0 {
      GivenNamesAmong(fields[1..]);
      forall n | n in GivenNames(fields) ensures exists i :: 0 <= i < |fields| && fields[i].0 == n {
        if n in GivenNames(fields[1..]) {
          var i :| 0 <= i < |fields[1..]| && fields[1..][i].0 == n;
          assert fields[i + 1].0 == n;
        } else {
          assert fields[0].0 == n;
        }
      }
    }
  }
}
