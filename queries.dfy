/**
  The listing endpoints' filters and pagination: each endpoint builds a filter
  from its optional query parameters, the store returns the matching documents
  in stored order, skips `skip` of them and returns at most `limit`.
 */
module Queries {
  import opened Wrappers
  import opened Values
  import opened Records

  /** One condition of a filter document. */
  datatype Cond =
    | Eq(field: string, value: Value)     // {"field": value}
    | AtLeast(field: string, bound: int)  // {"field": {"$gte": bound}}

  predicate Holds(doc: Entries, c: Cond) {
    match c
    case Eq(f, v) => Lookup(doc, f) == Some(v)
    case AtLeast(f, b) =>
      match Lookup(doc, f)
      case Some(Int(n)) => n >= b
      case Some(Float(r)) => r >= b as real
      case _ => false
  }

  /** A document matches a filter when it satisfies every condition. */
  predicate Matches(doc: Entries, filter: seq<Cond>) {
    forall i :: 0 <= i < |filter| ==> Holds(doc, filter[i])
  }

  /** `get_customers`: `{"isMember": is_member}` when the parameter is given. */
  function CustomerFilter(isMember: Option<bool>): seq<Cond> {
    if isMember.Some? then [Eq("isMember", Bool(isMember.value))] else []
  }

  /** `get_fruits`: category when non-empty, organic flag when given, minimum stock when given. */
  function FruitFilter(category: Option<string>, isOrganic: Option<bool>, minStock: Option<int>): seq<Cond> {
    (if category.Some? && category.value != "" then [Eq("category", Str(category.value))] else [])
    + (if isOrganic.Some? then [Eq("isOrganic", Bool(isOrganic.value))] else [])
    + (if minStock.Some? then [AtLeast("stockKg", minStock.value)] else [])
  }

  /** `get_suppliers`: `{"active": True}` only when `active_only` is set. */
  function SupplierFilter(activeOnly: bool): seq<Cond> {
    if activeOnly then [Eq("active", Bool(true))] else []
  }

  /** `get_orders`: status and customer id, each when non-empty. */
  function OrderFilter(status: Option<string>, customerId: Option<string>): seq<Cond> {
    (if status.Some? && status.value != "" then [Eq("status", Str(status.value))] else [])
    + (if customerId.Some? && customerId.value != "" then [Eq("customerId", Str(customerId.value))] else [])
  }

  lemma CustomerFilterMeaning(c: Customer, isMember: Option<bool>)
    ensures Matches(CustomerDoc(c), CustomerFilter(isMember))
        <==> (isMember.Some? ==> c.isMember == isMember.value)
  {
    LookupAt(CustomerDoc(c), 5, "isMember");
    if isMember.Some? { MatchesOne(CustomerDoc(c), Eq("isMember", Bool(isMember.value))); }
  }

  lemma FruitFilterMeaning(f: Fruit, category: Option<string>, isOrganic: Option<bool>, minStock: Option<int>)
    ensures Matches(FruitDoc(f), FruitFilter(category, isOrganic, minStock))
        <==> && (category.Some? && category.value != "" ==> f.category == category.value)
             && (isOrganic.Some? ==> f.isOrganic == isOrganic.value)
             && (minStock.Some? ==> f.stockKg >= minStock.value)
  {
    var doc := FruitDoc(f);
    var a := if category.Some? && category.value != "" then [Eq("category", Str(category.value))] else [];
    var b := if isOrganic.Some? then [Eq("isOrganic", Bool(isOrganic.value))] else [];
    var c := if minStock.Some? then [AtLeast("stockKg", minStock.value)] else [];
    CategoryCond(f, category);
    OrganicCond(f, isOrganic);
    StockCond(f, minStock);
    MatchesConcat(doc, a, b);
    MatchesConcat(doc, a + b, c);
    assert FruitFilter(category, isOrganic, minStock) == a + b + c;
  }

  lemma CategoryCond(f: Fruit, category: Option<string>)
    ensures var a := if category.Some? && category.value != "" then [Eq("category", Str(category.value))] else [];
      Matches(FruitDoc(f), a) <==> (category.Some? && category.value != "" ==> f.category == category.value)
  {
    var a := if category.Some? && category.value != "" then [Eq("category", Str(category.value))] else [];
    LookupAt(FruitDoc(f), 3, "category");
    if a != [] { MatchesOne(FruitDoc(f), a[0]); }
  }

  lemma OrganicCond(f: Fruit, isOrganic: Option<bool>)
    ensures var b := if isOrganic.Some? then [Eq("isOrganic", Bool(isOrganic.value))] else [];
      Matches(FruitDoc(f), b) <==> (isOrganic.Some? ==> f.isOrganic == isOrganic.value)
  {
    var b := if isOrganic.Some? then [Eq("isOrganic", Bool(isOrganic.value))] else [];
    LookupAt(FruitDoc(f), 8, "isOrganic");
    if b != [] { MatchesOne(FruitDoc(f), b[0]); }
  }

  lemma StockCond(f: Fruit, minStock: Option<int>)
    ensures var c := if minStock.Some? then [AtLeast("stockKg", minStock.value)] else [];
      Matches(FruitDoc(f), c) <==> (minStock.Some? ==> f.stockKg >= minStock.value)
  {
    var c := if minStock.Some? then [AtLeast("stockKg", minStock.value)] else [];
    LookupAt(FruitDoc(f), 5, "stockKg");
    if c != [] { MatchesOne(FruitDoc(f), c[0]); }
  }

  lemma MatchesOne(doc: Entries, c: Cond)
    ensures Matches(doc, [c]) <==> Holds(doc, c)
  {
    assert [c][0] == c;
  }

  lemma SupplierFilterMeaning(s: Supplier, activeOnly: bool)
    ensures Matches(SupplierDoc(s), SupplierFilter(activeOnly)) <==> (activeOnly ==> s.active)
  {
    LookupAt(SupplierDoc(s), 5, "active");
    if activeOnly { MatchesOne(SupplierDoc(s), Eq("active", Bool(true))); }
  }

  lemma OrderFilterMeaning(doc: Entries, status: Option<string>, customerId: Option<string>)
    ensures Matches(doc, OrderFilter(status, customerId))
        <==> && (status.Some? && status.value != "" ==> Lookup(doc, "status") == Some(Str(status.value)))
             && (customerId.Some? && customerId.value != "" ==> Lookup(doc, "customerId") == Some(Str(customerId.value)))
  {
    var a := if status.Some? && status.value != "" then [Eq("status", Str(status.value))] else [];
    var b := if customerId.Some? && customerId.value != "" then [Eq("customerId", Str(customerId.value))] else [];
    if a != [] { MatchesOne(doc, a[0]); }
    if b != [] { MatchesOne(doc, b[0]); }
    MatchesConcat(doc, a, b);
    assert OrderFilter(status, customerId) == a + b;
  }

  lemma MatchesConcat(doc: Entries, a: seq<Cond>, b: seq<Cond>)
    ensures Matches(doc, a + b) <==> Matches(doc, a) && Matches(doc, b)
  {
    if Matches(doc, a) && Matches(doc, b) {
      forall i | 0 <= i < |a + b| ensures Holds(doc, (a + b)[i]) {
        if i >= |a| { assert (a + b)[i] == b[i - |a|]; }
      }
    }
    if Matches(doc, a + b) {
      forall i | 0 <= i < |a| ensures Holds(doc, a[i]) {
        assert (a + b)[i] == a[i];
      }
      forall i | 0 <= i < |b| ensures Holds(doc, b[i]) {
        assert (a + b)[|a| + i] == b[i];
      }
    }
  }

  // ---------------------------------------------------------------------
  // Pagination

  datatype Page = Page(skip: nat, limit: nat)

  const DefaultSkip := 0
  const DefaultLimit := 100
  const MaxLimit := 1000

  /** `skip: int = Query(0, ge=0)`, `limit: int = Query(100, ge=1, le=1000)`. */
  function CheckPage(skip: Option<int>, limit: Option<int>): (r: Result<Page>)
    ensures r.Ok? <==> skip.GetOr(DefaultSkip) >= 0 && 1 <= limit.GetOr(DefaultLimit) <= MaxLimit
    ensures r.Ok? ==> r.value.skip == skip.GetOr(DefaultSkip) && r.value.limit == limit.GetOr(DefaultLimit)
    ensures r.Err? ==> Status(r.failure) == 422
  {
    var s := skip.GetOr(DefaultSkip);
    var l := limit.GetOr(DefaultLimit);
    if s < 0 then Err(InvalidQuery("skip"))
    else if l < 1 || l > MaxLimit then Err(InvalidQuery("limit"))
    else Ok(Page(s, l))
  }

  /** `.skip(skip).limit(limit)` on the matching documents. */
  function Paginate<T>(s: seq<T>, p: Page): (r: seq<T>)
    ensures |r| <= p.limit
    ensures |r| == if p.skip >= |s| then 0 else if |s| - p.skip < p.limit then |s| - p.skip else p.limit
    ensures forall i :: 0 <= i < |r| ==> r[i] == s[p.skip + i]
  {
    if p.skip >= |s| then []
    else
      var rest := s[p.skip..];
      if |rest| < p.limit then rest else rest[..p.limit]
  }

  /** `has_more: skip + limit < total`. */
  predicate HasMore(p: Page, total: nat) {
    p.skip + p.limit < total
  }

  /** `has_more` is set exactly when matching documents remain after the page. */
  lemma HasMoreIffEntriesRemain<T>(s: seq<T>, p: Page)
    ensures HasMore(p, |s|) <==> p.skip + |Paginate(s, p)| < |s|
  {
  }

  /** The pagination block of a listing response. */
  datatype Listing<T> = Listing(data: T, skip: nat, limit: nat, total: nat, hasMore: bool)

  /** The documents a listing returns: those matching, in stored order, paged. */
  function Select(docs: seq<Entries>, filter: seq<Cond>): (r: seq<Entries>)
    ensures |r| <= |docs|
    ensures forall i :: 0 <= i < |r| ==> r[i] in docs && Matches(r[i], filter)
    ensures forall i :: 0 <= i < |docs| && Matches(docs[i], filter) ==> docs[i] in r
  {
    Filter(docs, (d: Entries) => Matches(d, filter))
  }

  /** A listing of stored documents keeps each matching document once, in stored order. */
  lemma SelectAppend(docs: seq<Entries>, more: seq<Entries>, filter: seq<Cond>)
    ensures Select(docs + more, filter) == Select(docs, filter) + Select(more, filter)
  {
    FilterAppend(docs, more, (d: Entries) => Matches(d, filter));
  }

  /** One document is listed exactly when it matches. */
  lemma SelectOne(doc: Entries, filter: seq<Cond>)
    ensures Select([doc], filter) == if Matches(doc, filter) then [doc] else []
  {
    FilterOne(doc, (d: Entries) => Matches(d, filter));
  }
}
