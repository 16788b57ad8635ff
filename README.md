# Fruit store: a verified model of the order workflow

The fruit store is a web application for a fruit retailer. It has four
document collections: customers, fruits, suppliers and orders. Two sets of
route handlers work on them: HTML form pages and a JSON REST interface. This
project models the parts of those handlers that hold logic, and proves what
they promise:

- **Serializing documents** (`serialize_doc`). ObjectIds become their hex
  text. Datetimes become `YYYY-MM-DD`. `$oid`/`$date` wrappers are unwrapped.
  Lists and dictionaries are rebuilt. Everything else passes through.
- **Creating orders**:
  - The REST handler finds the customer by its business `customerId`, then
    checks each item's fruit id and stock in turn. It sums price times
    quantity and inserts one document.
  - The web form looks up the fruit, then the customer. It does no stock
    check.
- **Editing and updating orders.** Both write `status` and `updated_at` to
  the first order with the given id.
- **The order views**:
  - The REST views (`get_orders`, `get_order`) add the customer's name and
    each item's fruit name and price.
  - The web list (`list_orders`) resolves customers through a four-step
    fallback chain. It shows only the dictionary items of a stored list.
  - The edit form (`edit_order_form`) lists the same items without their ids.
- **Listings.** These cover the filter documents, `skip`/`limit` paging and
  `has_more`, and the supplier name added to listed fruits.
- **Partial updates.** The REST update handlers drop the fields that were
  not given.
- **The supplier form's fruit list.** A comma-separated text is parsed into
  names, and a stored list is joined back with `", "`.

## How the model is built

- `Values.Value` stands for a stored or Python value:
  - null, text, integer, float (as a real), boolean;
  - ObjectId (as its hex text), datetime down to the microsecond;
  - list, and dictionary.
- A dictionary is an ordered sequence of entries. Lookup reads the first
  entry with the key, and `SetKey` rewrites that entry or appends a new one.
  This is Python's insertion-ordered `dict`.
- Customers, fruits and suppliers are typed records. Two fields keep whatever
  was stored, because the code relies on their type varying:
  - a customer's `customerId`;
  - a fruit's `supplierId`.
- Orders are raw documents, because every order view tolerates any shape.
- `find_one` is the first matching record (`Wrappers.FirstIndex`,
  `Wrappers.FindFirst`). `find(...).skip(s).limit(l)` is `Queries.Select`
  followed by `Queries.Paginate`.
- An exception that a handler turns into a 500 is `None` or `InternalError`
  in the model.
- The clock (`datetime.utcnow()`) is the parameter `now`. The id that
  `insert_one` assigns is the parameter `newId`.

The modules:

- `Handlers.Store` holds the four collections as sequences. Its methods are
  the handlers as written, with their loops:
  - the item loop of `create_order_api`, which accumulates;
  - the order and item loops of the views;
  - the supplier-name loop of `get_fruits`;
  - the writes of `create_order`, `create_order_api`, `edit_order` and
    `update_order_api`.

  Each method is proved equal to a function of the modules below, or to a
  new state given by such a function. The functions' properties are proved
  as lemmas.
- `Orders`, `ApiViews`, `WebViews`, `Catalog`, `Updates`, `Queries`,
  `Serializer` and `FruitList` hold those functions and lemmas.

Where the code and the system's documented design differ, the model follows
the code:

- **Read operations do not always degrade gracefully.** The REST order
  views answer 500 when one order or item cannot be viewed. Examples are a
  truthy `items` that is not a list, and an item that is not a dictionary.
  Only the web order list falls back to an empty page.
- **Re-serializing is a no-op only under a condition.** Every `$oid`
  payload must be text. A wrapper nested in a wrapper loses one level per
  pass (`Serializer.NestedOidNotIdempotent`).
- **A malformed identifier is not a client error.** `ObjectId(text)`
  raises, the generic handler catches it, and the answer is 500. It is not
  a 400 or 404 (`Records.Status` of `InvalidId`).
- **Stock is only compared, never decremented.** A web-form order skips the
  stock comparison entirely (`Orders.OnlyApiChecksStock`).

## Model

| member | source | states |
|---|---|---|
| Wrappers.FirstIndex | routes/api_routes.py:538 | `find_one` yields the first position whose record matches: it matches, none before it does, and nothing means no record matches |
| Wrappers.FindFirst | routes/api_routes.py:509 | the first matching element of a collection; none exactly when no element matches |
| Wrappers.AllSomeMeaning | routes/api_routes.py:492-516 | building a list element by element succeeds exactly when no element raises; then it has one result per element, in order |
| Wrappers.Filter | routes/api_routes.py:80 | `find(filter)` keeps only matching documents and every matching one; `FilterOne` and `FilterAppend` fix their order and number |
| Wrappers.FilterOne | routes/api_routes.py:80 | one document is kept exactly when it matches |
| Wrappers.FilterAppend | routes/api_routes.py:80-81 | filtering a concatenation filters each part, in order: every matching document appears once, where it is stored, so the count is the number of matching documents |
| Wrappers.FilterAgree | routes/api_routes.py:80 | two conditions that agree on every document select the same documents |
| Values.Lookup | routes/api_routes.py:497 | `d.get(k)` is present exactly when the key is, and is a value stored under it |
| Values.LookupIsFirst | routes/api_routes.py:497 | `d.get(k)` reads the first entry with key `k` |
| Values.SetKey | routes/api_routes.py:500 | `d[k] = v` keeps the key order, appending `k` when it is new |
| Values.SetKeyLookup | routes/api_routes.py:500 | after `d[k] = v`, `k` reads `v` and every other key reads what it read before |
| Values.Truthy | routes/api_routes.py:498-508 | Python's truth test: `None`, `False`, zero, empty text and empty containers are false, every other value is true |
| Values.Text | routes/web_routes.py:319 | `str()` of text is the text, and of an ObjectId its hex string |
| Values.PyInt | routes/web_routes.py:345 | `int()` keeps an integer and raises on None, ObjectIds, datetimes, lists and dictionaries |
| Values.IntTextParses | routes/web_routes.py:344-354 | `int(str(i)) == i` for every integer |
| Values.ParseObjectId | routes/api_routes.py:538 | `ObjectId(text)` succeeds exactly on 24 hex digits and yields the canonical lower-case id; an ObjectId is taken as is; anything else raises |
| Values.CanonicalOidParses | routes/web_routes.py:337 | the text of an ObjectId parses back to the same ObjectId |
| Serializer.Serialize | utils/helpers.py:4-41 | `serialize_doc`, branch by branch; what it yields is stated by `SerializeList`, `SerializeOidWrapper`, `SerializeDateWrapper`, `SerializeDict`, `PlainIsFixed` and `FixedIffPlain` |
| Serializer.DatePart | utils/helpers.py:15-21 | `split('T')[0]` is the longest prefix without `T`, ending just before the first `T` |
| Serializer.SerializeDoc | utils/helpers.py:4-41 | the recursive serializer as written returns what `Serialize` defines |
| Serializer.FieldAgreesWithTopLevel | utils/helpers.py:24-36 | each dictionary value is converted exactly as the same value at top level |
| Serializer.SerializeList | utils/helpers.py:8-9 | a list keeps its length and each element is serialized in place |
| Serializer.SerializeOidWrapper | utils/helpers.py:13-14 | a dictionary with `$oid` becomes that key's value, whatever else it holds |
| Serializer.SerializeDateWrapper | utils/helpers.py:15-21 | a `$date` wrapper becomes the date part of its payload's text |
| Serializer.SerializeDict | utils/helpers.py:24-36 | a plain dictionary keeps its keys in order and each value is serialized |
| Serializer.SerializeDictLookup | utils/helpers.py:24-36 | a key of a serialized plain dictionary reads the serialized value it read before, and absent keys stay absent |
| Serializer.SerializedKey | utils/helpers.py:24-36 | a plain dictionary stays a dictionary, and a key read as `x` reads as serialized `x` |
| Serializer.TimeOfDayDiscarded | utils/helpers.py:39-40 | the time of day of a datetime is dropped: two datetimes on one calendar day serialize alike |
| Serializer.PlainIsFixed | utils/helpers.py:41 | a value with no ObjectId, datetime or wrapper comes back unchanged |
| Serializer.SerializeIsPlain | utils/helpers.py:4-41 | when every `$oid` payload is text, the output holds no ObjectId, datetime or wrapper |
| Serializer.SerializeIdempotent | utils/helpers.py:4-41 | under the same condition, serializing twice equals serializing once |
| Serializer.FixedIffPlain | utils/helpers.py:4-41 | the serializer leaves a value unchanged exactly when the value is plain |
| Serializer.NestedOidNotIdempotent | utils/helpers.py:13-14 | without that condition a nested `$oid` wrapper loses one level per pass |
| Records.Status | routes/api_routes.py:622-628 | every refusal is answered with a 4xx or 5xx status |
| Records.CustomerWithId | routes/api_routes.py:581 | `find_one({"customerId": v})` finds a customer whose stored `customerId` equals `v`, and none exactly when no customer's does |
| Records.CustomerWithObjectId | routes/web_routes.py:337 | `find_one({"_id": ObjectId(...)})` finds a customer with that `_id`, and none exactly when no customer has it |
| Records.FruitWithId | routes/api_routes.py:509 | `find_one({"_id": v})` on fruits matches only the ObjectId equal to a fruit's `_id` |
| Records.SupplierWithId | routes/api_routes.py:221 | the same lookup for suppliers |
| Records.OrderIndex | routes/api_routes.py:538 | the first order whose `_id` is the ObjectId; none exactly when no order has it |
| Queries.CustomerFilterMeaning | routes/api_routes.py:75-77 | a customer matches the filter exactly when `is_member` is absent or equals its flag |
| Queries.FruitFilterMeaning | routes/api_routes.py:205-211 | a fruit matches exactly when it has a non-empty given category, the given organic flag, and at least the given stock |
| Queries.SupplierFilterMeaning | routes/api_routes.py:355-357 | a supplier matches exactly when `active_only` is unset or the supplier is active |
| Queries.OrderFilterMeaning | routes/api_routes.py:481-485 | an order matches exactly when its `status` and `customerId` equal the given non-empty texts |
| Queries.MatchesConcat | routes/api_routes.py:205-211 | the conditions of a filter document are conjunctive |
| Queries.CheckPage | routes/api_routes.py:68-69 | `skip` (default 0) must be at least 0 and `limit` (default 100) between 1 and 1000, or the request is refused with 422 |
| Queries.Paginate | routes/api_routes.py:80 | `.skip(s).limit(l)`: at most `l` documents, those from position `s` on, in order |
| Queries.HasMoreIffEntriesRemain | routes/api_routes.py:90 | `has_more` holds exactly when matching documents remain after the page |
| Queries.Select | routes/api_routes.py:80-81 | only matching documents, and every matching one |
| Queries.SelectAppend | routes/api_routes.py:80-81 | the listing of a concatenation is the listing of each part, in stored order: each matching document once |
| Queries.SelectOne | routes/api_routes.py:80-81 | a single document is listed exactly when it matches |
| Queries.CustomerFilter | routes/api_routes.py:75-77 | `{"isMember": is_member}` for a given flag, else empty; its meaning is `Queries.CustomerFilterMeaning` |
| Queries.FruitFilter | routes/api_routes.py:205-211 | the category when non-empty, the organic flag and the `$gte` stock bound when given; its meaning is `Queries.FruitFilterMeaning` |
| Queries.SupplierFilter | routes/api_routes.py:355-357 | `{"active": True}` only under `active_only`; its meaning is `Queries.SupplierFilterMeaning` |
| Queries.OrderFilter | routes/api_routes.py:481-485 | status and customer id, each when non-empty; its meaning is `Queries.OrderFilterMeaning` |
| Queries.HasMore | routes/api_routes.py:90 | `skip + limit < total`; `Queries.HasMoreIffEntriesRemain` states that this means documents remain after the page |
| Updates.NonNoneKeepsGiven | routes/api_routes.py:143 | dropping `None` keeps exactly the given fields, in declaration order, with their values; the result is empty exactly when nothing was given |
| Updates.BuildUpdate | routes/api_routes.py:143-147 | "No update data provided" exactly when no field was given; otherwise the given fields, then `updated_at` when the handler stamps one |
| Updates.CustomerUpdateMeaning | routes/api_routes.py:143-147 | a customer update is refused exactly when name, phone, address and membership are all absent; otherwise `updated_at` comes last, after the given fields |
| Updates.CustomerUpdateDoc | routes/api_routes.py:143-147 | the customer's `$set` document; stated by `Updates.CustomerUpdateMeaning` |
| Updates.SupplierUpdateDoc | routes/api_routes.py:421-423 | the supplier's `$set` document; stated by `Updates.SupplierUpdateHasNoStamp` and `Updates.BuildUpdate` |
| Updates.OrderUpdateDoc | routes/api_routes.py:634-638 | the order's `$set` document; stated by `Orders.UpdateOrderApi` and `Orders.UpdateMatchesEdit` |
| Updates.FruitUpdateDoc | routes/api_routes.py:294-299 | a fruit update is refused for no data exactly when no field was given; otherwise it writes the given fields with no timestamp |
| Updates.FruitUpdateSupplierId | routes/api_routes.py:298-299 | a given `supplierId` that parses is written as that ObjectId |
| Updates.SupplierUpdateHasNoStamp | routes/api_routes.py:422-424 | a supplier update carries no `updated_at` |
| Orders.ParseOrderRequest | models/order.py:9-12 | the request body as validated: customer id and items as sent, and `status` as sent or "Pending" when left out |
| Orders.DefaultStatusStored | models/order.py:12 | a REST order created without a `status` is stored with status "Pending" |
| Orders.OrderDocFields | routes/api_routes.py:606-612 | the inserted order reads back its id, date, customer id, items, total and status |
| Orders.CheckItem | routes/api_routes.py:590-596 | an item fails on an unparsable fruit id, on an unknown fruit, or on insufficient stock named with the fruit's name and stock; otherwise it yields the fruit with that `_id`, and its stock covers the quantity |
| Orders.StockBoundary | routes/api_routes.py:595-596 | the stock check refuses exactly the quantities above the stock; the stock itself is accepted |
| Orders.ResolveItems | routes/api_routes.py:589-604 | all items pass exactly when each passes its check; then there is one fruit per item, in order |
| Orders.FirstFailingItem | routes/api_routes.py:589-596 | the first failing item decides the error |
| Orders.AllItemsPass | routes/api_routes.py:589-604 | items that each pass resolve to exactly the fruits they were checked against |
| Orders.ItemsTotalAppend | routes/api_routes.py:598-599 | the running total of a concatenation is the sum of the parts' totals |
| Orders.ApiCreate | routes/api_routes.py:576-620 | an unknown customer gives 404 before any item is checked, and the first failing item gives its error; the order is created exactly when both checks pass, storing the reported total |
| Orders.ApiCreatedOrder | routes/api_routes.py:586-612 | an accepted order keeps the customer id and status verbatim and one item per requested item, in order, with the parsed ObjectId and quantity; the total is the summed line totals, or the integer 0 for no items |
| Orders.WebCreate | routes/web_routes.py:419-452 | an unparsable fruit id raises, an unknown fruit gives 404 before the customer is checked, and the order is created exactly when both exist |
| Orders.WebCreatedOrder | routes/web_routes.py:433-451 | an accepted web order holds the customer id, the status, exactly the one item and the line total |
| Orders.CheckOrdersDiffer | routes/web_routes.py:429-438 | with neither customer nor fruit on file, the REST call reports the customer and the web form the fruit |
| Orders.OnlyApiChecksStock | routes/api_routes.py:595-596 | a quantity above the stock is refused by the REST call and accepted by the web form |
| Orders.ApiAndWebAgree | routes/web_routes.py:440-451 | for one item within stock, both entry points store the same document and total |
| Orders.EditOrder | routes/web_routes.py:502-517 | an unparsable id raises; "Order not found" exactly when no order has the id; the collection keeps its size |
| Orders.EditChangesOnlyStatus | routes/web_routes.py:508-515 | an edit changes only the first order with the id: its status and `updated_at` take the new values, and every other field and every other order stays |
| Orders.ApplySet | routes/api_routes.py:640-643 | `$set` leaves every key not in the update as it was |
| Orders.UpdateOrderApi | routes/api_routes.py:630-647 | no status gives "No update data provided" before the id is parsed; an unparsable id raises; the collection keeps its size |
| Orders.UpdateMatchesEdit | routes/api_routes.py:634-643 | a REST update with a status writes exactly what the web edit writes |
| FruitList.StripLeft | routes/web_routes.py:245 | `lstrip()` is the suffix left after the leading whitespace, and starts with no whitespace |
| FruitList.StripRight | routes/web_routes.py:245 | `rstrip()` is the prefix left before the trailing whitespace, and ends with no whitespace |
| FruitList.Strip | routes/web_routes.py:245 | `strip()` leaves no whitespace at either end and only characters of the input |
| FruitList.StripIsTrimmedSlice | routes/web_routes.py:245 | `strip()` is a slice of the text with only whitespace, in Python's sense, before and after it |
| FruitList.Split | routes/web_routes.py:245 | `split(",")` gives at least one piece, and no piece holds a comma |
| FruitList.SplitJoinsBack | routes/web_routes.py:245 | the pieces joined with the separator give back the text |
| FruitList.ParseFruits | routes/web_routes.py:245 | the stripped non-blank pieces between commas, in order; stated by `ParsedNamesAreClean` and `ParseJoinRoundTrip` |
| FruitList.JoinFruits | routes/web_routes.py:263 | `", ".join(names)`; stated by `ParseJoinRoundTrip` |
| FruitList.ParsedNamesAreClean | routes/web_routes.py:245 | every parsed name is non-empty, has no surrounding whitespace and no comma |
| FruitList.ParseJoinRoundTrip | routes/web_routes.py:263 | parsing clean names joined with `", "` gives the names back |
| FruitList.ParseJoinParseIsParse | routes/web_routes.py:263-276 | re-submitting the edit form's joined list unchanged stores the same list |
| WebViews.ResolveCustomer | routes/web_routes.py:331-356 | the fallback chain yields a customer of the collection |
| WebViews.LookupIsStep | routes/web_routes.py:332-354 | each lookup of the chain finds the first customer matching at its step; a step whose conversion raises finds nothing |
| WebViews.DecidingStep | routes/web_routes.py:331-356 | some step supplies the answer and every earlier step found nothing; when nothing is found, all four steps ran |
| WebViews.ResolveCustomerMeaning | routes/web_routes.py:331-358 | a customer is found exactly when some customer matches at some step, and then it is the first match of the first step with one |
| WebViews.TextRefFourthStepRepeatsFirst | routes/web_routes.py:351-354 | for a text reference, the fourth lookup repeats the first |
| WebViews.IntTextFindsIntCustomer | routes/web_routes.py:342-348 | a text reference finds a customer whose `customerId` is stored as that integer |
| WebViews.IntFindsTextCustomer | routes/web_routes.py:350-356 | an integer reference finds a customer whose `customerId` is its decimal text |
| WebViews.ObjectIdTextFindsCustomer | routes/web_routes.py:334-339 | a reference holding a customer's `_id` text finds a customer |
| WebViews.CustomerName | routes/web_routes.py:328-364 | the name is "No Customer ID" for a falsy reference, the customer's name when the chain finds one, and "Unknown (ref)" otherwise |
| WebViews.DictItems | routes/web_routes.py:373-374 | only dictionary elements of the list are kept |
| WebViews.DictItemsAppend | routes/web_routes.py:373-374 | keeping the dictionaries of a concatenation keeps those of each part, in order |
| WebViews.DictItemsOfDicts | routes/web_routes.py:373-374 | a list of dictionaries keeps every element |
| WebViews.ListedItemOf | routes/web_routes.py:375-392 | quantity defaults to 0; "No Fruit ID" and an empty id for a falsy fruit id; otherwise the id's text, with the fruit's name or "Unknown Fruit" |
| WebViews.ListedItems | routes/web_routes.py:366-394 | only a stored list is read, one entry per dictionary element, in order |
| WebViews.OrderDateText | routes/web_routes.py:320 | "N/A" for a falsy `orderDate`, the date of a datetime, and a raise otherwise; stated through `WebViews.ListedOrderOf` |
| WebViews.ListedOrderOf | routes/web_routes.py:318-325 | a row fails exactly when `_id` is missing or `orderDate` is not a datetime; it carries the defaults "N/A", 0 and "Unknown", the customer name and the listed items |
| WebViews.ListOrders | routes/web_routes.py:304-408 | with every row buildable, one row per order in stored order; any failing row empties the page |
| WebViews.FormItemOf | routes/web_routes.py:477-491 | one edit-form item: the quantity (default 0) and the fruit's name; stated by `WebViews.FormItemsAgreeWithListing` |
| WebViews.FormItems | routes/web_routes.py:474-493 | only a stored list is read, one entry per dictionary element; stated by `WebViews.FormItemsAgreeWithListing` |
| WebViews.FormItemsAgreeWithListing | routes/web_routes.py:473-493 | the edit form lists the same items as the order list, without their ids |
| WebViews.FirstDocs | routes/web_routes.py:495-498 | `to_list(100)` then serialize: at most 100 documents, each serialized |
| WebViews.EditOrderForm | routes/web_routes.py:455-500 | an unparsable id raises; "Order not found" exactly when no order has the id; the form lists the first 100 customers and fruits |
| WebViews.EditFormAgreesWithListing | routes/web_routes.py:463-470 | the edit form is built exactly when the order's row in the web list is; it shows that row's fields and items, less the customer name and the items' ids |
| ApiViews.SetOn | routes/api_routes.py:500 | assigning a key works exactly on a dictionary; then the key reads the value and every other key is unchanged |
| ApiViews.ItemView | routes/api_routes.py:505-513 | a non-dictionary item raises; with no fruit found, the item is only serialized; otherwise `fruitName` and `fruitPrice` come from the fruit and every other key is unchanged |
| ApiViews.ApiCustomerName | routes/api_routes.py:497-500 | the name of a customer whose `customerId` equals the reference, or "Unknown" |
| ApiViews.ItemViews | routes/api_routes.py:503-512 | the views of an order's items, failing when one raises; stated by `ApiViews.OrderViewMeaning` |
| ApiViews.OrderView | routes/api_routes.py:494-514 | one order's view; stated by `ApiViews.OrderViewMeaning` |
| ApiViews.OrderViewMeaning | routes/api_routes.py:494-514 | a view exists exactly when `items` is falsy or a list whose items all have views; it adds `customerName` for a truthy reference and replaces a truthy `items` by the item views, one per stored item, in order, with every other key as serialized |
| ApiViews.OrderViews | routes/api_routes.py:492-516 | the views of a page of orders, failing when one raises; stated by `ApiViews.GetOrders` |
| ApiViews.GetOrders | routes/api_routes.py:471-532 | paging errors pass through; the listing fails with 500 exactly when an order on the page has no view; otherwise each view is in page order, with total and `has_more` |
| ApiViews.GetOrder | routes/api_routes.py:534-574 | an unparsable id gives 500 and no such order gives 404; otherwise the answer is the order's view, or 500 when it has none |
| Catalog.SupplierName | routes/api_routes.py:221-222 | the name of the supplier whose `_id` is the reference, or "Unknown" |
| Catalog.WithSupplierName | routes/api_routes.py:219-224 | `supplierName` is appended only for a truthy `supplierId`; every other field is unchanged |
| Catalog.FruitViewFields | routes/api_routes.py:218-228 | a listed fruit is a dictionary with its id as text, name, price and serialized supplier id, and `supplierName` exactly when `supplierId` is truthy |
| Catalog.MatchingCustomers | routes/api_routes.py:75-81 | the customers a listing pages and counts are the collection filtered on the record's `isMember` flag, in stored order, each once |
| Catalog.MatchingFruits | routes/api_routes.py:205-215 | the fruits a listing pages and counts are the collection filtered on category, organic flag and minimum stock, in stored order, each once |
| Catalog.MatchingSuppliers | routes/api_routes.py:355-361 | the suppliers a listing pages and counts are the collection filtered on `active` under `active_only`, in stored order, each once |
| Catalog.GetCustomers | routes/api_routes.py:66-97 | refused with 422 exactly on bad paging; otherwise the serialized page, the total of matches and `has_more` |
| Catalog.GetFruits | routes/api_routes.py:194-240 | refused with 422 exactly on bad paging or a negative `min_stock`; otherwise the page's fruit views, the total and `has_more` |
| Catalog.GetSuppliers | routes/api_routes.py:346-377 | refused with 422 exactly on bad paging; otherwise the serialized page, the total and `has_more` |
| Catalog.GetFruit | routes/api_routes.py:242-268 | an unparsable id gives 500 and no fruit with the id gives 404; otherwise the view of a fruit with that id |
| Handlers.Store.CreateOrderApi | routes/api_routes.py:576-620 | inserts exactly the order `Orders.ApiCreate` accepts and answers its total; on any refusal the collections are unchanged |
| Handlers.Store.ProcessItems | routes/api_routes.py:586-604 | the item loop ends with the first failing item's error, or with the stored items and total of `Orders.ApiCreate` |
| Handlers.AccumulatedStep | routes/api_routes.py:598-604 | one more passing item extends the running total and stored items consistently |
| Handlers.AccumulatedAll | routes/api_routes.py:589-604 | after all items passed, the accumulated items and sum are those of the whole request |
| Handlers.Store.CreateOrderWeb | routes/web_routes.py:419-453 | inserts exactly the document `Orders.WebCreate` accepts; on refusal nothing changes |
| Handlers.Store.EditOrder | routes/web_routes.py:502-518 | the collection becomes `Orders.EditOrder`'s result, or stays unchanged with its failure |
| Handlers.Store.UpdateOrder | routes/api_routes.py:630-658 | the collection becomes `Orders.UpdateOrderApi`'s result, or stays unchanged with its failure |
| Handlers.Store.ListOrders | routes/web_routes.py:309-399 | the order loop builds exactly the rows of `WebViews.ListOrders` |
| Handlers.Store.ListedRow | routes/web_routes.py:316-397 | one pass of the order loop builds `WebViews.ListedOrderOf` |
| Handlers.Store.FindCustomer | routes/web_routes.py:331-356 | the reassigning fallback statements yield `WebViews.ResolveCustomer` |
| Handlers.Store.ListedItems | routes/web_routes.py:366-394 | the item loop builds exactly `WebViews.ListedItems` |
| Handlers.Store.ListedItem | routes/web_routes.py:375-392 | one pass of the item loop builds `WebViews.ListedItemOf` |
| Handlers.Store.EditOrderForm | routes/web_routes.py:455-500 | the edit page's data is `WebViews.EditOrderForm` |
| Handlers.Store.FormItems | routes/web_routes.py:471-493 | the edit form's item loop builds `WebViews.FormItems` |
| Handlers.Store.GetOrders | routes/api_routes.py:471-532 | the order loop answers exactly `ApiViews.GetOrders` |
| Handlers.Store.OrderViews | routes/api_routes.py:492-516 | the order loop builds `ApiViews.OrderViews`, failing at the first order that raises |
| Handlers.Store.GetOrder | routes/api_routes.py:534-574 | the handler answers exactly `ApiViews.GetOrder` |
| Handlers.Store.OrderView | routes/api_routes.py:494-514 | the loop body for one order builds `ApiViews.OrderView` |
| Handlers.Store.ItemViews | routes/api_routes.py:503-514 | the item loop builds `ApiViews.ItemViews`, failing at the first item that raises |
| Handlers.Store.ItemView | routes/api_routes.py:505-513 | the loop body for one item builds `ApiViews.ItemView` |
| Handlers.Store.GetFruits | routes/api_routes.py:194-240 | the handler with its supplier-name loop answers exactly `Catalog.GetFruits` |
| Handlers.Store.NamedFruits | routes/api_routes.py:218-224 | the supplier-name loop gives each fruit of the page its `Catalog.WithSupplierName` document, in order |
| Handlers.Store.NamedFruit | routes/api_routes.py:219-224 | one pass of that loop builds `Catalog.WithSupplierName` |

## Left out

- HTTP, templates, redirects and the database driver are not modelled. A
  handler's outcome is a `Result`, and the template context is a datatype.
- Concurrency is not modelled. Each handler runs alone against the store, so
  the stock race between concurrent orders is not represented.
- The clock and ObjectId generation are parameters (`now`, `newId`).
- Floats are reals, so `price * quantity` and the running sum are exact.
  IEEE rounding is not modelled.
- `Values.Text`: `str()` of a float and of a list or dictionary
  approximates Python's repr. Text, integers, booleans, ObjectIds and
  naive datetimes, microseconds included, follow Python. Time zones are
  not modelled, since every stamp the handlers write is naive.
- `Values.PyInt`: `int()` of text does not accept the surrounding
  whitespace or the digit-group underscores that Python accepts.
- Records.CustomerWithId: Mongo's equality between an int and a float
  that are numerically equal is not modelled. Values match only when they
  are the same constructor.
- Handlers.Store.CreateOrderApi: the response's `order_id` is the given
  `newId` and is not returned again. The `"not found"` and
  `"Insufficient stock"` re-raise test is modelled by its outcome.
- The single-document create, read and delete handlers are not modelled.
  This includes creating customers, fruits and suppliers, and the delete
  endpoints. They hold no logic beyond one database call.
- The writes of `update_customer_api`, `update_fruit_api` and
  `update_supplier_api` are not modelled. The update documents they build
  are, and the sole `$set` write that is modelled is the order's.
- The web pages that only list or render are not modelled: dashboard
  statistics, `list_fruits`, `list_customers`, `list_suppliers`, and the
  create forms. The two supplier form handlers are modelled only through
  their fruit-list parse and join.
- Catalog.WithSupplierName: the `try/except` around the supplier lookup
  cannot raise in the model, because the lookup is total.
- `FastAPI` reports all invalid query parameters at once. The model
  reports the first.
