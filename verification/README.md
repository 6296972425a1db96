# Order lifecycle of the food-delivery services, in Dafny

A functional model of how OrderService and PaymentService carry an order
through its life:

- how an order is stored, cached and read back;
- how a web request creates, cancels or deletes it;
- how the status messages from the other services are recorded on it;
- how PaymentService charges, reimburses and relays the card company's verdict.

MongoDB collections and the Redis caches are maps. The three Redis commands
the services use (`GET`, `SET ... EX`, `DEL`) run on an abstract clock.
Every HTTP reply is a parameter: a status code with a decoded JSON body, a
connect timeout, a connect error, or another transport failure. Outbound
requests and broker publications are appended to lists. The clock, the
uuid7 generator and the database's insert acknowledgement are parameters
too.

Documents are trees of `Value`s, the Python dictionaries pydantic dumps.
`to_mongo`, `from_mongo`, `dict_of` and `dict()` are modelled at that
level. Each typed model has a `Validate` that parses a document back, with
the model's defaults. The round trips between the two are proved.

Modules:

- `Common`: UUIDs and their 8-4-4-4-12 string form, and timestamps.
- `Documents`: values, `to_mongo`/`from_mongo` and field readers.
- `Enums`: order status, products, payment status.
- `Envelope`: the shared `MetadataSchema`.
- `Http`: requests, replies and answers.
- `KvCache`: Redis with expiry.
- `UrlCache`: `UrlServiceCache`.
- `OrderModels`: the order, its dumps and `dict_of`.
- `OrderRepository`: the cache-aside order repository and `read_all`.
- `OrderWorld`: the state an order handler sees.
- `OrderRequests`: `OrderApiLogic`.
- `OrderApi`: `OrdersServiceApi`.
- `OrderEvents`: `OrderResponseLogic` and the message gate.
- `PaymentModels`, `PaymentRepository` and `PaymentProcessor`: PaymentService.

The order repository carries an invariant, `OrderRepository.Valid`:

- every document is stored under its own `_id`;
- every cache entry, live or expired, decodes to the order stored under its key.

Every write preserves this invariant. While it holds, a read returns exactly
the stored order, whether or not the read is served from the cache.

The `cancel` doc comment (OrderService/src/business/request_handler.py:227)
says an order can be cancelled only "before a driver is available". The code
checks `== DESC` at line 235, so the model lets `cancel` succeed only from
`deliveryScheduled`.

## Model

| member | source | states |
|---|---|---|
| Documents.ToMongo | OrderService/src/repository/models.py:143-153 | `id` moves to `_id` as its string, every other key is kept, and nothing is renamed when `_id` is already present |
| Documents.FromMongo | OrderService/src/repository/models.py:131-141 | falsy input comes back unchanged; otherwise `_id` is removed and its value becomes `id`, every other key kept |
| Documents.FromToMongo | OrderService/src/repository/models.py:131-153 | `from_mongo(to_mongo(d))` is `d` with the id replaced by its string form |
| Common.ParseUuid | OrderService/src/business/response_handler.py:172 | Python's `UUID()` on a string: ParseUuidFieldAgrees shows it accepts every string pydantic accepts, as the same UUID; MisplacedHyphen shows it also accepts a hyphen where pydantic refuses one; UrnAndBracesAccepted shows it takes the `urn:uuid:` and braced forms; ParseUuidStr shows `str(UUID)` parses back |
| Common.ParseUuidStr | OrderService/src/repository/models.py:140-141 | the string a UUID is stored as parses back to the same UUID, both as a pydantic field and with `UUID()`, so the `_id` string validates to the original id |
| Common.ParseUuidField | OrderService/src/repository/models.py:180 | a string validates as a pydantic `UUID` field iff it is one of the four accepted forms, and then as the UUID its hex digits spell |
| Common.ParseUuidFieldAgrees | OrderService/src/business/response_handler.py:172 | every string pydantic accepts as a UUID, `UUID()` accepts as the same UUID |
| Common.MisplacedHyphen | OrderService/src/business/response_handler.py:172 | the converse fails: a hyphen after the first hex digit is accepted by `UUID()` and refused by pydantic |
| Common.UrnAndBracesAccepted | OrderService/src/business/response_handler.py:172 | `UUID()` accepts the `urn:uuid:` and braced forms of a UUID's string |
| Common.UuidStrInjective | OrderService/src/repository/mongo_repository.py:57 | distinct UUIDs are stored under distinct `_id` strings |
| Enums.ParseStatus | OrderService/src/repository/models.py:42-77 | a string validates as a status exactly when it is one status's wire value, and then as that status |
| Enums.StatusEnumeration | OrderService/src/repository/models.py:65-77 | there are exactly 13 statuses with 13 distinct wire strings, and a string is a valid status iff it is one of them |
| Enums.ParseStatusWire | OrderService/src/repository/models.py:65-77 | every status's wire string validates back to that status |
| Enums.PayStatusEnumeration | PaymentService/src/repository/models.py:64-75 | the payment status has exactly the four values `pending`, `reimbursed`, `paymentPaid` and `paymentFailed` |
| Enums.PayStatusAsOrderStatus | PaymentService/src/repository/models.py:72-75 | a payment status string is a valid order status exactly when it is not `pending`, and then names the same state |
| Envelope.DecodeValue | PaymentService/src/repository/models.py:55-59 | a UUID becomes its string and every other value passes unchanged |
| Envelope.ValidateMetadata | PaymentService/src/repository/models.py:41-59 | metadata validates iff all three fields are present and are strings once UUIDs are decoded, and it holds those strings |
| Envelope.ValidateMetadataDump | PaymentService/src/repository/models.py:41-59 | dumped metadata validates back to itself |
| Envelope.MetadataFor | OrderService/src/business/request_handler.py:137-139 | metadata built from UUIDs validates, and its id strings parse back to those UUIDs |
| Http.RefusalCode | OrderService/src/business/request_handler.py:152-155 | a refusal is 400 exactly when its body has a `detail` to read; otherwise the failed lookup makes it 500 |
| KvCache.GetAfterSet | OrderService/src/repository/mongo_repository.py:123 | a value set with a time to live reads back until it expires and not after, and no other key changes |
| KvCache.GetAfterDelete | OrderService/src/repository/mongo_repository.py:156 | a deleted key reads as absent and every other key reads as before |
| UrlCache.Get | OrderService/src/repository/url_cache.py:47-62 | a live, non-empty cached URL is returned with no registry read; when the cached URL is missing or empty, the registry URL is returned and cached for 86400 s; a service without a registry URL fails and nothing is cached |
| UrlCache.RepeatLookup | OrderService/src/repository/url_cache.py:56-62 | a non-empty URL fetched from the registry is served from the cache for the next 24 hours, whatever the registry then holds; an empty one is fetched from the registry again |
| OrderWorld.Resolve | OrderService/src/business/response_handler.py:77 | a URL lookup changes only the URL cache; a failed lookup changes nothing |
| OrderWorld.ResolveOther | OrderService/src/repository/url_cache.py:56-62 | looking one service up does not change what a lookup of another service returns |
| OrderModels.ValidateItem | OrderService/src/repository/models.py:96-104 | an item validates iff its product is a catalogue product and its quantity, when given, is a positive integer; a missing quantity is 1 |
| OrderModels.ValidateItemList | OrderService/src/repository/models.py:107-113 | a list validates iff every element does, element by element, in order |
| OrderModels.ValidateItems | OrderService/src/repository/models.py:113 | `items` validates only as a non-empty list of valid items |
| OrderModels.ItemsRoundTrip | OrderService/src/repository/models.py:96-113 | dumped items validate back to the same items |
| OrderModels.ValidateUpdate | OrderService/src/repository/models.py:158-165 | a history entry validates iff it has a valid status and a timestamp, and then holds exactly those; an entry without `when` is refused, where the source fills in the current time |
| OrderModels.HistoryRoundTrip | OrderService/src/repository/models.py:158-165 | a dumped history validates back to the same entries in the same order |
| OrderModels.Validate | OrderService/src/repository/models.py:168-193 | a validated order has the document's id, items, customer and creation time; a missing status is `created`; missing kitchen and delivery ids are none; a missing history is empty |
| OrderModels.WithFactoryDefaults | OrderService/src/repository/models.py:185-193 | the factories add a fresh id and the current time only where `id` or `created` is missing, and change no other key |
| OrderModels.ValidateModelDump | OrderService/src/repository/models.py:168-193 | `OrderModel(**o.model_dump())` is `o` |
| OrderModels.ValidateWithStringId | OrderService/src/repository/models.py:131-141 | a dump whose id is the string `from_mongo` hands back still validates to the same order |
| OrderModels.ValidateUpdated | OrderService/src/repository/models.py:168-193 | a document holding an order's dumped fields and its id string validates to the order, whatever other keys it has |
| OrderModels.NewOrder | OrderService/src/web/api/order_api_adapter.py:55 | an order built from the create payload has the fresh id, the current time, status `created`, no kitchen or delivery id and no history |
| OrderModels.DictOf | OrderService/src/repository/models.py:198-221 | the cache format `dict_of`: DictOfRule shows it is the per-key rule applied to the model dump, and CacheRoundTrip that it validates back to the order |
| OrderModels.DictOfRule | OrderService/src/repository/models.py:198-221 | `dict_of` has the dump's keys, and under each key it holds what the per-key rule makes of the dumped value |
| OrderModels.DictOfHistoryRule | OrderService/src/repository/models.py:210-212 | `dict_of` maps the history entry by entry to `{status, str(when)}`, keeping length and order |
| OrderModels.OptUuidRule | OrderService/src/repository/models.py:215-218 | an absent kitchen or delivery id becomes `None` and a present one becomes its string |
| OrderModels.ScalarRule | OrderService/src/repository/models.py:218 | an id or timestamp, being truthy, becomes its string |
| OrderModels.CacheRoundTrip | OrderService/src/repository/mongo_repository.py:122-125 | an order rebuilt from its cached `dict_of` form is the same order |
| OrderModels.ResponseOf | OrderService/src/web/api/order_api_adapter.py:74 | the response keeps every field of the order except its history |
| OrderModels.OrderFromResponse | OrderService/src/web/api/order_api_adapter.py:86-87 | an order rebuilt from its response is the order with an empty history |
| OrderRepository.Read | OrderService/src/repository/mongo_repository.py:105-125 | a live cache entry is returned with the repository unchanged; a miss returns what is stored; a stored order is then cached as `dict_of` for 1800 s; a miss in both changes nothing |
| OrderRepository.Update | OrderService/src/repository/mongo_repository.py:129-141 | true iff the id is stored; only then is the cache refreshed for 1800 s; a failed update changes nothing; no other document changes |
| OrderRepository.Create | OrderService/src/repository/mongo_repository.py:77-85 | the cache is never touched; a new id is inserted as its `to_mongo` document; an existing document is never overwritten |
| OrderRepository.Delete | OrderService/src/repository/mongo_repository.py:145-158 | true iff the id was stored; the document is gone either way; the cache key is evicted only when a document was deleted |
| OrderRepository.StoredAfterCreate | OrderService/src/repository/mongo_repository.py:83 | an inserted order's document reads back as the order |
| OrderRepository.StoredAfterMerge | OrderService/src/repository/mongo_repository.py:63-73 | after `$set` of an order's fields, its document reads back as the order, whatever the document held before |
| OrderRepository.ReadTransparent | OrderService/src/repository/mongo_repository.py:105-125 | while the repository is valid, a read returns exactly the stored order, cached or not |
| OrderRepository.ReadKeepsValid | OrderService/src/repository/mongo_repository.py:114-125 | a read keeps the repository valid |
| OrderRepository.UpdateKeepsValid | OrderService/src/repository/mongo_repository.py:129-141 | an update keeps the repository valid, and a successful one leaves the order stored as given |
| OrderRepository.CreateKeepsValid | OrderService/src/repository/mongo_repository.py:77-85 | a create keeps the repository valid, and an acknowledged insert leaves the order stored as given |
| OrderRepository.DeleteKeepsValid | OrderService/src/repository/mongo_repository.py:145-158 | a delete keeps the repository valid and leaves no order under the key |
| OrderRepository.StoredId | OrderService/src/repository/mongo_repository.py:51-59 | an order read from a key has that key as its id |
| OrderRepository.Insert | OrderService/src/repository/mongo_repository.py:98 | inserting into a newest-first list keeps it newest first and adds exactly that order |
| OrderRepository.SortNewestFirst | OrderService/src/repository/mongo_repository.py:98 | the sort yields the same orders newest first |
| OrderRepository.Collect | OrderService/src/repository/mongo_repository.py:98-99 | every key is read; the result exists iff every key reads as an order, and then it holds one order per key and only orders some key reads as |
| OrderRepository.ReadAll | OrderService/src/repository/mongo_repository.py:89-101 | `read_all` fails iff some document does not validate; otherwise it is newest first, has one entry per stored document, contains every stored order, and holds only orders some key reads as. It is every order exactly once only when no two keys hold the same order, which `Keyed` gives and `ReadAll` does not assume |
| OrderRequests.LogicDictIsDictOf | OrderService/src/business/request_handler.py:268-282 | `dict()` writes the same dictionary as `dict_of`, so `OrderModel(**self.dict())` is the order again |
| OrderRequests.PaymentRequestBody | OrderService/src/business/request_handler.py:137-140 | the payment request has exactly two keys: the order's dumped items, and metadata naming this service, the order and the customer |
| OrderRequests.PaymentAnswer | OrderService/src/business/request_handler.py:152-159 | only 202 succeeds; a refusal is 400 when it has a `detail`; a connect timeout or any other failure is 500 |
| OrderRequests.CallPaymentService | OrderService/src/business/request_handler.py:130-162 | the repository is never touched; a failed URL lookup is 500 and sends nothing; otherwise exactly one POST to the path is sent |
| OrderRequests.Create | OrderService/src/business/request_handler.py:202-220 | a failed payment leaves the repository unchanged; otherwise the order is inserted unchanged; success iff the payment succeeded and the insert was acknowledged; an unacknowledged insert is 400 and a duplicate key 500; the answer is the stored order's response |
| OrderRequests.Cancelled | OrderService/src/business/request_handler.py:240-242 | a cancelled order has status `orderCancelled`, its old history plus exactly one `orderCancelled` entry, and every other field unchanged |
| OrderRequests.Cancel | OrderService/src/business/request_handler.py:224-251 | the reimbursement goes out first; any status but `deliveryScheduled` is 400 with no write; otherwise the cancelled order is written, and 400 when the update finds no order |
| OrderRequests.Delete | OrderService/src/business/request_handler.py:255-264 | 404 iff no order was stored under the id |
| OrderRequests.CreateStoresOnlyPaid | OrderService/src/business/request_handler.py:210-220 | the repository changes only after a 202 from PaymentService, and a successful create leaves exactly the given order stored |
| OrderRequests.CancelOutcome | OrderService/src/business/request_handler.py:233-249 | a successful cancel stores the cancelled order with its history kept; a status refusal still sends the reimbursement and writes nothing |
| OrderApi.Find | OrderService/src/web/api/order_api_adapter.py:68-72 | 404 iff no order is stored; 500 iff the stored document does not validate; otherwise the read order |
| OrderApi.GetOrder | OrderService/src/web/api/order_api_adapter.py:61-74 | 404 iff no order is stored; otherwise the stored order's response; nothing is written or sent |
| OrderApi.GetOrderAsWritten | OrderService/src/web/api/order_api_adapter.py:61-74 | as written, 404 iff no order is stored, and the order is returned iff every id in its response is a version-4 UUID |
| OrderApi.GetOrderAsWrittenRejectsUuid7 | OrderService/src/web/api/order_api_adapter.py:74 | a stored order with a uuid7 id is 500 as written, and is returned by the corrected lookup |
| OrderApi.CreateOrder | OrderService/src/web/api/order_api_adapter.py:46-57 | the created order is the new order built from the payload, passed to `create` |
| OrderApi.CancelOrder | OrderService/src/web/api/order_api_adapter.py:78-89 | the lookup comes first, and a failed lookup answers before any reimbursement |
| OrderApi.DeleteOrder | OrderService/src/web/api/order_api_adapter.py:93-101 | the lookup comes first, and a failed lookup answers before any delete |
| OrderApi.ListOrders | OrderService/src/web/api/order_api_adapter.py:34-41 | the list is `read_all`: one order per stored document, every stored order appearing, newest first, and 500 when a document does not validate |
| OrderApi.UnknownOrderIsNotFound | OrderService/src/web/api/order_api_adapter.py:78-101 | an unknown id is 404 for both cancel and delete, with nothing sent, stored or deleted |
| OrderApi.CancelKeepsHistory | OrderService/src/web/api/order_api_adapter.py:78-89 | cancelling through the adapter keeps the stored history and adds one `orderCancelled` entry |
| OrderApi.CreateOrderAsWritten | OrderService/src/web/api/order_api_adapter.py:55-57 | as written, create always answers 500 and changes nothing |
| OrderApi.FailAfterLookupAsWritten | OrderService/src/web/api/order_api_adapter.py:78-101 | as written, cancel and delete fail after the lookup, with the lookup's code or 500, and change nothing but the cache |
| OrderApi.AdapterAsWrittenNeverActs | OrderService/src/web/api/order_api_adapter.py:46-101 | as written, the adapter never sends a request and never writes the collection |
| OrderApi.CancelOrderFromResponse | OrderService/src/web/api/order_api_adapter.py:86-89 | cancelling the order rebuilt from its response is cancelling the order with its history erased |
| OrderApi.CancelFromResponseLosesHistory | OrderService/src/web/api/order_api_adapter.py:86-89 | that cancel leaves only the single `orderCancelled` entry, so an order with history loses it |
| OrderEvents.Recorded | OrderService/src/business/response_handler.py:181-182 | the new status is set and exactly one entry with it is appended; every other field is kept |
| OrderEvents.UpdateOrderInDb | OrderService/src/business/response_handler.py:51-63 | it fails iff the order is not stored, and then nothing changes; otherwise the order is written |
| OrderEvents.Failure | OrderService/src/business/response_handler.py:191-198 | a connect timeout is logged as no connection; a refusal with `detail` as refused; anything else as a crash |
| OrderEvents.Assigned | OrderService/src/business/response_handler.py:106-108 | the reply yields a status and an id iff both fields are present and valid |
| OrderEvents.ValidateAddress | OrderService/src/business/models.py:79-90 | an address validates iff its four fields are strings |
| OrderEvents.DeliveryReady | OrderService/src/business/response_handler.py:121-155 | missing metadata or a failed KitchenService lookup crashes with nothing sent; otherwise exactly the cooking request is sent; a non-202 is that service's failure and a 202 without a valid status and kitchen id a crash, both writing nothing; a valid 202 writes the order with them recorded, and succeeds iff the order is stored |
| OrderEvents.SuccessfulPayment | OrderService/src/business/response_handler.py:67-117 | a failed CustomerService lookup crashes with nothing sent; otherwise the address request is sent; a non-200 is CustomerService's failure and missing metadata or an invalid address a crash, all writing nothing; otherwise the delivery request follows with that address |
| OrderEvents.RequestDelivery | OrderService/src/business/response_handler.py:92-110 | a failed DeliveryService lookup crashes with nothing sent; otherwise exactly the delivery request is sent; a non-202 is that service's failure and a 202 without a valid status and delivery id a crash, both writing nothing; a valid 202 writes the order with them recorded, and succeeds iff the order is stored |
| OrderEvents.ProcessResponse | OrderService/src/business/response_handler.py:159-198 | an unknown order is only logged and nothing is sent; a known order is recorded and stored first; then only `paymentPaid` goes to delivery and only `driverAvailable` to the kitchen; a failed first write stops there |
| OrderEvents.MessageStatus | OrderService/src/web/main.py:95 | the status is valid iff the message has one that validates |
| OrderEvents.MessageOrderId | OrderService/src/business/response_handler.py:172 | an order id is read iff dictionary metadata holds a string `order_id` that `UUID()` parses, and it is that UUID |
| OrderEvents.ProcessResponseMessage | OrderService/src/web/main.py:79-107 | a message is discarded untouched iff it lacks metadata or a valid status; one without a readable order id is logged as a crash with nothing changed; otherwise the handler runs exactly once; nothing escapes |
| OrderEvents.ProcessResponseMessageAsWritten | OrderService/src/web/main.py:89-107 | as written, a message escapes iff it has metadata and a valid status but no string `order_id` in dictionary metadata |
| OrderEvents.UnknownOrderIsOnlyLogged | OrderService/src/business/response_handler.py:176-179 | a message for an unstored order changes nothing and sends nothing |
| OrderEvents.PlainStatusIsRecordedOnce | OrderService/src/business/response_handler.py:181-189 | a status other than `paymentPaid` and `driverAvailable` is stored as exactly one more history entry, and nothing is sent |
| OrderEvents.ReplayRecordsTwice | OrderService/src/business/response_handler.py:181-183 | the same message processed twice appends two entries, with no deduplication |
| OrderEvents.PaidRecordsDelivery | OrderService/src/business/response_handler.py:67-117 | a `paymentPaid` for a stored order, with both lookups working, a valid address and a valid 202 from DeliveryService, is processed with two requests sent, and leaves `paymentPaid`, then DeliveryService's status with its delivery id, as two more entries |
| OrderEvents.PaidProcessedOnlyWhenDelivered | OrderService/src/business/response_handler.py:181-186 | a `paymentPaid` is processed only after a valid 202 from DeliveryService, and then leaves those two entries |
| OrderEvents.DriverAvailableRecordsKitchen | OrderService/src/business/response_handler.py:121-155 | a `driverAvailable` for a stored order, with KitchenService found and answering a valid 202, is processed with one request sent, and leaves `driverAvailable`, then KitchenService's status with its kitchen id, as two more entries |
| OrderEvents.PlainStatusFirst | OrderService/src/business/response_handler.py:176-183 | a known order is recorded and stored before any branching, and the repository stays valid |
| OrderEvents.PaymentCallbackPassesGate | OrderService/src/web/main.py:90-98 | a PaymentService response passes the gate iff its status is not `pending` |
| OrderEvents.MissingOrderIdEscapes | OrderService/src/business/response_handler.py:171-174 | the counterexample: metadata without `order_id` escapes the gate as written, and is logged when the read is inside the `try` |
| PaymentModels.UpdateDump | PaymentService/src/repository/models.py:114-125 | the update dump has metadata, transaction id, status and creation time, and never an id |
| PaymentModels.ModelDump | PaymentService/src/repository/models.py:130-135 | the model dump is the update dump plus the id |
| PaymentModels.Validate | PaymentService/src/repository/models.py:114-135 | a payment validates iff it has a UUID id, valid metadata and a UUID transaction id, with a valid status and time when given; a missing status is `pending` and a missing time is now |
| PaymentModels.NewPayment | PaymentService/src/business/payment_handler.py:153-155 | a new payment exists iff the order id is a UUID in one of the forms pydantic accepts, and is `pending`, created now, with the metadata and transaction id given |
| PaymentModels.DumpRoundTrip | PaymentService/src/repository/models.py:114-135 | a payment's dump validates back to the payment |
| PaymentModels.MongoRoundTrip | PaymentService/src/repository/models.py:93-109 | the stored document has the id string as `_id`, and `from_mongo` of it validates back to the payment |
| PaymentRepository.Read | PaymentService/src/repository/mongo_repository.py:47-55 | an absent key reads as missing; a found payment is what its document validates to |
| PaymentRepository.Create | PaymentService/src/repository/mongo_repository.py:35-43 | a new id is inserted under its string as its `to_mongo` document; an existing one is never overwritten |
| PaymentRepository.Update | PaymentService/src/repository/mongo_repository.py:59-69 | true iff the id is stored; only that document changes; the update fields are overwritten and every other field, the id included, is kept |
| PaymentRepository.ReadAfterCreate | PaymentService/src/repository/mongo_repository.py:35-55 | a created payment reads back as itself, and every other key reads as before |
| PaymentRepository.ReadAfterUpdate | PaymentService/src/repository/mongo_repository.py:59-69 | an updated payment reads back as itself |
| PaymentRepository.CreateKeepsKeyed | PaymentService/src/repository/mongo_repository.py:41 | every document stays stored under its own `_id` after a create |
| PaymentRepository.UpdateKeepsKeyedStore | PaymentService/src/repository/mongo_repository.py:65-67 | every document stays stored under its own `_id` after an update |
| PaymentProcessor.ValidateCard | PaymentService/src/web/api/models.py:114-138 | a card validates iff it is a dictionary whose nine fields are all strings |
| PaymentProcessor.CardRoundTrip | PaymentService/src/web/api/models.py:114-138 | a dumped card validates back to itself |
| PaymentProcessor.BillingFrom | PaymentService/src/business/payment_handler.py:148-149 | the billing payload is built iff the reply is a dictionary with a valid card and a positive amount that does not itself name `callback_url` or `caller_id`; it then carries the callback URL and the order id |
| PaymentProcessor.BillingAnswer | PaymentService/src/business/payment_handler.py:142-145 | only 201 goes on, with its body; a refusal with `detail` is 400; everything else is 500 |
| PaymentProcessor.CardAnswer | PaymentService/src/business/payment_handler.py:63-87 | 202 or a suppressed connect error succeeds with the fresh transaction id; any other status is 400; other failures are 500 |
| PaymentProcessor.BillAndCall | PaymentService/src/business/payment_handler.py:131-150 | the store is not touched; the billing request is the first sent; a billing failure stops there; success needs 201, a valid billing payload and the card company's success, and then the card request is the second sent |
| PaymentProcessor.ProcessPaymentRequest | PaymentService/src/business/payment_handler.py:115-172 | a billing or charge failure keeps its code; the store changes only on success, and then by inserting the new payment; success iff both calls succeeded, the order id is a UUID and the insert is not a duplicate |
| PaymentProcessor.ProcessReimbursementRequest | PaymentService/src/business/payment_handler.py:176-227 | the store is never written and nothing is published; the answer is the calls' answer |
| PaymentProcessor.ProcessResponse | PaymentService/src/business/payment_handler.py:231-274 | an unknown caller id is 404 and a bad document 500, both with nothing written or published; otherwise the status is overwritten, the response is published to the stored receiver, and the callback is returned |
| PaymentProcessor.ReadId | PaymentService/src/repository/mongo_repository.py:53-55 | a payment read under a key has that key as its id |
| PaymentProcessor.CallbackOverwritesStatus | PaymentService/src/business/payment_handler.py:252-261 | whatever the old status, the stored payment reads back with only its status changed, and the response goes to the stored receiver |
| PaymentProcessor.PaymentStoredPending | PaymentService/src/business/payment_handler.py:153-156 | a successful payment request needed a 201 and leaves a `pending` payment keyed by the order id, with the request's metadata and the transaction id |
| PaymentProcessor.RefusedBillingStoresNothing | PaymentService/src/business/payment_handler.py:142-145 | a billing reply other than 201 stops after that one request, stores nothing, and is 400 with a `detail` and 500 without |

## Left out

- Network, database, cache and broker I/O are maps, parameters and lists. Connection set-up and closing are not modelled, and neither is the RabbitMQ client's start and stop.
- Concurrency is not modelled. `asyncio.create_task` and the race between a cancel and an incoming event are out; each handler call is one atomic step.
- Real clocks and uuid7 are out. Time is a natural number of seconds, and its string form is its decimal digits, not the ISO datetime format. History timestamps are not claimed to increase.
- JSON text is not modelled. The cache holds the `dict_of` dictionary itself, and reply bodies are already-decoded values. A reply body that is not JSON counts as one without a `detail`.
- An order status or id that a downstream service answers with is validated before it is recorded. The source assigns the raw value to the model, and a value that does not validate then fails at the `dict_of` or `update` step. The model reports such a value as a crash without writing.
- `updated=None` on an order and a `service_urls` entry whose `url` is not a string are not modelled. Both are treated as documents that do not validate.
- Logging and log levels are not modelled. Only which `except` clause a failure reaches is kept, as an outcome.
- PaymentService's own `UrlServiceCache` is not part of this model. Its handlers take the CustomerService root URL as a parameter, `None` when the lookup raises.
- PaymentService's create does not check the insert acknowledgement: `process_payment_request` ignores the result.
- PaymentProcessor.BillingFrom: `amount` is a positive float in the source; the model accepts only positive integers.
- PaymentProcessor.ValidateCard: the contract names only the card number among the nine validated fields.
- OrderEvents.ValidateAddress: the contract says when an address validates, not which field values it then holds.
- OrderRepository.Read: `from_mongo` builds the order with its default factories, so a stored document without `created` reads with the current time. The model reads such a document as one that does not validate. Every document the services write has `created`.
- OrderModels.ValidateUpdate: a history entry's `when` has a `utcnow` default factory in the source, so an entry without it validates with the current time. The model refuses such an entry. Every entry the services write carries `when`, and a clock-stamped default would make the cached and stored readings of the same document differ.
- Common.ParseUuid: `UUID()` parses the hex digits with `int(hex, 16)`, which also takes surrounding whitespace, a sign, a `0x` prefix and underscores. The model accepts exactly 32 hex digits after the prefixes, braces and hyphens are removed.
- The FastAPI routes, health reporting, start-up, security and the operator scripts are not part of this model.

## Findings

| source | as written | input that shows it | evidently intended | confidence | as-written member | corrected member |
|---|---|---|---|---|---|---|
| OrderService/src/web/api/order_api_adapter.py:56 | `create_order`, `cancel_order` and `delete_order` build `OrderApiLogic` without its required `repository` argument. `delete_order` also omits `updated`. Each call raises `TypeError`, answered 500. | any create payload, or any id of a stored order for cancel and delete | the adapter passes its repository, and the logic object creates, cancels or deletes the order | not executed | OrderApi.AdapterAsWrittenNeverActs | OrderApi.CancelKeepsHistory |
| OrderService/src/web/api/order_api_adapter.py:87 | `cancel_order` rebuilds the order from its `OrderResponse`, which has no history. A successful cancel therefore stores a history holding only the `orderCancelled` entry. | a stored `deliveryScheduled` order with a non-empty history | the stored order is cancelled with its history kept and one entry appended | not executed | OrderApi.CancelFromResponseLosesHistory | OrderApi.CancelKeepsHistory |
| OrderService/src/web/api/order_api_adapter.py:74 | `get_order` returns the adapter's `OrderResponse`, whose id fields are `UUID4`, while orders get uuid7 ids. Validation of the response raises, answered 500. | any stored order created by the service, whose id has version 7 | the stored order's response is returned | not executed | OrderApi.GetOrderAsWrittenRejectsUuid7 | OrderApi.GetOrder |
| OrderService/src/business/response_handler.py:172 | the order id is read before the handler's `try`. For metadata without a string `order_id`, the `KeyError` or `TypeError` passes both handlers and escapes the gate. | `{"status": "paymentPaid", "metadata": {}}` | every message that passes the gate is handled and its failure logged | not executed | OrderEvents.MissingOrderIdEscapes | OrderEvents.ProcessResponseMessage |
