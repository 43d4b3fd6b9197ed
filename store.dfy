/** The four JSON documents under `data/` and the request handlers that read
    and overwrite them. A document is a whole file: it is absent, holds text
    that does not parse, or holds an array of records. */
module Store {
  import opened Wrappers
  import opened Json
  import opened Http
  import opened Validation
  import opened Records
  import OrderId

  datatype Collection = Products | Orders | Contacts | Newsletter

  datatype Doc = Unparsable | Records(records: seq<Value>)

  const OrderPlaced := "Order placed successfully!"
  const OrderWriteFailed := "Failed to create order: Failed to write order data"
  const ContactSaved := "Contact form submitted successfully! We will get back to you soon."
  const ContactFailed := "Failed to save contact message"
  const AlreadySubscribed := "Email already subscribed to our newsletter"
  const Subscribed := "Successfully subscribed to our newsletter! Welcome to the Unforgettable Coffee family!"
  const SubscribeFailed := "Failed to subscribe to newsletter"
  const ProductNotFound := "Product not found"
  const ProductFailed := "Failed to fetch product"

  /** `readData` (server.js:105-117): an absent or unparsable file reads as
      an empty array. */
  function ReadData(docs: map<Collection, Doc>, c: Collection): (records: seq<Value>)
    ensures c in docs && docs[c].Records? ==> records == docs[c].records
    ensures (c !in docs || docs[c].Unparsable?) ==> records == []
  {
    if c in docs && docs[c].Records? then docs[c].records else []
  }

  /** The 201 answer to an order: the generated id, not the stored one. */
  function OrderCreated(orderId: string, order: Object): (r: Response)
    ensures r.status == 201 && Succeeded(r)
    ensures "orderId" in r.body && r.body["orderId"] == Str(orderId)
    ensures "data" in r.body && r.body["data"] == Obj(order)
  {
    Response(201, map["success" := Bool(true), "message" := Str(OrderPlaced),
                      "orderId" := Str(orderId), "data" := Obj(order)])
  }

  function ContactCreated(contact: Object): (r: Response)
    ensures r.status == 201 && Succeeded(r) && "data" in r.body && r.body["data"] == Obj(contact)
  {
    Response(201, map["success" := Bool(true), "message" := Str(ContactSaved), "data" := Obj(contact)])
  }

  function SubscriberCreated(): (r: Response)
    ensures r.status == 201 && Succeeded(r)
  {
    Response(201, map["success" := Bool(true), "message" := Str(Subscribed)])
  }

  /** The answer to `GET /api/products/:id` over the loaded products
      (server.js:431-454). */
  function ProductResponse(products: seq<Value>, id: Option<int>): (r: Response)
    ensures Scan(products, HasId(id)).Hit? ==>
      r.status == 200 && Succeeded(r) && "data" in r.body && r.body["data"] == products[Scan(products, HasId(id)).index]
    ensures Scan(products, HasId(id)).NoHit? ==> r == Failure(404, ProductNotFound)
    ensures Scan(products, HasId(id)).NullAt? ==> r == Failure(500, ProductFailed)
  {
    match Scan(products, HasId(id))
    case Hit(i) => Response(200, map["success" := Bool(true), "data" := products[i]])
    case NoHit => Failure(404, ProductNotFound)
    case NullAt(_) => Failure(500, ProductFailed)
  }

  /** The data directory. `docs` maps each collection to its file; a
      collection without an entry has no file. */
  class DataStore {
    var docs: map<Collection, Doc>
    /** Whether `NODE_ENV` is `development`. The error middleware reads it on
        every call; the model takes it as fixed for the store's lifetime. */
    const development: bool

    constructor (initial: map<Collection, Doc>, development: bool)
      ensures docs == initial && this.development == development
    {
      docs := initial;
      this.development := development;
    }

    function Read(c: Collection): seq<Value>
      reads this
    {
      ReadData(docs, c)
    }

    /** `writeData` (server.js:119-128): overwrites the whole file with
        `records` and reports success; `ok` is whether the file system
        accepted the write, and a failed write leaves the file as it was. */
    method WriteData(c: Collection, records: seq<Value>, ok: bool) returns (written: bool)
      modifies this
      ensures written == ok
      ensures docs == if ok then old(docs)[c := Records(records)] else old(docs)
    {
      if ok {
        docs := docs[c := Records(records)];
      }
      written := ok;
    }

    /** `GET /api/products/:id`; `id` is `parseInt(req.params.id)`, `None`
        when that is NaN. */
    method GetProduct(id: Option<int>) returns (response: Response)
      ensures response == ProductResponse(Read(Products), id)
    {
      var products := ReadData(docs, Products);
      response := ProductResponse(products, id);
    }

    /** `POST /api/orders` behind `validateOrder` (server.js:474-513). `now`
        and `random36` feed the id; `createdAt` and `updatedAt` are the two
        `toISOString()` readings; `writeOk` is the outcome of the write. */
    method PostOrder(body: Object, now: nat, random36: string, createdAt: string, updatedAt: string, writeOk: bool)
      returns (response: Response)
      modifies this
      ensures ValidateOrder(body).Reject? ==> response == ValidateOrder(body).response && docs == old(docs)
      ensures ValidateOrder(body).Throw? ==> response == UnhandledError(development) && docs == old(docs)
      ensures ValidateOrder(body).Pass? && !writeOk ==> response == Failure(500, OrderWriteFailed) && docs == old(docs)
      ensures ValidateOrder(body).Pass? && writeOk ==>
        var id := OrderId.Generate(now, random36);
        var order := OrderRecord(body, id, createdAt, updatedAt);
        response == OrderCreated(id, order) &&
        docs == old(docs)[Orders := Records(old(Read(Orders)) + [Obj(order)])]
    {
      var check := ValidateOrder(body);
      if check.Reject? {
        return check.response;
      } else if check.Throw? {
        return UnhandledError(development);
      }
      var orders := ReadData(docs, Orders);
      var orderId := OrderId.Generate(now, random36);
      var newOrder := OrderRecord(body, orderId, createdAt, updatedAt);
      orders := orders + [Obj(newOrder)];
      var written := WriteData(Orders, orders, writeOk);
      if written {
        response := OrderCreated(orderId, newOrder);
      } else {
        response := Failure(500, OrderWriteFailed);
      }
    }

    /** `POST /api/contact` behind `validateEmail` (server.js:516-549). */
    method PostContact(body: Object, now: nat, createdAt: string, ip: string, writeOk: bool)
      returns (response: Response)
      modifies this
      ensures ValidateEmail(body).Reject? ==> response == ValidateEmail(body).response && docs == old(docs)
      ensures ValidateEmail(body).Throw? ==> response == UnhandledError(development) && docs == old(docs)
      ensures ValidateEmail(body).Pass? && !writeOk ==> response == Failure(500, ContactFailed) && docs == old(docs)
      ensures ValidateEmail(body).Pass? && writeOk ==>
        var contact := ContactRecord(body, now, createdAt, ip);
        response == ContactCreated(contact) &&
        docs == old(docs)[Contacts := Records(old(Read(Contacts)) + [Obj(contact)])]
    {
      var check := ValidateEmail(body);
      if check.Reject? {
        return check.response;
      } else if check.Throw? {
        return UnhandledError(development);
      }
      var contacts := ReadData(docs, Contacts);
      var newContact := ContactRecord(body, now, createdAt, ip);
      contacts := contacts + [Obj(newContact)];
      var written := WriteData(Contacts, contacts, writeOk);
      if written {
        response := ContactCreated(newContact);
      } else {
        response := Failure(500, ContactFailed);
      }
    }

    /** `POST /api/newsletter` (server.js:552): `validateEmail`, then the
        route handler. */
    method PostNewsletter(body: Object, now: nat, subscribedAt: string, ip: string, writeOk: bool)
      returns (response: Response)
      modifies this
      ensures ValidateEmail(body).Reject? ==> response == ValidateEmail(body).response && docs == old(docs)
      ensures ValidateEmail(body).Throw? ==> response == UnhandledError(development) && docs == old(docs)
      ensures ValidateEmail(body).Pass? ==> NewsletterOutcome(old(docs), docs, body, now, subscribedAt, ip, writeOk, response)
      ensures UniqueEmails(old(Read(Newsletter))) ==> UniqueEmails(Read(Newsletter))
    {
      var check := ValidateEmail(body);
      if check.Reject? {
        return check.response;
      } else if check.Throw? {
        return UnhandledError(development);
      }
      response := Subscribe(body, now, subscribedAt, ip, writeOk);
    }

    /** What the newsletter handler does with a body whose `email` is present:
        409 when the duplicate scan hits, 500 when it meets a `null` element or
        the write fails (the list unchanged in all three cases), and otherwise
        201 with exactly one subscriber appended. */
    ghost predicate NewsletterOutcome(before: map<Collection, Doc>, after: map<Collection, Doc>, body: Object,
                                      now: nat, subscribedAt: string, ip: string, writeOk: bool, response: Response)
      requires "email" in body
    {
      var list := ReadData(before, Newsletter);
      var email := body["email"];
      var probe := Scan(list, HasEmail(email));
      var subscriber := SubscriberRecord(email, Get(body, "name"), now, subscribedAt, ip);
      (probe.Hit? ==> response == Failure(409, AlreadySubscribed) && after == before) &&
      (probe.NullAt? ==> response == Failure(500, SubscribeFailed) && after == before) &&
      (probe.NoHit? && !writeOk ==> response == Failure(500, SubscribeFailed) && after == before) &&
      (probe.NoHit? && writeOk ==>
         response == SubscriberCreated() &&
         after == before[Newsletter := Records(list + [Obj(subscriber)])])
    }

    /** The newsletter route handler (server.js:554-594), which runs only once
        `validateEmail` has let the body through. */
    method Subscribe(body: Object, now: nat, subscribedAt: string, ip: string, writeOk: bool)
      returns (response: Response)
      requires "email" in body
      modifies this
      ensures NewsletterOutcome(old(docs), docs, body, now, subscribedAt, ip, writeOk, response)
      ensures UniqueEmails(old(Read(Newsletter))) ==> UniqueEmails(Read(Newsletter))
    {
      var email := body["email"];
      var name := Get(body, "name");
      var newsletter := ReadData(docs, Newsletter);
      var probe := Scan(newsletter, HasEmail(email));
      if probe.NullAt? {
        return Failure(500, SubscribeFailed);
      }
      if probe.Hit? {
        return Failure(409, AlreadySubscribed);
      }
      var subscriber := SubscriberRecord(email, name, now, subscribedAt, ip);
      if UniqueEmails(newsletter) {
        AppendKeepsUnique(newsletter, email, subscriber);
      }
      newsletter := newsletter + [Obj(subscriber)];
      var written := WriteData(Newsletter, newsletter, writeOk);
      if written {
        response := SubscriberCreated();
      } else {
        response := Failure(500, SubscribeFailed);
      }
    }
  }
}
