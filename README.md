# Unforgettable Coffee Shop server: request logic in Dafny

This project models the request logic of the coffee-shop storefront's Express server
(`server.js`), with the clock, the random number generator and the file system turned
into parameters. It covers:

- the two validation middlewares: `validateOrder`, with its three guards in order, and
  `validateEmail`, with its regular expression;
- the order-id generator;
- the data directory's four JSON documents, read by `readData` and overwritten whole by `writeData`;
- the handlers behind them: `POST /api/orders`, `POST /api/contact`,
  `POST /api/newsletter` and `GET /api/products/:id`.

Request bodies and stored records are JSON values (`Json.Value`). An object is a
`map<string, Value>`, so the object spread `{ a, ...body, b }` is the map merge
`map[a] + body + map[b]`, where later keys win. This keeps the order-record quirk: the
server's `status`, `createdAt` and `updatedAt` always win over the body's, but a body
`orderId` replaces the generated one in the stored record. The 201 response still reports
the generated id.

The JavaScript semantics the guards depend on are written out in `json.dfy`:
- truthiness;
- property access;
- `===`, under which arrays and objects never compare equal, because freshly parsed
  values are distinct references;
- `String(v)`, which `RegExp.prototype.test` applies to its argument;
- the number conversion behind `total <= 0`.

Both conversions can fail. JSON cannot make a `toString` key callable, so an object with an
own `toString` key, or an array holding one, cannot be converted to a primitive, and
JavaScript throws a TypeError. The middleware does not catch it: Express hands it to the
error middleware (server.js:598-605), which answers 500. The model keeps this path as
`Coerced.TypeError`, `Check.Throw` and `Http.UnhandledError`, and such an order, contact
or subscriber is never stored.

`Array.prototype.find` and `Array.prototype.some` are one scan, `Records.FirstMatch`.
Reading a property of a `null` element throws a TypeError. The handler's `catch`
turns that into a 500, and the model keeps that path (`Probe.NullAt`).

Modules: `Wrappers` (Option), `Decimal` (printing and reading integers), `Json`, `Http`
(responses), `EmailPattern`, `Validation`, `OrderId`, `Records` (stored records, the
scan, and the newsletter uniqueness invariant) and `Store`. `Store` holds the class
`DataStore`, whose field `docs` maps each collection to its file. A collection that is
not in the map has no file.

## Model

| member | source | states |
|---|---|---|
| `Validation.ValidateOrder` | server.js:136-161 | accepts iff items is a non-empty array, customerInfo is an object with truthy name and email, and total is truthy, converts to a number and is not `<= 0`; throws iff the first two guards pass and the total cannot be converted; otherwise 400 with the message of the first failing guard, in the order items, customer, total |
| `Validation.NumericTotal` | server.js:153-158 | for a numeric total the third guard passes exactly when the total is positive |
| `Validation.NegativeStringTotal` | server.js:153 | a string total `"-5"` is refused without a throw, because JavaScript's `"-5" <= 0` holds |
| `Validation.MinusFiveConverts` | server.js:153 | `Number("-5")` is -5 |
| `Validation.ObjectTotalThrows` | server.js:153 | an otherwise valid order whose total is an object with an own `toString` key makes the guard throw, so the error middleware (server.js:598-605) answers |
| `Validation.ScenarioOrderPasses` | server.js:136-161 | an order with one item, customer name and email, and a positive total passes all three guards |
| `Validation.ValidateEmail` | server.js:163-175 | accepts iff `email` is present, converts to a string and that string matches the pattern (truthiness adds nothing, since no falsy value's string matches); throws iff `email` is present and cannot be converted; for a string email, accepts iff the string matches; a rejection is 400 "Valid email address is required" |
| `Validation.ScalarNeverMatches` | server.js:165-167 | the string form of a number, boolean, `null` or object never matches the pattern |
| `Validation.ObjectEmailThrows` | server.js:167 | an email object with an own `toString` key, alone or inside an array, makes `emailRegex.test` throw, which the error middleware (server.js:598-605) answers |
| `Validation.EmailMustBeTextual` | server.js:165-167 | only a string or an array email can pass; numbers, booleans, null and objects are always refused |
| `Json.IsWhitespace` | server.js:165 | JavaScript's `\s` class, also what `Number` trims; no digit, sign, `@` or `.` is white space |
| `Json.Get` | server.js:137 | a destructured body field is defined iff the key is present, and is then the key's value |
| `Json.Prop` | server.js:146 | a property read (`customerInfo.name`, `p.id`, `sub.email`) is defined iff the value is an object with that key, and is then the key's value |
| `Json.StringToNumber` | server.js:153 | `Number(s)`: the trimmed text converts iff it is blank, or decimal digits with an optional sign; a negative result has a leading `-` |
| `Json.NumberOfString` | server.js:153 | `Number(String(n))` is `n` for every integer |
| `Decimal.FromInt` | server.js:165-167 | `String(n)` of an integer is a non-empty string of digits and `-` |
| `Json.Truthy` | server.js:139-167 | the falsy JSON values, as the guards of both validators test them, are exactly `null`, `false`, `0` and `""` |
| `Json.StrictEquals` | server.js:434 | `===` (here and in the duplicate check at server.js:560) holds only between equal values; between primitives it is exactly equality; an array or object is never `===` to anything |
| `Json.JoinAll` | server.js:167 | `join` over element conversions throws iff one of them throws; otherwise it is the join of the converted strings |
| `Json.ToStr` | server.js:165-167 | `String(v)`: primitives always convert, a string to itself; an object throws iff it has an own `toString` key; an array throws iff one of its non-null elements throws |
| `Json.ToNumber` | server.js:153 | the number conversion throws exactly when the string conversion does; a number converts to itself and a string by `Number(s)` |
| `Http.UnhandledError` | server.js:598-605 | the error middleware's answer: 500, `success: false`, "Internal server error", and "Something went wrong" outside development mode |
| `EmailPattern.MatchesIff` | server.js:165 | the pattern accepts a string iff it has no white space, exactly one `@` with a non-empty part before it, and after it a `.` with at least one character on each side |
| `EmailPattern.NoAtNoMatch` | server.js:165 | a string without `@` never matches |
| `EmailPattern.ExampleAddressMatches` | server.js:165 | `a@b.com` matches |
| `EmailPattern.ExampleAddressesRejected` | server.js:165 | `a@b` (no dot in the domain) and `a b@c.d` (white space) do not match |
| `OrderId.Substr` | server.js:132 | `substr(start, length)` yields at most `length` characters copied from `start`, and none when start is past the end |
| `OrderId.Suffix` | server.js:132 | the random part is at most nine characters copied from position 2 of the base-36 string on, exactly nine when that string has at least eleven |
| `OrderId.Generate` | server.js:131-133 | an order id starts with `UC-` and is longer than the prefix and separator |
| `OrderId.ParseGenerate` | server.js:131-133 | an id reads back as `UC-`, the decimal timestamp, `-` and the random suffix it was built from |
| `OrderId.GenerateInjective` | server.js:131-133 | ids from different timestamps or different suffixes differ |
| `Decimal.FromNat` | server.js:132 | the rendering of `Date.now()` is a non-empty string of decimal digits |
| `Decimal.ValueOfFromNat` | server.js:132 | reading back the printed timestamp gives the timestamp |
| `Records.OrderRecord` | server.js:481-487 | the stored order has the body's keys plus orderId, status, createdAt and updatedAt; status is `confirmed` and both timestamps are the server's, whatever the body says; orderId is the body's if it has one, otherwise the generated one; every other body field is kept |
| `Records.BodyOrderIdIsStored` | server.js:481-487 | a body orderId different from the generated id is stored in its place |
| `Records.ContactRecord` | server.js:521-526 | the stored contact has the body's keys plus id, createdAt and ip; createdAt and ip are the server's; id is the body's if present, otherwise the clock reading |
| `Records.SubscriberRecord` | server.js:567-573 | the stored subscriber has exactly id, email, name, subscribedAt and ip; name is the body's when truthy, otherwise `''` |
| `Records.FirstMatch` | server.js:434 | the scan stops at the first element that is the callback's hit or a null (which throws); every element before it is non-null and rejected; there is no hit iff every element is non-null and rejected |
| `Records.Scan` | server.js:560 | the scan from the start of the array, with the same outcome guarantees |
| `Records.HasId` | server.js:434 | `p => p.id === id` accepts exactly the objects whose `id` is the requested number, and nothing for a NaN id |
| `Records.HasEmail` | server.js:560 | `sub => sub.email === email` accepts only objects whose `email` equals a primitive email, and every such object |
| `Records.ProductLookup` | server.js:434-441 | a found product is an object whose `id` is the requested number; nothing is found iff every product is non-null and has a different id |
| `Records.NaNIdFindsNothing` | server.js:434 | a NaN id never finds a product |
| `Records.UniqueEmails` | server.js:560-575 | the newsletter invariant, no two subscribers with `===` emails; it holds for an empty or one-element list, and `Records.AppendKeepsUnique`, `Store.DataStore.Subscribe` and `Store.DataStore.PostNewsletter` prove that every subscription keeps it |
| `Records.UniqueStringEmails` | server.js:560 | under the invariant, two subscribers with string emails have different strings |
| `Records.ArrayEmailNotFound` | server.js:560 | a stored array email is not found again by the duplicate check, since `===` compares arrays by reference |
| `Records.HasEmailText` | server.js:560 | the duplicate check as intended, comparing `String(sub.email)` with the accepted text; it finds every record the `===` check finds for a string email |
| `Records.RepeatAddressHits` | server.js:560-565 | with the intended check, once an accepted email is appended, every repeat with the same string form hits the new record, so it gets 409 |
| `Records.ArrayRepeatFound` | server.js:560 | the intended check finds a stored `["a@b.com"]` again, and finds a stored `"a@b.com"` for a repeat `["a@b.com"]` |
| `Records.AppendKeepsUnique` | server.js:560-575 | appending a subscriber after the duplicate scan found nothing keeps the emails pairwise distinct under `===` |
| `Records.RepeatSubscriptionHits` | server.js:560-565 | after a string email is appended, the duplicate scan hits the new record, so a repeat subscription gets 409 |
| `Store.ReadData` | server.js:105-117 | an absent or unparsable file reads as the empty array; otherwise it reads as its stored records |
| `Store.OrderCreated` | server.js:497-502 | the 201 response reports success, the generated orderId and the stored record |
| `Store.ContactCreated` | server.js:534-538 | the 201 response reports success and the stored contact |
| `Store.SubscriberCreated` | server.js:581-584 | the 201 response reports success |
| `Store.ProductResponse` | server.js:431-454 | 200 with the first product whose id matches; 404 "Product not found" when none does; 500 when the scan meets a null element |
| `Store.DataStore.WriteData` | server.js:119-128 | the write reports the file system's outcome; on success the file holds exactly the given records, on failure nothing changes |
| `Store.DataStore.GetProduct` | server.js:431-454 | the response is the product lookup over the stored products; the store is unchanged |
| `Store.DataStore.PostOrder` | server.js:474-513 | a rejected order is answered by the validator and changes nothing; a throwing validator is answered by the error middleware's 500 and changes nothing; on a failed write the answer is 500 and nothing changes; otherwise the answer is 201 with the generated id, and the order list becomes the previous list with exactly the new record appended |
| `Store.DataStore.PostContact` | server.js:516-549 | an invalid email gets 400 and an unconvertible one the error middleware's 500, both changing nothing; otherwise the contact is appended (201), or a failed write gets 500 and changes nothing |
| `Store.DataStore.PostNewsletter` | server.js:552-595 | an invalid email gets 400 and an unconvertible one the error middleware's 500, both changing nothing; a valid one gets the route handler's outcome; email uniqueness of the stored list is preserved in every case |
| `Store.DataStore.Subscribe` | server.js:554-594 | an email already present (`===`) gets 409; a null element or a failed write gets 500, and all three leave the store unchanged; otherwise exactly one subscriber is appended to the newsletter list (201); email uniqueness of the stored list is preserved |

## Left out

- Express wiring, the static file middleware, CORS, the HTML pages, the health route, the listing routes, the `/api/*` 404 handler and the SPA fallback: routing and presentation with no request logic.
- Creating the data directory and seeding the four files at start-up (server.js:37-101): file-system set-up. The model's store starts from any given map of documents.
- `Date.now()`, `Math.random().toString(36)`, `new Date().toISOString()` and `req.ip`: all are parameters of the handlers.
- JSON text: parsing and `JSON.stringify` are not modelled. A document is either unparsable or an array of records. A file that parses to something other than an array is not modelled.
- Store.DataStore.WriteData: a failed `writeFileSync` is taken to leave the file untouched; a partial write that corrupts it is not modelled.
- Json.Value: JSON numbers are integers only, so fractional prices and totals (such as 18.99) are not modelled. A total is compared with 0 exactly as JavaScript would compare that integer.
- Json.Value: integers are unbounded. JavaScript numbers are doubles, so beyond 2^53 distinct integers can round to the same number. `p.id === parseInt(req.params.id)` (server.js:434) can then find a product whose stored id differs from the requested one, and `Records.HasId` would not.
- Http.UnhandledError: in development mode the message is V8's text for the one error the model lets reach the error middleware, "Cannot convert object to primitive value". Other errors are not modelled.
- Json.StringToNumber: only decimal integer literals with an optional sign and surrounding white space convert. Fractions, exponents, hexadecimal (`0x`), binary (`0b`) and octal (`0o`) literals and `Infinity` convert to NaN here, while JavaScript reads them. So a negative or zero total written in one of those notations is let through where JavaScript refuses it. This holds for a total given as a string (`"0b0"`, `"-0.5"`), and also for one given as an array whose string form is such a literal (`["-0.5"]`).
- Decimal.FromInt: integers of 10^21 or more are printed in full, while JavaScript switches to exponent notation.
- Json.Prop: only an object's own keys are properties. The own `length` of strings and arrays and the properties every value inherits from its prototype (`constructor`, `__proto__`) are not modelled. The keys the handlers read (`name`, `email`, `id`) are neither own nor inherited properties of strings, numbers, booleans or arrays.
- `parseInt(req.params.id)` is taken as already parsed: an `Option<int>`, `None` for NaN.
- Concurrent requests that race on read-modify-write of one document: the model is sequential.
- Logging (`console.log`, `console.error`, `console.warn`) and process lifecycle handlers: no effect on the logic.

## Findings

| source | as written | input that shows it | evidently intended | confidence | as-written member | corrected member |
|---|---|---|---|---|---|---|
| server.js:560 | the duplicate check compares with `===`. `validateEmail` lets an array email through, because its string form can match, and `===` never finds a stored array again. | `{"email": ["a@b.com"]}` subscribed twice gives two records and two 201s. `["a@b.com"]` is also accepted next to a stored `"a@b.com"`. | an address can be subscribed once: a repeat subscription is refused with 409 | not executed | `Records.ArrayEmailNotFound` | `Records.RepeatAddressHits` (with `Records.HasEmailText` and `Records.ArrayRepeatFound`): with the check comparing string forms, once any accepted email is stored, every repeat with the same string form, an array or a string, hits the stored record and is refused with 409 |

The handler `Store.DataStore.Subscribe` keeps the `===` check, so it models server.js:560 as written. The intended check and its lemmas stand beside it.
