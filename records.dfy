/** The records the POST handlers store and the scans the handlers run over a
    loaded collection (`Array.prototype.find` and `Array.prototype.some`). */
module Records {
  import opened Wrappers
  import opened Json

  /** `{ orderId, ...body, status: 'confirmed', createdAt, updatedAt }`
      (server.js:481-487). Later keys win, so the server's status and
      timestamps replace any the body carries, while a body `orderId`
      replaces the generated one. The two timestamps are two clock readings. */
  function OrderRecord(body: Object, orderId: string, createdAt: string, updatedAt: string): (r: Object)
    ensures r.Keys == body.Keys + {"orderId", "status", "createdAt", "updatedAt"}
    ensures r["status"] == Str("confirmed")
    ensures r["createdAt"] == Str(createdAt) && r["updatedAt"] == Str(updatedAt)
    ensures r["orderId"] == if "orderId" in body then body["orderId"] else Str(orderId)
    ensures forall k | k in body && k != "status" && k != "createdAt" && k != "updatedAt" :: r[k] == body[k]
  {
    map["orderId" := Str(orderId)] + body +
    map["status" := Str("confirmed"), "createdAt" := Str(createdAt), "updatedAt" := Str(updatedAt)]
  }

  /** `{ id: Date.now(), ...body, createdAt, ip }` (server.js:521-526): a body
      `id` replaces the clock-derived one; `createdAt` and `ip` are the server's. */
  function ContactRecord(body: Object, now: nat, createdAt: string, ip: string): (r: Object)
    ensures r.Keys == body.Keys + {"id", "createdAt", "ip"}
    ensures r["createdAt"] == Str(createdAt) && r["ip"] == Str(ip)
    ensures r["id"] == if "id" in body then body["id"] else Num(now)
    ensures forall k | k in body && k != "createdAt" && k != "ip" :: r[k] == body[k]
  {
    map["id" := Num(now)] + body + map["createdAt" := Str(createdAt), "ip" := Str(ip)]
  }

  /** `{ id, email, name: name || '', subscribedAt, ip }` (server.js:567-573). */
  function SubscriberRecord(email: Value, name: Option<Value>, now: nat, subscribedAt: string, ip: string): (r: Object)
    ensures r.Keys == {"id", "email", "name", "subscribedAt", "ip"}
    ensures r["id"] == Num(now) && r["email"] == email
    ensures r["subscribedAt"] == Str(subscribedAt) && r["ip"] == Str(ip)
    ensures TruthyField(name) ==> Some(r["name"]) == name
    ensures !TruthyField(name) ==> r["name"] == Str("")
  {
    map["id" := Num(now), "email" := email,
        "name" := (if TruthyField(name) then name.value else Str("")),
        "subscribedAt" := Str(subscribedAt), "ip" := Str(ip)]
  }

  /** The outcome of running a callback that reads a property of each element,
      in order, until it returns true: the index of the first hit, no hit, or
      the index of a `null` element on which the property read threw. */
  datatype Probe = Hit(index: nat) | NoHit | NullAt(index: nat)

  /** Every element before `n` is a non-null value the callback rejects. */
  predicate Passed(list: seq<Value>, p: Value -> bool, n: int)
    requires n <= |list|
  {
    forall j | 0 <= j < n :: !list[j].Null? && !p(list[j])
  }

  /** The scan `find`/`some` perform, from position `from` on. */
  function FirstMatch(list: seq<Value>, p: Value -> bool, from: nat): (r: Probe)
    requires from <= |list|
    requires Passed(list, p, from)
    ensures r.Hit? ==> r.index < |list| && !list[r.index].Null? && p(list[r.index]) && Passed(list, p, r.index)
    ensures r.NullAt? ==> r.index < |list| && list[r.index].Null? && Passed(list, p, r.index)
    ensures r.NoHit? <==> Passed(list, p, |list|)
    decreases |list| - from
  {
    if from == |list| then NoHit
    else if list[from].Null? then NullAt(from)
    else if p(list[from]) then Hit(from)
    else FirstMatch(list, p, from + 1)
  }

  function Scan(list: seq<Value>, p: Value -> bool): (r: Probe)
    ensures r.Hit? ==> r.index < |list| && !list[r.index].Null? && p(list[r.index]) && Passed(list, p, r.index)
    ensures r.NullAt? ==> r.index < |list| && list[r.index].Null? && Passed(list, p, r.index)
    ensures r.NoHit? <==> Passed(list, p, |list|)
  {
    FirstMatch(list, p, 0)
  }

  /** `p => p.id === id`, with `None` for a NaN id (server.js:434): only an
      object whose `id` is that very number is accepted. */
  function HasId(id: Option<int>): (p: Value -> bool)
    ensures forall v: Value :: p(v) ==> id.Some? && v.Obj? && "id" in v.fields && v.fields["id"] == Num(id.value)
    ensures id.Some? ==> forall v: Value :: v.Obj? && "id" in v.fields && v.fields["id"] == Num(id.value) ==> p(v)
  {
    v => id.Some? && StrictEquals(Prop(v, "id"), Some(Num(id.value)))
  }

  /** `sub => sub.email === email` (server.js:560): only an object whose
      `email` is the same primitive is accepted, so an array or object email
      is never found again. */
  function HasEmail(email: Value): (p: Value -> bool)
    ensures forall v: Value :: p(v) ==> IsPrimitive(email) && v.Obj? && "email" in v.fields && v.fields["email"] == email
    ensures IsPrimitive(email) ==> forall v: Value :: v.Obj? && "email" in v.fields && v.fields["email"] == email ==> p(v)
  {
    v => StrictEquals(Prop(v, "email"), Some(email))
  }

  /** The product a lookup by id finds: the first in storage order whose id is
      identical to the requested one. */
  lemma ProductLookup(products: seq<Value>, id: int)
    ensures var r := Scan(products, HasId(Some(id)));
      (r.Hit? ==> products[r.index].Obj? && "id" in products[r.index].fields &&
                  products[r.index].fields["id"] == Num(id)) &&
      (r.NoHit? <==> forall j | 0 <= j < |products| :: !products[j].Null? && Prop(products[j], "id") != Some(Num(id)))
  {
  }

  /** A NaN id finds nothing, though a `null` element still makes the scan throw. */
  lemma NaNIdFindsNothing(products: seq<Value>)
    ensures !Scan(products, HasId(None)).Hit?
  {
  }

  /** Two records share an email when both carry a defined `email` and the two
      are identical under `===`. */
  predicate SameEmail(a: Value, b: Value) {
    Prop(a, "email").Some? && StrictEquals(Prop(a, "email"), Prop(b, "email"))
  }

  /** No two subscribers share an email (the newsletter invariant). */
  predicate UniqueEmails(list: seq<Value>)
    ensures |list| <= 1 ==> UniqueEmails(list)
  {
    forall i, j | 0 <= i < j < |list| :: !SameEmail(list[i], list[j])
  }

  /** Under the invariant, two subscribers with string emails have different
      strings: duplicates are told apart by exact, case-sensitive comparison. */
  lemma UniqueStringEmails(list: seq<Value>, i: nat, j: nat)
    requires UniqueEmails(list) && i < j < |list|
    requires list[i].Obj? && "email" in list[i].fields && list[i].fields["email"].Str?
    requires list[j].Obj? && "email" in list[j].fields && list[j].fields["email"].Str?
    ensures list[i].fields["email"].s != list[j].fields["email"].s
  {
    assert !SameEmail(list[i], list[j]);
  }

  /** `===` compares arrays by reference, so a stored array email is not found
      by the duplicate check, and the same array email can be subscribed twice. */
  lemma ArrayEmailNotFound(s: string, rest: Object)
    requires "email" in rest && rest["email"] == Arr([Str(s)])
    ensures Scan([Obj(rest)], HasEmail(Arr([Str(s)]))).NoHit?
  {
  }

  /** Appending a subscriber whose email the scan did not find keeps the
      emails unique. */
  lemma AppendKeepsUnique(list: seq<Value>, email: Value, rest: Object)
    requires UniqueEmails(list)
    requires Scan(list, HasEmail(email)).NoHit?
    requires "email" in rest && rest["email"] == email
    ensures UniqueEmails(list + [Obj(rest)])
  {
    var grown := list + [Obj(rest)];
    forall i, j | 0 <= i < j < |grown|
      ensures !SameEmail(grown[i], grown[j])
    {
      if j == |list| {
        assert grown[i] == list[i] && !HasEmail(email)(list[i]);
        assert Prop(grown[j], "email") == Some(email);
      } else {
        assert grown[i] == list[i] && grown[j] == list[j];
      }
    }
  }

  /** Once a string email has been appended after a scan that found it
      nowhere, the same scan hits the new record: a second subscription with
      the same email is refused with 409. */
  lemma RepeatSubscriptionHits(list: seq<Value>, s: string, rest: Object)
    requires Scan(list, HasEmail(Str(s))).NoHit?
    requires "email" in rest && rest["email"] == Str(s)
    ensures Scan(list + [Obj(rest)], HasEmail(Str(s))) == Hit(|list|)
  {
    var grown := list + [Obj(rest)];
    assert HasEmail(Str(s))(grown[|list|]);
    assert Passed(grown, HasEmail(Str(s)), |list|) by {
      forall j | 0 <= j < |list| ensures grown[j] == list[j] { }
    }
  }

  /** The duplicate check as evidently intended: `sub => String(sub.email) ===
      String(email)`, comparing the text `validateEmail` accepted rather than
      references. A record without an `email`, or whose email cannot be
      converted, is not a hit. It finds every record the as-written check
      finds for a string email. */
  function HasEmailText(text: string): (p: Value -> bool)
    ensures forall v: Value :: HasEmail(Str(text))(v) ==> p(v)
  {
    (v: Value) => v.Obj? && "email" in v.fields && ToStr(v.fields["email"]) == Done(text)
  }

  /** With the intended check, once an accepted email has been appended after
      a scan that found it nowhere, every repeat with the same string form (the
      same string, or the same address inside an array) hits the new record,
      so the repeat is refused with 409. */
  lemma RepeatAddressHits(list: seq<Value>, email: Value, rest: Object, repeat: Value)
    requires ToStr(email).Done? && ToStr(repeat) == ToStr(email)
    requires Scan(list, HasEmailText(ToStr(email).value)).NoHit?
    requires "email" in rest && rest["email"] == email
    ensures Scan(list + [Obj(rest)], HasEmailText(ToStr(repeat).value)) == Hit(|list|)
  {
    var p := HasEmailText(ToStr(repeat).value);
    var grown := list + [Obj(rest)];
    assert p(grown[|list|]);
    assert Passed(grown, p, |list|) by {
      forall j | 0 <= j < |list| ensures grown[j] == list[j] { }
    }
  }

  /** The array email that the as-written check never finds again
      (`ArrayEmailNotFound`) is found by the intended one, both when it was
      stored as an array and when the same address was stored as a string. */
  lemma ArrayRepeatFound(s: string)
    ensures Scan([Obj(map["email" := Arr([Str(s)])])], HasEmailText(s)) == Hit(0)
    ensures Scan([Obj(map["email" := Str(s)])], HasEmailText(ToStr(Arr([Str(s)])).value)) == Hit(0)
  {
    assert ToStr(Arr([Str(s)])) == Done(s) by {
      var parts := seq(1, i requires 0 <= i < 1 => if [Str(s)][i].Null? then Done("") else ToStr([Str(s)][i]));
      assert parts == [Done(s)];
    }
  }

  /** A body `orderId` is what the order list keeps, while the response
      reports the generated id: the two differ whenever the body's differs. */
  lemma BodyOrderIdIsStored(body: Object, generated: string, createdAt: string, updatedAt: string)
    requires "orderId" in body && body["orderId"] != Str(generated)
    ensures OrderRecord(body, generated, createdAt, updatedAt)["orderId"] == body["orderId"]
    ensures OrderRecord(body, generated, createdAt, updatedAt)["orderId"] != Str(generated)
  {
  }
}
