/** The two validation middlewares of server.js. Each lets the request
    through to the route handler (`next()`), answers it with a 400 error, or
    throws while converting a value, which Express passes to the error
    middleware. */
module Validation {
  import opened Wrappers
  import opened Json
  import opened Http
  import EmailPattern

  datatype Check = Pass | Reject(response: Response) | Throw

  const ItemsRequired := "Order must contain at least one item"
  const CustomerRequired := "Customer name and email are required"
  const TotalRequired := "Valid total amount is required"
  const EmailRequired := "Valid email address is required"

  /** `items` is a non-empty array. */
  predicate HasItems(body: Object) {
    "items" in body && body["items"].Arr? && |body["items"].elems| > 0
  }

  /** `customerInfo` is an object whose `name` and `email` are both truthy. */
  predicate HasCustomer(body: Object) {
    "customerInfo" in body && body["customerInfo"].Obj? &&
    var info := body["customerInfo"].fields;
    "name" in info && Truthy(info["name"]) && "email" in info && Truthy(info["email"])
  }

  /** `total` is present, truthy, converts to a number without throwing,
      and that number is not `<= 0` (NaN is not `<= 0`). */
  predicate HasTotal(body: Object) {
    "total" in body && Truthy(body["total"]) &&
    var x := ToNumber(body["total"]);
    x.Done? && !(x.value.Some? && x.value.value <= 0)
  }

  /** `total <= 0` throws: the total is an array or object whose string form throws. */
  predicate TotalThrows(body: Object) {
    "total" in body && ToStr(body["total"]).TypeError?
  }

  /** `validateOrder` (server.js:136-161): the three guards in order, the first
      one that fails deciding the response; the conversion in the third guard
      may throw. */
  function ValidateOrder(body: Object): (c: Check)
    ensures c.Pass? <==> HasItems(body) && HasCustomer(body) && HasTotal(body)
    ensures c.Throw? <==> HasItems(body) && HasCustomer(body) && TotalThrows(body)
    ensures !HasItems(body) ==> c == Reject(Failure(400, ItemsRequired))
    ensures HasItems(body) && !HasCustomer(body) ==> c == Reject(Failure(400, CustomerRequired))
    ensures HasItems(body) && HasCustomer(body) && !HasTotal(body) && !TotalThrows(body) ==>
      c == Reject(Failure(400, TotalRequired))
  {
    var items := Get(body, "items");
    var info := Get(body, "customerInfo");
    var total := Get(body, "total");
    if !TruthyField(items) || !items.value.Arr? || |items.value.elems| == 0 then
      Reject(Failure(400, ItemsRequired))
    else if !TruthyField(info) || !TruthyField(Prop(info.value, "name")) || !TruthyField(Prop(info.value, "email")) then
      Reject(Failure(400, CustomerRequired))
    else if !TruthyField(total) then
      Reject(Failure(400, TotalRequired))
    else
      match ToNumber(total.value)
      case TypeError => Throw
      case Done(x) => if x.Some? && x.value <= 0 then Reject(Failure(400, TotalRequired)) else Pass
  }

  /** For a numeric total the third guard is exactly "the total is positive". */
  lemma NumericTotal(body: Object, n: int)
    requires "total" in body && body["total"] == Num(n)
    ensures HasTotal(body) <==> n > 0
  {
  }

  /** A total object with an own `toString` key makes `total <= 0` throw:
      the order is answered by the error middleware and never stored. */
  lemma ObjectTotalThrows(item: Value, marker: Value)
    ensures ValidateOrder(map[
      "items" := Arr([item]),
      "customerInfo" := Obj(map["name" := Str("A"), "email" := Str("a@b.com")]),
      "total" := Obj(map["toString" := marker])]).Throw?
  {
  }

  /** `Number("-5")` is -5. */
  lemma MinusFiveConverts()
    ensures StringToNumber("-5") == Some(-5)
  {
    var t := "-5";
    assert TrimStart(t) == t && TrimEnd(t) == t;
    assert t[1..] == "5";
    assert Decimal.Value("5") == 5 by {
      assert "5"[..0] == "";
    }
  }

  /** A total given as a string holding a negative integer literal is refused,
      as JavaScript's `"-5" <= 0` is true. */
  lemma NegativeStringTotal(body: Object)
    requires "total" in body && body["total"] == Str("-5")
    ensures !HasTotal(body) && !TotalThrows(body)
  {
    MinusFiveConverts();
  }

  /** `validateEmail` (server.js:163-175): the body's `email`, converted to a
      string, must match the pattern; an absent or falsy email is refused, and
      a conversion that throws goes to the error middleware. */
  function ValidateEmail(body: Object): (c: Check)
    ensures c.Pass? <==> "email" in body && ToStr(body["email"]).Done? &&
                         EmailPattern.Matches(ToStr(body["email"]).value)
    ensures c.Throw? <==> "email" in body && ToStr(body["email"]).TypeError?
    ensures "email" in body && body["email"].Str? ==> (c.Pass? <==> EmailPattern.Matches(body["email"].s))
    ensures c.Reject? ==> c == Reject(Failure(400, EmailRequired))
  {
    var email := Get(body, "email");
    if !TruthyField(email) then
      Reject(Failure(400, EmailRequired))
    else
      match ToStr(email.value)
      case TypeError => Throw
      case Done(text) => if EmailPattern.Matches(text) then Pass else Reject(Failure(400, EmailRequired))
  }

  /** `String(v)` holds no `@` unless `v` is a string or an array. */
  lemma NoAtInScalarString(v: Value)
    requires !v.Str? && !v.Arr? && ToStr(v).Done?
    ensures forall k | 0 <= k < |ToStr(v).value| :: ToStr(v).value[k] != '@'
  {
  }

  /** A number, boolean, `null` or object whose string form exists never
      passes the pattern. */
  lemma ScalarNeverMatches(v: Value)
    ensures !v.Str? && !v.Arr? && ToStr(v).Done? ==> !EmailPattern.Matches(ToStr(v).value)
  {
    if !v.Str? && !v.Arr? && ToStr(v).Done? {
      NoAtInScalarString(v);
      EmailPattern.NoAtNoMatch(ToStr(v).value);
    }
  }

  /** Only a string or an array (which `String` joins with commas) can pass as
      an email: numbers, booleans, `null` and objects are always refused. */
  lemma EmailMustBeTextual(body: Object)
    requires ValidateEmail(body).Pass?
    ensures body["email"].Str? || body["email"].Arr?
  {
    ScalarNeverMatches(body["email"]);
  }

  /** An email object with an own `toString` key, alone or inside an array,
      makes `emailRegex.test(email)` throw. */
  lemma ObjectEmailThrows(marker: Value)
    ensures ValidateEmail(map["email" := Obj(map["toString" := marker])]).Throw?
    ensures ValidateEmail(map["email" := Arr([Str("x"), Obj(map["toString" := marker])])]).Throw?
  {
    var inner := Obj(map["toString" := marker]);
    var e := [Str("x"), inner];
    assert !e[1].Null? && ToStr(e[1]).TypeError?;
  }

  /** A typical order (one item, a customer with name and email, a positive total) passes. */
  lemma ScenarioOrderPasses(item: Value)
    ensures ValidateOrder(map[
      "items" := Arr([item]),
      "customerInfo" := Obj(map["name" := Str("A"), "email" := Str("a@b.com")]),
      "total" := Num(3798)]).Pass?
  {
  }
}
