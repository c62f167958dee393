/**
 * `getCountOfUsers`: turning the status endpoint's reply into a count of the
 * people in the room. The request itself is left out; the input is what
 * `JSON.parse` made of the body, or `None` when the request, reading the body
 * or parsing it threw.
 */
module Status {
  import opened Wrappers
  import opened JsValues

  const DataKey := "data"
  const LengthKey := "length"

  /** The JavaScript `null` that `getCountOfUsers` returns on failure. */
  const Null := Defined(JNull)

  /**
   * The early-return test: nothing was parsed, the value is `null` or not of
   * type `object`, or its `data` is absent or falsy. A JSON array passes the
   * type test but has no `data`.
   */
  predicate Rejected(body: Option<Json>) {
    body.None? || !IsObject(Defined(body.value)) || !Truthy(Prop(body.value, DataKey))
  }

  /** The `data` field of a body that passed the early-return test. */
  function Data(body: Option<Json>): (d: Json)
    requires !Rejected(body)
    ensures Truthy(Defined(d)) && !d.JNull?
  {
    Prop(body.value, DataKey).json
  }

  /**
   * What `getCountOfUsers` resolves to: `null` on every failure, otherwise
   * whatever `obj.data.length` is. That is a number for an array or a
   * string, the object's own `length` field for an object, and `undefined`
   * for a number or `true`.
   */
  function CountOfUsers(body: Option<Json>): (r: JsValue)
    ensures Rejected(body) ==> r == Null
    ensures !Rejected(body) && Data(body).JArr? ==> r == Defined(JNum(|Data(body).elems| as real))
    ensures !Rejected(body) && Data(body).JStr? ==> r == Defined(JNum(|Data(body).s| as real))
    ensures !Rejected(body) && (Data(body).JNum? || Data(body).JBool?) ==> r == Undefined
    ensures !Rejected(body) && Data(body).JObj? ==>
              r == (if LengthKey in Data(body).fields then Defined(Data(body).fields[LengthKey]) else Undefined)
  {
    if Rejected(body) then Null
    else Prop(Data(body), LengthKey)
  }

  /**
   * The count the status endpoint is meant to report: the length of the
   * `data` array of an object body, and nothing for any other reply.
   */
  function UsersInRoom(body: Option<Json>): Option<nat> {
    if body.Some? && body.value.JObj? && DataKey in body.value.fields
       && body.value.fields[DataKey].JArr?
    then Some(|body.value.fields[DataKey].elems|)
    else None
  }

  /**
   * `getCountOfUsers` agrees with the intended count wherever there is one,
   * and fails on every reply that is not an object with a truthy `data`.
   * Where `data` is truthy but not an array it returns that value's
   * `length` instead of failing.
   */
  lemma CountAgreesWithUsersInRoom(body: Option<Json>)
    ensures UsersInRoom(body).Some? ==> CountOfUsers(body) == Defined(JNum(UsersInRoom(body).value as real))
    ensures UsersInRoom(body).None? ==>
              Rejected(body) || Data(body).JStr? || Data(body).JNum? || Data(body).JBool? || Data(body).JObj?
    ensures CountOfUsers(body) == Null <==>
              Rejected(body) || (Data(body).JObj? && Prop(Data(body), LengthKey) == Null)
  {
  }

  /** Typical replies: an empty list, two users, and malformed bodies. */
  lemma CountExamples()
    ensures CountOfUsers(Some(JObj(map[DataKey := JArr([])]))) == Defined(JNum(0.0))
    ensures CountOfUsers(Some(JObj(map[DataKey := JArr([JObj(map[]), JObj(map[])])]))) == Defined(JNum(2.0))
    ensures CountOfUsers(Some(JArr([JNum(1.0)]))) == Null
    ensures CountOfUsers(Some(JObj(map[]))) == Null
    ensures CountOfUsers(Some(JObj(map[DataKey := JNum(0.0)]))) == Null
    ensures CountOfUsers(Some(JStr("ok"))) == Null
    ensures CountOfUsers(None) == Null
    ensures CountOfUsers(Some(JObj(map[DataKey := JStr("abc")]))) == Defined(JNum(3.0))
    ensures CountOfUsers(Some(JObj(map[DataKey := JNum(5.0)]))) == Undefined
  {
  }
}
