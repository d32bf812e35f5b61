/**
 * Infinario: the tracking client. Its constructor normalises the target and
 * converts the customer argument; `identify`, `update` and `track` build the
 * JSON messages handed to the transport's `send_and_ignore`.
 */
module Client {
  import opened Wrappers
  import opened Values
  import opened Errors
  import Target

  /** What the client keeps between calls. */
  datatype Client = Client(token: string, customer: Json, target: string, hasLogger: bool)

  /** One message for `transport.send_and_ignore(service, message)`. */
  datatype Request = Request(service: string, message: Json)

  /** `_convert_customer_argument`: None, a string or a dict; anything else is refused. */
  function ConvertCustomer(customer: PyValue): (r: Result<Json, Error>)
    ensures r.Ok? <==> customer.PyNone? || customer.PyStr? || customer.PyDict?
    ensures customer.PyNone? ==> r == Ok(JObj(map[]))
    ensures customer.PyStr? ==> r == Ok(JObj(map["registered" := JStr(customer.s)]))
    ensures customer.PyDict? ==> r == Ok(JObj(customer.fields))
    ensures r.Err? ==> r.error == ValueError(InvalidCustomer)
  {
    match customer
    case PyNone => Ok(JObj(map[]))
    case PyStr(s) => Ok(JObj(map["registered" := JStr(s)]))
    case PyDict(fields) => Ok(JObj(fields))
    case _ => Err(ValueError(InvalidCustomer))
  }

  /**
   * `_convert_timestamp_argument`: a number (a bool is one in Python) is
   * kept as it is, an object with `timestamp()` gives what that returns,
   * anything else is refused with the value named in the error.
   */
  function ConvertTimestamp(timestamp: PyValue): (r: Result<Json, Error>)
    ensures timestamp.PyNone? ==> r == Ok(JNull)
    ensures timestamp.PyInt? ==> r == Ok(JInt(timestamp.i))
    ensures timestamp.PyFloat? ==> r == Ok(JReal(timestamp.f))
    ensures timestamp.PyBool? ==> r == Ok(JBool(timestamp.b))
    ensures timestamp.PyObject? && timestamp.timestamp.Some? ==> r == Ok(timestamp.timestamp.value)
    ensures r.Err? <==> timestamp.PyStr? || timestamp.PyDict? || timestamp == PyObject(None)
    ensures r.Err? ==> r.error == ValueError(CannotConvertTimestamp(timestamp))
  {
    match timestamp
    case PyNone => Ok(JNull)
    case PyBool(b) => Ok(JBool(b))
    case PyInt(i) => Ok(JInt(i))
    case PyFloat(f) => Ok(JReal(f))
    case PyObject(Some(v)) => Ok(v)
    case _ => Err(ValueError(CannotConvertTimestamp(timestamp)))
  }

  /**
   * `Infinario.__init__`: a logger exists exactly in silent mode; the target
   * is normalised before the customer is converted.
   */
  function Configure(token: string, customer: PyValue, target: Option<string>, silent: bool): (r: Result<Client, Error>)
    ensures r.Ok? <==> Target.Normalise(target, silent).Ok? && ConvertCustomer(customer).Ok?
    ensures r.Ok? ==> r.value == Client(token, ConvertCustomer(customer).value, Target.Normalise(target, silent).value, silent)
    ensures Target.Normalise(target, silent).Err? ==> r == Err(Target.Normalise(target, silent).error)
    ensures Target.Normalise(target, silent).Ok? && ConvertCustomer(customer).Err? ==> r == Err(ValueError(InvalidCustomer))
  {
    match Target.Normalise(target, silent)
    case Err(e) => Err(e)
    case Ok(t) =>
      match ConvertCustomer(customer)
      case Err(e) => Err(e)
      case Ok(ids) => Ok(Client(token, ids, t, silent))
  }

  /** `update`: the customer's ids, the project token and the properties as given. */
  function Update(c: Client, properties: Json): (req: Request)
    ensures req.service == "crm/customers" && req.message.JObj?
    ensures req.message.fields.Keys == {"ids", "project_id", "properties"}
    ensures req.message.fields["ids"] == c.customer && req.message.fields["project_id"] == JStr(c.token)
    ensures req.message.fields["properties"] == properties
  {
    Request("crm/customers", JObj(map["ids" := c.customer, "project_id" := JStr(c.token), "properties" := properties]))
  }

  /**
   * `track`: properties default to `{}` (None is JNull here); a `timestamp`
   * key is present exactly when a timestamp other than None is given, and a
   * timestamp that cannot be converted raises before anything is sent.
   */
  function Track(c: Client, eventType: string, properties: Json, timestamp: PyValue): (r: Result<Request, Error>)
    ensures r.Err? <==> timestamp != PyNone && ConvertTimestamp(timestamp).Err?
    ensures r.Err? ==> r.error == ValueError(CannotConvertTimestamp(timestamp))
    ensures r.Ok? ==> r.value.service == "crm/events" && r.value.message.JObj?
    ensures r.Ok? ==> (r.value.message.fields.Keys ==
              {"customer_ids", "project_id", "type", "properties"} + (if timestamp == PyNone then {} else {"timestamp"}))
    ensures r.Ok? ==> r.value.message.fields["customer_ids"] == c.customer &&
                      r.value.message.fields["project_id"] == JStr(c.token) &&
                      r.value.message.fields["type"] == JStr(eventType) &&
                      r.value.message.fields["properties"] == (if properties == JNull then JObj(map[]) else properties)
    ensures r.Ok? && timestamp != PyNone ==> r.value.message.fields["timestamp"] == ConvertTimestamp(timestamp).value
  {
    var data := map[
      "customer_ids" := c.customer,
      "project_id" := JStr(c.token),
      "type" := JStr(eventType),
      "properties" := if properties == JNull then JObj(map[]) else properties];
    if timestamp == PyNone then Ok(Request("crm/events", JObj(data)))
    else match ConvertTimestamp(timestamp)
      case Err(e) => Err(e)
      case Ok(ts) => Ok(Request("crm/events", JObj(data["timestamp" := ts])))
  }

  /**
   * `identify`: the customer is replaced only when it converts, and an
   * update is sent only when properties are given.
   */
  function Identify(c: Client, customer: PyValue, properties: Json): (r: Result<(Client, Option<Request>), Error>)
    ensures r.Err? <==> ConvertCustomer(customer).Err?
    ensures r.Err? ==> r.error == ValueError(InvalidCustomer)
    ensures r.Ok? ==> r.value.0 == c.(customer := ConvertCustomer(customer).value)
    ensures r.Ok? ==> (r.value.1.Some? <==> properties != JNull)
    ensures r.Ok? && properties != JNull ==> r.value.1 == Some(Update(r.value.0, properties))
  {
    match ConvertCustomer(customer)
    case Err(e) => Err(e)
    case Ok(ids) =>
      var c' := c.(customer := ids);
      Ok((c', if properties == JNull then None else Some(Update(c', properties))))
  }

  /** The client the library's synchronous-transport test builds: token "t", target "//nope". */
  lemma ScenarioConfigure()
    ensures Configure("t", PyNone, Some("//nope"), true) == Ok(Client("t", JObj(map[]), "https://nope/", true))
  {
    Target.NormaliseSchemeRelative();
  }

  /**
   * The four messages that test expects: track "e1" anonymously, identify
   * "joe" with properties, track "e2" without properties, update.
   */
  lemma ScenarioMessages()
    ensures var c := Client("t", JObj(map[]), "https://nope/", true);
            var joe := JObj(map["registered" := JStr("joe")]);
            var c' := c.(customer := joe);
            && Track(c, "e1", JObj(map["prop1" := JStr("val")]), PyNone) == Ok(Request("crm/events",
                 JObj(map["customer_ids" := JObj(map[]), "project_id" := JStr("t"),
                          "properties" := JObj(map["prop1" := JStr("val")]), "type" := JStr("e1")])))
            && Identify(c, PyStr("joe"), JObj(map["prop2" := JStr("val")])) == Ok((c', Some(Request("crm/customers",
                 JObj(map["ids" := joe, "project_id" := JStr("t"), "properties" := JObj(map["prop2" := JStr("val")])])))))
            && Track(c', "e2", JNull, PyNone) == Ok(Request("crm/events",
                 JObj(map["customer_ids" := joe, "project_id" := JStr("t"), "properties" := JObj(map[]), "type" := JStr("e2")])))
            && Update(c', JObj(map["prop3" := JStr("val")])) == Request("crm/customers",
                 JObj(map["ids" := joe, "project_id" := JStr("t"), "properties" := JObj(map["prop3" := JStr("val")])]))
  {
    var c := Client("t", JObj(map[]), "https://nope/", true);
    var joe := JObj(map["registered" := JStr("joe")]);
    var e1 := Track(c, "e1", JObj(map["prop1" := JStr("val")]), PyNone).value.message.fields;
    assert e1 == map["customer_ids" := JObj(map[]), "project_id" := JStr("t"),
                     "properties" := JObj(map["prop1" := JStr("val")]), "type" := JStr("e1")] by {
      assert e1.Keys == {"customer_ids", "project_id", "properties", "type"};
    }
    var e2 := Track(c.(customer := joe), "e2", JNull, PyNone).value.message.fields;
    assert e2 == map["customer_ids" := joe, "project_id" := JStr("t"), "properties" := JObj(map[]), "type" := JStr("e2")] by {
      assert e2.Keys == {"customer_ids", "project_id", "properties", "type"};
    }
  }

  /** The timestamp conversions the library's tests expect. */
  lemma TimestampScenarios()
    ensures ConvertTimestamp(PyInt(10)) == Ok(JInt(10))
    ensures ConvertTimestamp(PyFloat(10.1)) == Ok(JReal(10.1))
    ensures ConvertTimestamp(PyObject(Some(JInt(123)))) == Ok(JInt(123))
    ensures ConvertTimestamp(PyStr("a string")) == Err(ValueError(CannotConvertTimestamp(PyStr("a string"))))
  {
  }
}
