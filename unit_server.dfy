/** The request handling of unit/server.go. The fetcher and the mapper are the
    server's two collaborators, each a function returning Go's (value, error)
    pair; the production wiring of unit/cmd/main.go plugs in the REST fetcher
    and the converter over `MapBirthYear`. */
module UnitServer {
  import opened Wrappers
  import Strconv
  import GoInt
  import opened Employee
  import opened Http
  import Remote

  type Fetcher = int -> Returned<RemoteEmployee>
  type Mapper = RemoteEmployee -> Returned<Employee>

  /** The only messages this server ever puts in an error payload. */
  predicate GenericMessage(m: string) {
    m == "something terrible happened" || m == "employee not found"
  }

  /** `EmployeeEndpoint`: a fetch error is a generic 500, a missing record a
      404, a mapping error a generic 500, and otherwise the mapper's employee
      is the 200 response. Error texts are logged, never returned. */
  function EmployeeEndpoint(fetch: Fetcher, mapper: Mapper, employeeID: int): (r: Response)
    ensures fetch(employeeID).err.Some? ==> r == SomethingTerrible
    ensures fetch(employeeID).err.None? && fetch(employeeID).value.None? ==> r == EmployeeNotFound
    ensures fetch(employeeID).err.None? && fetch(employeeID).value.Some? ==>
      var mapped := mapper(fetch(employeeID).value.value);
      && (mapped.err.Some? ==> r == SomethingTerrible)
      && (mapped.err.None? && mapped.value.Some? ==> r == Response(StatusOK, EmployeeJson(mapped.value.value)))
      && (mapped.err.None? && mapped.value.None? ==> r == Response(StatusOK, NullJson))
    ensures r.body.ErrorMessage? ==> GenericMessage(r.body.message)
    ensures r.status == StatusOK <==> !r.body.ErrorMessage?
  {
    var fetched := fetch(employeeID);
    if fetched.err.Some? then SomethingTerrible
    else if fetched.value.None? then EmployeeNotFound
    else
      var mapped := mapper(fetched.value.value);
      if mapped.err.Some? then SomethingTerrible
      else match mapped.value
        case Some(employee) => Response(StatusOK, EmployeeJson(employee))
        case None => Response(StatusOK, NullJson)
  }

  /** `getRequestID`: the path segment as an Atoi integer, or a 404. */
  function GetRequestID(pathID: string): (r: Result<int, Response>)
    ensures r.Success? <==> Strconv.Atoi(pathID).Success?
    ensures r.Success? ==> r.value == Strconv.Atoi(pathID).value && GoInt.InInt64(r.value)
    ensures r.Failure? ==> r.error == EmployeeNotFound
  {
    match Strconv.Atoi(pathID)
    case Success(id) => Success(id)
    case Failure(_) => Failure(EmployeeNotFound)
  }

  /** The `/employee/{id}` route: `getRequestID` decodes the segment and the
      endpoint handles the ID. */
  function ServeEmployee(fetch: Fetcher, mapper: Mapper, pathID: string): (r: Response)
    ensures Strconv.Atoi(pathID).Failure? ==> r == EmployeeNotFound
    ensures Strconv.Atoi(pathID).Success? ==> r == EmployeeEndpoint(fetch, mapper, Strconv.Atoi(pathID).value)
    ensures r.body.ErrorMessage? ==> GenericMessage(r.body.message)
  {
    match GetRequestID(pathID)
    case Failure(response) => response
    case Success(id) => EmployeeEndpoint(fetch, mapper, id)
  }

  /** When the fetch fails or finds nothing, the mapper plays no part. */
  lemma EndpointSkipsMapperWithoutRecord(fetch: Fetcher, m1: Mapper, m2: Mapper, employeeID: int)
    requires fetch(employeeID).err.Some? || fetch(employeeID).value.None?
    ensures EmployeeEndpoint(fetch, m1, employeeID) == EmployeeEndpoint(fetch, m2, employeeID)
  {
  }

  /** The fetcher is asked about the requested ID only. */
  lemma EndpointFetchesRequestedID(f1: Fetcher, f2: Fetcher, mapper: Mapper, employeeID: int)
    requires f1(employeeID) == f2(employeeID)
    ensures EmployeeEndpoint(f1, mapper, employeeID) == EmployeeEndpoint(f2, mapper, employeeID)
  {
  }

  /** The mapper is asked about the fetched record only. */
  lemma EndpointMapsFetchedRecord(fetch: Fetcher, m1: Mapper, m2: Mapper, employeeID: int)
    requires fetch(employeeID).value.Some? ==>
      m1(fetch(employeeID).value.value) == m2(fetch(employeeID).value.value)
    ensures EmployeeEndpoint(fetch, m1, employeeID) == EmployeeEndpoint(fetch, m2, employeeID)
  {
  }

  /** The fetcher the production server uses. */
  function ProductionFetcher(apiURL: string, client: string -> Remote.Reply, decode: Remote.Decoder): Fetcher {
    id => Remote.RestEmployeeFetcher(apiURL, client).FetchEmployee(decode, id)
  }

  /** The mapper the production server uses in `currentYear`. */
  function ProductionMapper(currentYear: GoInt.Int64): Mapper {
    e => FromResult(Convert(MapBirthYear, currentYear, e))
  }

  /** What the production endpoint answers: upstream, decoding and conversion
      errors all become the generic 500, a 200 without data the 404, and a 200
      whose age parses the converted employee, whose generation is that of the
      birth year `currentYear - age` computed in 64-bit `int`. */
  predicate ProductionOutcome(apiURL: string, client: string -> Remote.Reply, decode: Remote.Decoder,
                              currentYear: GoInt.Int64, employeeID: int, r: Response)
  {
    var reply := client(Remote.EmployeeURL(apiURL, employeeID));
    && (reply.TransportFailure? ==> r == SomethingTerrible)
    && (reply.Received? && reply.statusCode != StatusOK ==> r == SomethingTerrible)
    && (reply.Received? && reply.statusCode == StatusOK ==>
      var decoded := decode(reply.body);
      && (decoded.Failure? ==> r == SomethingTerrible)
      && (decoded.Success? && decoded.value.data.None? ==> r == EmployeeNotFound)
      && (decoded.Success? && decoded.value.data.Some? ==>
        var d := decoded.value.data.value;
        var age := Strconv.Atoi(d.employeeAge);
        && (age.Failure? ==> r == SomethingTerrible)
        && (age.Success? ==>
             r == Response(StatusOK, EmployeeJson(Employee(d.id, d.employeeName, age.value,
                                                           MapBirthYear(GoInt.Sub64(currentYear, age.value))))))))
  }

  /** The production mapper on a record with data: Atoi's error text, or the
      employee with the generation of its 64-bit birth year. */
  lemma ProductionMapperOnData(currentYear: GoInt.Int64, e: RemoteEmployee)
    requires e.data.Some?
    ensures var d := e.data.value;
      var age := Strconv.Atoi(d.employeeAge);
      && (age.Failure? ==> ProductionMapper(currentYear)(e) == Returned(None, Some(age.error.Error())))
      && (age.Success? ==>
            ProductionMapper(currentYear)(e) ==
            Returned(Some(Employee(d.id, d.employeeName, age.value, MapBirthYear(GoInt.Sub64(currentYear, age.value)))), None))
  {
  }

  /** The endpoint over the REST fetcher and the converter when the upstream's
      200 decodes to a record with data. */
  lemma ProductionOnData(apiURL: string, client: string -> Remote.Reply, decode: Remote.Decoder,
                         currentYear: GoInt.Int64, employeeID: int)
    requires client(Remote.EmployeeURL(apiURL, employeeID)).Received?
    requires client(Remote.EmployeeURL(apiURL, employeeID)).statusCode == StatusOK
    requires decode(client(Remote.EmployeeURL(apiURL, employeeID)).body).Success?
    requires decode(client(Remote.EmployeeURL(apiURL, employeeID)).body).value.data.Some?
    ensures ProductionOutcome(apiURL, client, decode, currentYear, employeeID,
                              EmployeeEndpoint(ProductionFetcher(apiURL, client, decode), ProductionMapper(currentYear), employeeID))
  {
    var e := decode(client(Remote.EmployeeURL(apiURL, employeeID)).body).value;
    assert ProductionFetcher(apiURL, client, decode)(employeeID) == Returned(Some(e), None) by {
      assert Remote.RestEmployeeFetcher(apiURL, client).Get(employeeID) == client(Remote.EmployeeURL(apiURL, employeeID));
    }
    ProductionMapperOnData(currentYear, e);
  }

  /** The endpoint over the REST fetcher and the converter, case by case. */
  lemma ProductionCases(apiURL: string, client: string -> Remote.Reply, decode: Remote.Decoder,
                        currentYear: GoInt.Int64, employeeID: int)
    ensures ProductionOutcome(apiURL, client, decode, currentYear, employeeID,
                              EmployeeEndpoint(ProductionFetcher(apiURL, client, decode), ProductionMapper(currentYear), employeeID))
  {
    var reply := client(Remote.EmployeeURL(apiURL, employeeID));
    if reply.Received? && reply.statusCode == StatusOK && decode(reply.body).Success?
       && decode(reply.body).value.data.Some? {
      ProductionOnData(apiURL, client, decode, currentYear, employeeID);
    } else {
      var fetched := ProductionFetcher(apiURL, client, decode)(employeeID);
      assert Remote.RestEmployeeFetcher(apiURL, client).Get(employeeID) == reply;
      assert fetched.value.None?;
    }
  }

  /** The endpoint as the production server wires it: the REST fetcher and the
      converter over `MapBirthYear`. */
  function ProductionEndpoint(apiURL: string, client: string -> Remote.Reply, decode: Remote.Decoder,
                              currentYear: GoInt.Int64, employeeID: int): (r: Response)
    ensures ProductionOutcome(apiURL, client, decode, currentYear, employeeID, r)
  {
    ProductionCases(apiURL, client, decode, currentYear, employeeID);
    EmployeeEndpoint(ProductionFetcher(apiURL, client, decode), ProductionMapper(currentYear), employeeID)
  }
}
