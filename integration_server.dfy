/** The monolithic handler of integration/server.go: it fetches from a fixed
    upstream, reads the status itself, parses the age and classifies the birth
    year inline. Its record and generation types are the same as those of
    unit/employee.go and are shared with that module. */
module IntegrationServer {
  import opened Wrappers
  import Strconv
  import GoInt
  import opened Employee
  import opened Http
  import Remote
  import UnitServer

  /** The upstream the handler is hard-wired to (the production base URL of
      the decomposed server too). */
  const UpstreamAPI := "http://dummy.restapiexample.com"

  /** The request URL: the same one the decomposed fetcher builds for the same
      upstream. */
  function RequestURL(employeeID: int): (url: string)
    ensures url == Remote.EmployeeURL(UpstreamAPI, employeeID)
  {
    var prefix := "http://dummy.restapiexample.com/api/v1/employee/";
    assert prefix == UpstreamAPI + Remote.EmployeePath;
    prefix + Strconv.FormatInt(employeeID)
  }

  /** What the handler answers for a decoded upstream record: a 500 carrying
      Atoi's error text when the age does not parse, otherwise the employee
      with the generation of the birth year `currentYear - age`, computed in
      64-bit `int`. Absent data reads as the zero record. */
  predicate RecordOutcome(remote: RemoteEmployee, currentYear: GoInt.Int64, r: Response) {
    var d := remote.Fields();
    var age := Strconv.Atoi(d.employeeAge);
    && (age.Failure? ==> r == Response(StatusInternalServerError, ErrorMessage(age.error.Error())))
    && (age.Success? ==>
         r == Response(StatusOK, EmployeeJson(Employee(d.id, d.employeeName, age.value,
                                                       MapBirthYear(GoInt.Sub64(currentYear, age.value))))))
  }

  /** What the handler answers for an upstream reply. A transport failure and a
      decoding failure each give a 500 carrying the raw error text; a 401 is
      "employee not found"; every other status but 200 is a 500 "remote error
      encountered". */
  predicate ReplyOutcome(reply: Remote.Reply, decode: Remote.Decoder, currentYear: GoInt.Int64, r: Response) {
    && (reply.TransportFailure? ==> r == Response(StatusInternalServerError, ErrorMessage(reply.message)))
    && (reply.Received? && reply.statusCode == StatusUnauthorized ==> r == EmployeeNotFound)
    && (reply.Received? && reply.statusCode != StatusUnauthorized && reply.statusCode != StatusOK ==>
         r == Response(StatusInternalServerError, ErrorMessage("remote error encountered")))
    && (reply.Received? && reply.statusCode == StatusOK ==>
      var decoded := decode(reply.body);
      && (decoded.Failure? ==> r == Response(StatusInternalServerError, ErrorMessage(decoded.error)))
      && (decoded.Success? ==> RecordOutcome(decoded.value, currentYear, r)))
  }

  /** What `EmployeeEndpoint` answers for `employeeID`: the outcome for the
      reply to the request URL. */
  predicate EndpointOutcome(client: string -> Remote.Reply, decode: Remote.Decoder, currentYear: GoInt.Int64,
                            employeeID: int, r: Response)
  {
    ReplyOutcome(client(RequestURL(employeeID)), decode, currentYear, r)
  }

  /** How a response of `EmployeeEndpoint` compares with the decomposed server
      wired to the same upstream: the same successful responses, and the same
      status codes except where the upstream answers 401 (404 here, 500 there)
      or answers 200 without data (500 here, since absent data reads as an
      empty age; 404 there). */
  predicate AgreesWithUnit(client: string -> Remote.Reply, decode: Remote.Decoder, currentYear: GoInt.Int64,
                           employeeID: int, r: Response)
  {
    var reply := client(RequestURL(employeeID));
    var unit := UnitServer.ProductionEndpoint(UpstreamAPI, client, decode, currentYear, employeeID);
    var noData := reply.Received? && reply.statusCode == StatusOK && decode(reply.body).Success?
                  && decode(reply.body).value.data.None?;
    && (r.status == StatusOK <==> unit.status == StatusOK)
    && (r.status == StatusOK ==> r == unit)
    && (reply.Received? && reply.statusCode == StatusUnauthorized ==> unit == SomethingTerrible)
    && (noData ==> unit == EmployeeNotFound && r.status == StatusInternalServerError)
    && (!(reply.Received? && reply.statusCode == StatusUnauthorized) && !noData ==> r.status == unit.status)
  }

  /** Every outcome of the monolithic endpoint agrees with the decomposed one. */
  lemma OutcomeAgreesWithUnit(client: string -> Remote.Reply, decode: Remote.Decoder, currentYear: GoInt.Int64,
                              employeeID: int, r: Response)
    requires EndpointOutcome(client, decode, currentYear, employeeID, r)
    ensures AgreesWithUnit(client, decode, currentYear, employeeID, r)
  {
    var reply := client(RequestURL(employeeID));
    var unit := UnitServer.ProductionEndpoint(UpstreamAPI, client, decode, currentYear, employeeID);
    if reply.TransportFailure? || reply.statusCode != StatusOK {
      assert unit == SomethingTerrible;
    } else {
      var decoded := decode(reply.body);
      if decoded.Failure? {
        assert unit == SomethingTerrible;
      } else if decoded.value.data.None? {
        assert unit == EmployeeNotFound;
        assert !Strconv.WellFormed(decoded.value.Fields().employeeAge);
      } else {
        var age := Strconv.Atoi(decoded.value.data.value.employeeAge);
        assert age.Failure? ==> unit == SomethingTerrible;
      }
    }
  }

  /** The same, for every response the endpoint may give. */
  lemma OutcomesAgreeWithUnit(client: string -> Remote.Reply, decode: Remote.Decoder, currentYear: GoInt.Int64,
                              employeeID: int)
    ensures forall r | EndpointOutcome(client, decode, currentYear, employeeID, r) ::
              AgreesWithUnit(client, decode, currentYear, employeeID, r)
  {
    forall r | EndpointOutcome(client, decode, currentYear, employeeID, r)
      ensures AgreesWithUnit(client, decode, currentYear, employeeID, r)
    {
      OutcomeAgreesWithUnit(client, decode, currentYear, employeeID, r);
    }
  }

  /** `EmployeeEndpoint`: the handler's early returns, then the inline
      classification of the birth year. */
  method EmployeeEndpoint(client: string -> Remote.Reply, decode: Remote.Decoder, currentYear: GoInt.Int64, employeeID: int)
    returns (r: Response)
    ensures EndpointOutcome(client, decode, currentYear, employeeID, r)
    ensures AgreesWithUnit(client, decode, currentYear, employeeID, r)
  {
    OutcomesAgreeWithUnit(client, decode, currentYear, employeeID);
    var url := RequestURL(employeeID);
    var res := client(url);
    if res.TransportFailure? {
      return Response(StatusInternalServerError, ErrorMessage(res.message));
    }
    if res.statusCode == StatusUnauthorized {
      return EmployeeNotFound;
    } else if res.statusCode != StatusOK {
      return Response(StatusInternalServerError, ErrorMessage("remote error encountered"));
    }

    var decoded := decode(res.body);
    if decoded.Failure? {
      return Response(StatusInternalServerError, ErrorMessage(decoded.error));
    }
    var remote := decoded.value;

    var age := Strconv.Atoi(remote.Fields().employeeAge);
    if age.Failure? {
      return Response(StatusInternalServerError, ErrorMessage(age.error.Error()));
    }

    var birthYear := GoInt.Sub64(currentYear, age.value);
    var generation: Generation;
    if birthYear <= 1924 {
      generation := Greatest;
    } else if birthYear <= 1945 {
      generation := Silent;
    } else if birthYear <= 1964 {
      generation := BabyBoomer;
    } else if birthYear <= 1980 {
      generation := GenX;
    } else if birthYear <= 1996 {
      generation := Millennial;
    } else {
      generation := GenZ;
    }
    var ret := Employee(remote.Fields().id, remote.Fields().employeeName, age.value, generation);
    return Response(StatusOK, EmployeeJson(ret));
  }

  /** The `/employee/{id}` route: `getRequestID` (the same code as the
      decomposed server's) turns a non-integer segment into the 404, and an
      integer goes to the endpoint. */
  method ServeEmployee(client: string -> Remote.Reply, decode: Remote.Decoder, currentYear: GoInt.Int64, pathID: string)
    returns (r: Response)
    ensures Strconv.Atoi(pathID).Failure? ==> r == EmployeeNotFound
    ensures Strconv.Atoi(pathID).Success? ==>
      EndpointOutcome(client, decode, currentYear, Strconv.Atoi(pathID).value, r)
    ensures Strconv.Atoi(pathID).Success? ==>
      var unit := UnitServer.ProductionEndpoint(UpstreamAPI, client, decode, currentYear, Strconv.Atoi(pathID).value);
      (r.status == StatusOK <==> unit.status == StatusOK) && (r.status == StatusOK ==> r == unit)
  {
    match UnitServer.GetRequestID(pathID)
    case Failure(response) =>
      r := response;
    case Success(id) =>
      r := EmployeeEndpoint(client, decode, currentYear, id);
  }
}
