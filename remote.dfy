/** The upstream fetcher of unit/remote.go. The HTTP client is a function from
    the request URL to what came back, and the JSON decoder a function from the
    body to the decoded record or the decoder's error text. */
module Remote {
  import opened Wrappers
  import Strconv
  import GoInt
  import opened Employee
  import Http

  /** The outcome of one GET: the request could not be built or sent, or a
      status code arrived with a body. */
  datatype Reply =
    | TransportFailure(message: string)
    | Received(statusCode: int, body: string)

  /** The upstream JSON decoder applied to a response body. */
  type Decoder = string -> Result<RemoteEmployee, string>

  const EmployeePath := "/api/v1/employee/"

  /** The request URL: the base URL, the fixed path, then the ID in decimal. */
  function EmployeeURL(apiURL: string, employeeID: int): (url: string)
    ensures |url| > |apiURL + EmployeePath|
    ensures url[..|apiURL + EmployeePath|] == apiURL + EmployeePath
    ensures url[|apiURL + EmployeePath|..] == Strconv.FormatInt(employeeID)
  {
    apiURL + EmployeePath + Strconv.FormatInt(employeeID)
  }

  /** The last segment of the request URL reads back as the ID. */
  lemma EmployeeURLParsesBack(apiURL: string, employeeID: int)
    requires GoInt.InInt64(employeeID)
    ensures Strconv.Atoi(EmployeeURL(apiURL, employeeID)[|apiURL + EmployeePath|..]) == Success(employeeID)
  {
    Strconv.AtoiFormatInt(employeeID);
  }

  /** The error text for a status other than 200. */
  function UnexpectedStatus(statusCode: int, body: string): string {
    "unexpected response code, got " + Strconv.FormatInt(statusCode) + " with body " + body
  }

  /** `restEmployeeFetcher`: a base URL and an HTTP client, both read only. */
  datatype RestEmployeeFetcher = RestEmployeeFetcher(apiURL: string, client: string -> Reply) {

    /** The reply the client gives for an employee's URL. */
    function Get(employeeID: int): Reply {
      client(EmployeeURL(apiURL, employeeID))
    }

    /** `FetchEmployee`: anything but a 200 is an error carrying the status
        and body; a 200 whose body does not decode is the decoder's error; a
        decoded record without data is "not found" (no record, no error);
        otherwise the decoded record as it is. */
    function FetchEmployee(decode: Decoder, employeeID: int): (r: Returned<RemoteEmployee>)
      ensures Get(employeeID).TransportFailure? ==> r == Returned(None, Some(Get(employeeID).message))
      ensures Get(employeeID).Received? && Get(employeeID).statusCode != Http.StatusOK ==>
        r == Returned(None, Some(UnexpectedStatus(Get(employeeID).statusCode, Get(employeeID).body)))
      ensures Get(employeeID).Received? && Get(employeeID).statusCode == Http.StatusOK ==>
        var decoded := decode(Get(employeeID).body);
        && (decoded.Failure? ==> r == Returned(None, Some(decoded.error)))
        && (decoded.Success? && decoded.value.data.None? ==> r == Returned(None, None))
        && (decoded.Success? && decoded.value.data.Some? ==> r == Returned(Some(decoded.value), None))
      ensures r.value.None? || r.err.None?
      ensures r.value.Some? ==> r.value.value.data.Some?
    {
      match Get(employeeID)
      case TransportFailure(message) => Returned(None, Some(message))
      case Received(statusCode, body) =>
        if statusCode != Http.StatusOK then Returned(None, Some(UnexpectedStatus(statusCode, body)))
        else
          match decode(body)
          case Failure(message) => Returned(None, Some(message))
          case Success(remote) =>
            if remote.data.None? then Returned(None, None) else Returned(Some(remote), None)
    }
  }

  /** The fetcher asks the client about one URL only, the employee's: two
      clients that agree there make the fetcher behave the same. */
  lemma FetchUsesOnlyEmployeeURL(f1: RestEmployeeFetcher, f2: RestEmployeeFetcher, decode: Decoder, employeeID: int)
    requires f1.apiURL == f2.apiURL
    requires f1.client(EmployeeURL(f1.apiURL, employeeID)) == f2.client(EmployeeURL(f2.apiURL, employeeID))
    ensures f1.FetchEmployee(decode, employeeID) == f2.FetchEmployee(decode, employeeID)
  {
  }

  /** The decoder is consulted only on a 200, and only about that body. */
  lemma FetchDecodesOnlyOkBody(f: RestEmployeeFetcher, d1: Decoder, d2: Decoder, employeeID: int)
    requires f.Get(employeeID).Received? && f.Get(employeeID).statusCode == Http.StatusOK ==>
      d1(f.Get(employeeID).body) == d2(f.Get(employeeID).body)
    ensures f.FetchEmployee(d1, employeeID) == f.FetchEmployee(d2, employeeID)
  {
  }

  /** Unlike the integration endpoint, this fetcher gives a 401 no special
      meaning: it is an error like any other status but 200. */
  lemma UnauthorizedIsAnError(f: RestEmployeeFetcher, decode: Decoder, employeeID: int)
    requires f.Get(employeeID).Received? && f.Get(employeeID).statusCode == Http.StatusUnauthorized
    ensures f.FetchEmployee(decode, employeeID).err.Some?
    ensures f.FetchEmployee(decode, employeeID).value.None?
  {
  }

  /** The fetcher's tests request employee 1 at `/api/v1/employee/1`. */
  lemma EmployeeOneURL(apiURL: string)
    ensures EmployeeURL(apiURL, 1) == apiURL + "/api/v1/employee/1"
  {
    assert Strconv.FormatInt(1) == "1";
  }

  /** The fetcher's non-200 test: status 500 gives "unexpected response code,
      got 500 with body " followed by the body, whatever the body (the test's is
      "stuff went terribly wrong"). */
  lemma Status500Message(code: int, body: string)
    requires code == 500
    ensures UnexpectedStatus(code, body) == "unexpected response code, got 500 with body " + body
  {
    var digits := Strconv.FormatInt(code);
    assert digits == "500" by {
      assert Strconv.NatToDecimal(code / 10) == "50" by {
        assert Strconv.NatToDecimal(code / 100) == "5";
      }
    }
    assert "unexpected response code, got " + digits + " with body " + body
        == "unexpected response code, got 500 with body " + body;
  }
}
