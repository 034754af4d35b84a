/** Responses as the service's toolkit writes them: a status code and a JSON
    body, which is either an `{"message": ...}` error payload or an employee. */
module Http {
  import Employee

  const StatusOK := 200
  const StatusUnauthorized := 401
  const StatusNotFound := 404
  const StatusInternalServerError := 500

  datatype Body =
    | ErrorMessage(message: string)
    | EmployeeJson(employee: Employee.Employee)
    | NullJson   // a nil employee, which the JSON encoder writes as `null`

  datatype Response = Response(status: int, body: Body)

  const EmployeeNotFound := Response(StatusNotFound, ErrorMessage("employee not found"))
  const SomethingTerrible := Response(StatusInternalServerError, ErrorMessage("something terrible happened"))
}
