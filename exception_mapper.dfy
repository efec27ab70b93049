/**
 * ExceptionMapper: the total, class-keyed lookup from a failure to the
 * response status the client sees.
 */
module ExceptionMapper {
  import opened Wrappers
  import opened Http
  import opened Failures

  /** The fixed table, keyed on exact runtime classes. */
  const ExceptionToStatusCode: map<ExceptionClass, Status> := map[
    EmployeeNotFoundException := NotFound,
    DepartmentNotFoundException := NotFound,
    PersistenceException := Conflict,
    MissingParameterException := BadRequest
  ]

  /**
   * Looks up the exact class of `cause`, defaulting to 500, and answers with
   * that status and no entity: the failure's detail never reaches the client.
   */
  function Handle(cause: Thrown): (r: Response)
    ensures r.entity == None
    ensures r.status in {NotFound, Conflict, BadRequest, InternalServerError}
    ensures r.status.Code() in {404, 409, 400, 500}
  {
    var status :=
      if cause.cls in ExceptionToStatusCode then ExceptionToStatusCode[cause.cls]
      else InternalServerError;
    Response(status, None)
  }

  /** The table, read in both directions: which classes give which status. */
  lemma HandleClassifies(cause: Thrown)
    ensures Handle(cause).status == NotFound <==>
      cause.cls == EmployeeNotFoundException || cause.cls == DepartmentNotFoundException
    ensures Handle(cause).status == Conflict <==> cause.cls == PersistenceException
    ensures Handle(cause).status == BadRequest <==> cause.cls == MissingParameterException
    ensures Handle(cause).status == InternalServerError <==>
      cause.cls !in {EmployeeNotFoundException, DepartmentNotFoundException,
                     PersistenceException, MissingParameterException}
  {
  }

  /**
   * The lookup is on the exact class: a proper subclass of a mapped class, such
   * as a specific PersistenceException, does not get its superclass's status
   * but falls to 500.
   */
  lemma SubclassFallsThrough(cause: Thrown, mapped: ExceptionClass)
    requires mapped in ExceptionToStatusCode
    requires IsA(cause.cls, mapped) && cause.cls != mapped
    ensures Handle(cause).status == InternalServerError
    ensures Handle(cause).status != ExceptionToStatusCode[mapped]
  {
  }

  /** The response depends on the class alone, never on the failure's detail. */
  lemma HandleIgnoresDetail(a: Thrown, b: Thrown)
    requires a.cls == b.cls
    ensures Handle(a) == Handle(b)
  {
  }
}
