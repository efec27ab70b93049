/**
 * EmployeeResource: the employee handlers. Each one is the outcome of its
 * asynchronous chain, with every failure recovered through the exception
 * mapper, so a handler always answers with exactly one response.
 */
module EmployeeResource {
  import opened Wrappers
  import opened Http
  import opened Failures
  import opened ExceptionMapper
  import opened OutgoingEmployees
  import opened Departments
  import opened Employees

  /** The two branches of the create join: the employee's persist and the department lookup. */
  datatype Branch = PersistBranch | LookupBranch

  /**
   * Joins two independently settling branches: both items when both succeed,
   * otherwise the failure that arrived first (`firstFailed` says which one, and
   * matters only when both fail).
   */
  function Join<A, B>(a: Result<A, Thrown>, b: Result<B, Thrown>, firstFailed: Branch): (r: Result<(A, B), Thrown>)
    ensures r.Success? <==> a.Success? && b.Success?
    ensures r.Success? ==> r.value == (a.value, b.value)
    ensures r.Failure? ==> (a.Failure? && r.error == a.error) || (b.Failure? && r.error == b.error)
    ensures a.Failure? && b.Failure? ==> r.error == (if firstFailed == PersistBranch then a.error else b.error)
  {
    match (a, b)
    case (Success(x), Success(y)) => Success((x, y))
    case (Failure(e), Success(_)) => Failure(e)
    case (Success(_), Failure(e)) => Failure(e)
    case (Failure(e1), Failure(e2)) => Failure(if firstFailed == PersistBranch then e1 else e2)
  }

  /**
   * The join does not depend on the order its branches are listed in: swapping
   * them, and which of them is named first to fail, swaps the items and keeps
   * the failure.
   */
  lemma JoinSwap<A, B>(a: Result<A, Thrown>, b: Result<B, Thrown>)
    ensures Join(a, b, PersistBranch).Success? == Join(b, a, LookupBranch).Success?
    ensures Join(a, b, PersistBranch).Success? ==>
      Join(b, a, LookupBranch).value == (Join(a, b, PersistBranch).value.1, Join(a, b, PersistBranch).value.0)
    ensures Join(a, b, PersistBranch).Failure? ==>
      Join(b, a, LookupBranch).error == Join(a, b, PersistBranch).error
  {
  }

  /** Transforms the item of a settled step; a failure passes through. */
  function MapItem<A, B>(r: Result<A, Thrown>, f: A -> B): (m: Result<B, Thrown>)
    ensures m.Success? <==> r.Success?
    ensures m.Success? ==> m.value == f(r.value)
    ensures m.Failure? ==> m.error == r.error
  {
    match r
    case Success(x) => Success(f(x))
    case Failure(e) => Failure(e)
  }

  /** `onFailure().recoverWithItem(exceptionMapper::handle)`. */
  function Recover(r: Result<Response, Thrown>): (resp: Response)
    ensures r.Success? ==> resp == r.value
    ensures r.Failure? ==> resp == Handle(r.error)
    ensures r.Failure? ==> resp.entity == None && resp.status.Code() >= 400
  {
    match r
    case Success(v) => v
    case Failure(f) => Handle(f)
  }

  /** The department part of a view. */
  function DepartmentOf(v: OutgoingEmployee): Department
  {
    Department(v.departmentName, v.departmentDescription, v.company)
  }

  /**
   * The flattened view of an employee in its department: it gives back the
   * whole department and every employee field but the department id, which it
   * does not carry.
   */
  function Merge(employee: EmployeeData, department: Department): (v: OutgoingEmployee)
    ensures DepartmentOf(v) == department
    ensures EmployeeData(v.employeeId, v.givenName, v.lastName, v.email, employee.departmentId) == employee
  {
    OutgoingEmployee(
      employee.employeeId, employee.givenName, employee.lastName, employee.email,
      department.name, department.description, department.company)
  }

  /** Employees differing only in their department id merge into the same view. */
  lemma MergeDropsDepartmentId(employee: EmployeeData, department: Department, otherId: string)
    ensures Merge(employee.(departmentId := otherId), department) == Merge(employee, department)
  {
  }

  /** Merge is injective on everything it carries. */
  lemma MergeInjective(e1: EmployeeData, d1: Department, e2: EmployeeData, d2: Department)
    requires Merge(e1, d1) == Merge(e2, d2)
    ensures d1 == d2
    ensures e1.(departmentId := e2.departmentId) == e2
  {
  }

  /** GET /employees/{employeeId}: the stub always fails with EmployeeNotFoundException. */
  function GetEmployee(employeeId: string): (r: Response)
    ensures r == Response(NotFound, None)
  {
    Recover(Failure(EmployeeNotFound(employeeId)))
  }

  /** GET /employees/count: the stub answers 200 with 0, with or without a last name. */
  function GetEmployeeCount(lastName: Option<string>): (r: Response)
    ensures r == Response(Ok, Some(Count(0)))
  {
    Recover(MapItem(Success(0), (counter: int) => Response(Ok, Some(Count(counter)))))
  }

  /** GET /employees/filter/?email=: the stub always fails with EmployeeNotFoundException. */
  function GetEmployeeByEmail(email: string): (r: Response)
    ensures r == Response(NotFound, None)
  {
    Recover(Failure(EmployeeNotFound(email)))
  }

  /**
   * POST /employees: joins the persist of the employee built from `command`
   * under the generated `employeeId` with the lookup of the department the
   * command names; 201 with the merged view when both succeed, the mapped
   * failure otherwise.
   */
  function CreateEmployee(
    command: CreateEmployeeCommand,
    employeeId: string,
    persisted: Outcome<Thrown>,
    findByName: string -> Result<Department, Thrown>,
    firstFailed: Branch): (r: Response)
    ensures r.status == Status.Created <==> persisted.Pass? && findByName(command.department).Success?
    ensures r.status == Status.Created ==>
      r.entity == Some(View(Merge(NewEmployee(command, employeeId), findByName(command.department).value)))
    ensures r.status != Status.Created ==>
      r.entity == None &&
      ((persisted.Fail? && r == Handle(persisted.error)) ||
       (findByName(command.department).Failure? && r == Handle(findByName(command.department).error)))
  {
    var joined := Join(CreateOutcome(command, employeeId, persisted), findByName(command.department), firstFailed);
    Recover(MapItem(joined, (pair: (EmployeeData, Department)) =>
      Response(Status.Created, Some(View(Merge(pair.0, pair.1))))))
  }

  /**
   * A successful create shows the command's values under the generated id and
   * the descriptive fields of the department looked up by the command's
   * department name.
   */
  lemma CreateShowsCommandAndDepartment(
    command: CreateEmployeeCommand,
    employeeId: string,
    persisted: Outcome<Thrown>,
    findByName: string -> Result<Department, Thrown>,
    firstFailed: Branch)
    requires CreateEmployee(command, employeeId, persisted, findByName, firstFailed).status == Status.Created
    ensures var r := CreateEmployee(command, employeeId, persisted, findByName, firstFailed);
      r.entity.Some? && r.entity.value.View? &&
      var v := r.entity.value.employee;
      v.employeeId == employeeId && v.givenName == command.givenName &&
      v.lastName == command.lastName && v.email == command.email &&
      DepartmentOf(v) == findByName(command.department).value
  {
  }

  /**
   * When both branches fail, the response is the mapped failure of the branch
   * that failed first; when one fails, its failure.
   */
  lemma CreateFailureChoice(
    command: CreateEmployeeCommand,
    employeeId: string,
    persisted: Outcome<Thrown>,
    findByName: string -> Result<Department, Thrown>,
    firstFailed: Branch)
    requires persisted.Fail? || findByName(command.department).Failure?
    ensures var r := CreateEmployee(command, employeeId, persisted, findByName, firstFailed);
      var lookup := findByName(command.department);
      r == if persisted.Fail? && (lookup.Success? || firstFailed == PersistBranch)
           then Handle(persisted.error)
           else Handle(lookup.error)
  {
  }

  /** PUT /employees/{employeeId}: the stub always fails with EmployeeNotFoundException. */
  function UpdateEmployee(command: UpdateEmployeeCommand, employeeId: string): (r: Response)
    ensures r == Response(NotFound, None)
  {
    Recover(Failure(EmployeeNotFound(employeeId)))
  }

  /** DELETE /employees/{employeeId}: the stub always answers 204 without an entity. */
  function DeleteEmployee(employeeId: string): (r: Response)
    ensures r == Response(NoContent, None)
  {
    Recover(MapItem(Success(true), (deleted: bool) => Response(NoContent, None)))
  }

  /**
   * Deleting is idempotent: a second delete of the same id, or a delete of any
   * other id, answers exactly as the first.
   */
  lemma DeleteIdempotent(employeeId: string, otherId: string)
    ensures DeleteEmployee(employeeId) == DeleteEmployee(otherId)
    ensures DeleteEmployee(employeeId).status.Code() == 204
  {
  }
}
