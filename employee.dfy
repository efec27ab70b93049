/**
 * Employee: the persisted entity. Its five fields are set by the constructor,
 * replaced in place (all but the id) by an update command, and a new employee
 * is built from a create command under a freshly generated id and persisted.
 */
module Employees {
  import opened Wrappers
  import opened Failures

  /** The inbound commands, as the entity reads them through their getters. */
  datatype CreateEmployeeCommand =
    CreateEmployeeCommand(givenName: string, lastName: string, email: string, department: string)
  datatype UpdateEmployeeCommand =
    UpdateEmployeeCommand(givenName: string, lastName: string, email: string, department: string)

  /** The values of an employee's five fields at one moment. */
  datatype EmployeeData = EmployeeData(
    employeeId: string,
    givenName: string,
    lastName: string,
    email: string,
    departmentId: string)

  /** The fields after an update: everything from the command, the id kept. */
  function Updated(data: EmployeeData, command: UpdateEmployeeCommand): EmployeeData
  {
    EmployeeData(data.employeeId, command.givenName, command.lastName, command.email, command.department)
  }

  /** The employee a create command describes, under the generated id. */
  function NewEmployee(command: CreateEmployeeCommand, employeeId: string): EmployeeData
  {
    EmployeeData(employeeId, command.givenName, command.lastName, command.email, command.department)
  }

  /**
   * What accepting a create command settles with: the built employee once
   * its persist transaction succeeds, the persist failure otherwise.
   */
  function CreateOutcome(command: CreateEmployeeCommand, employeeId: string, persisted: Outcome<Thrown>)
    : Result<EmployeeData, Thrown>
  {
    match persisted
    case Pass => Success(NewEmployee(command, employeeId))
    case Fail(f) => Failure(f)
  }

  class Employee {
    var employeeId: string
    var givenName: string
    var lastName: string
    var email: string
    var departmentId: string

    function Data(): EmployeeData
      reads this
    {
      EmployeeData(employeeId, givenName, lastName, email, departmentId)
    }

    /** Stores each argument in the field of the same name. */
    constructor (employeeId: string, givenName: string, lastName: string, email: string, departmentId: string)
      ensures Data() == EmployeeData(employeeId, givenName, lastName, email, departmentId)
    {
      this.employeeId := employeeId;
      this.givenName := givenName;
      this.lastName := lastName;
      this.email := email;
      this.departmentId := departmentId;
    }

    /**
     * Accepts an update command: overwrites the four mutable fields in place
     * and hands back this very object.
     */
    method AcceptUpdate(command: UpdateEmployeeCommand) returns (self: Employee)
      modifies this
      ensures self == this
      ensures employeeId == old(employeeId)
      ensures givenName == command.givenName && lastName == command.lastName
      ensures email == command.email && departmentId == command.department
      ensures Data() == Updated(old(Data()), command)
    {
      givenName := command.givenName;
      lastName := command.lastName;
      email := command.email;
      departmentId := command.department;
      self := this;
    }

    /**
     * Accepts a create command: builds a new employee under `employeeId` (the
     * generated UUID) and persists it; the result is that same object, or the
     * persist failure.
     */
    static method AcceptCreate(command: CreateEmployeeCommand, employeeId: string, persisted: Outcome<Thrown>)
      returns (r: Result<Employee, Thrown>)
      ensures r.Success? <==> CreateOutcome(command, employeeId, persisted).Success?
      ensures r.Success? ==> fresh(r.value) && r.value.Data() == CreateOutcome(command, employeeId, persisted).value
      ensures r.Failure? ==> r.error == CreateOutcome(command, employeeId, persisted).error
    {
      var employee := new Employee(employeeId, command.givenName, command.lastName, command.email, command.department);
      match persisted
      case Pass => r := Success(employee);
      case Fail(f) => r := Failure(f);
    }
  }

  /** An update never changes the id and forgets every other old field. */
  lemma UpdateKeepsOnlyIdentity(data: EmployeeData, other: EmployeeData, command: UpdateEmployeeCommand)
    ensures Updated(data, command).employeeId == data.employeeId
    ensures Updated(data, command) == Updated(other, command) <==> data.employeeId == other.employeeId
  {
  }

  /** Applying the same update twice leaves what applying it once leaves. */
  lemma UpdateIdempotent(data: EmployeeData, command: UpdateEmployeeCommand)
    ensures Updated(Updated(data, command), command) == Updated(data, command)
  {
  }

  /** Of two updates in a row, only the later one is visible. */
  lemma UpdateLastWins(data: EmployeeData, first: UpdateEmployeeCommand, second: UpdateEmployeeCommand)
    ensures Updated(Updated(data, first), second) == Updated(data, second)
  {
  }

  /**
   * A create settles with an employee exactly when the persist succeeds; that
   * employee carries the generated id and the command's four values.
   */
  lemma CreateFromCommand(command: CreateEmployeeCommand, employeeId: string, persisted: Outcome<Thrown>)
    ensures CreateOutcome(command, employeeId, persisted).Success? <==> persisted.Pass?
    ensures persisted.Pass? ==>
      var e := CreateOutcome(command, employeeId, persisted).value;
      e.employeeId == employeeId && e.givenName == command.givenName && e.lastName == command.lastName &&
      e.email == command.email && e.departmentId == command.department
    ensures persisted.Fail? ==> CreateOutcome(command, employeeId, persisted).error == persisted.error
  {
  }
}
