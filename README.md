# Employee service core, modelled in Dafny

A model of the deterministic logic of a small reactive HTTP service for employees and
departments (Quarkus, Mutiny, Hibernate Reactive with Panache). What is modelled:

- **ExceptionMapper** (`exception_mapper.dfy`, `failures.dfy`): the fixed table from an
  exception's exact runtime class to a response status, with 500 as the default. A failure is
  its runtime class plus its constructor argument. Classes form a hierarchy (`Subclass(name,
  parent)`), and the lookup compares classes exactly. So a proper subclass of a mapped class,
  such as a specific `PersistenceException`, gets 500 and not 409. The response has a status
  and no entity.
- **MissingParameterException** (`missing_parameter.dfy`): `String.format` with one argument
  over the constant template. It is proved equal to prefix + parameter + suffix, and the
  parameter can be read back from the message.
- **Employee** (`employee.dfy`): a class with the five entity fields. It has the five-argument
  constructor, the in-place `accept(UpdateEmployeeCommand)` (`AcceptUpdate`, which returns
  `this`) and the static `accept(CreateEmployeeCommand)` (`AcceptCreate`, which builds a new
  employee under a generated id and yields it once its persist succeeds). The pure functions
  `Updated` and `CreateOutcome` specify them. Idempotence of an update is proved about `Updated`.
- **OutgoingEmployee** (`outgoing_employee.dfy`): the immutable seven-field view, as a datatype.
- **EmployeeResource** (`employee_resource.dfy`): `merge` and the outcome of each handler as a
  pure function to a `Response(status, entity)`. `createEmployee` joins the persist branch with
  the department lookup (`Join`). It answers 201 with the merged view only when both succeed.
  Otherwise it answers with the mapped failure of the branch that failed first. The stub
  handlers have fixed outcomes: 404 for get, filter and update; 200 with 0 for count; 204 for
  delete.

The generated UUID, the outcome of the persist transaction, the department lookup
(`findByName`, a function of the department name) and which branch of the join failed first
are parameters. They are not effects.

Most handlers are still workshop stubs marked `// Replace/extend this`
(EmployeeResource.java:40, 48, 58, 68, 92, 115): they do no lookup, counting, validation or
update yet. The model states what they do now, not what they are meant to do. Likewise the
mapper keys on exact classes (ExceptionMapper.java:23), so a store-level subclass of
`PersistenceException` gets 500 and not 409.

## Model

| member | source | states |
|---|---|---|
| ExceptionMapper.Handle | src/main/java/net/mguenther/reactive/ExceptionMapper.java:15-24 | every failure gets a response; it has no entity, and its status is one of 404, 409, 400, 500 |
| ExceptionMapper.HandleClassifies | src/main/java/net/mguenther/reactive/ExceptionMapper.java:15-23 | both directions of the table: 404 exactly for EmployeeNotFoundException and DepartmentNotFoundException; 409 exactly for PersistenceException; 400 exactly for MissingParameterException; 500 exactly for every other class |
| ExceptionMapper.SubclassFallsThrough | src/main/java/net/mguenther/reactive/ExceptionMapper.java:15-23 | a proper subclass of a mapped class does not get that class's status but 500 (the lookup uses the exact class) |
| ExceptionMapper.HandleIgnoresDetail | src/main/java/net/mguenther/reactive/ExceptionMapper.java:22-24 | the response depends on the class alone, so no failure detail reaches the client |
| MissingParameter.FormatLiteral | src/main/java/net/mguenther/reactive/employee/MissingParameterException.java:10 | formatting copies template text that has no `%` unchanged in front of the rest |
| MissingParameter.FormatTemplate | src/main/java/net/mguenther/reactive/employee/MissingParameterException.java:7-10 | formatting the template with a parameter never fails and gives prefix + parameter + suffix |
| MissingParameter.ErrorMessage | src/main/java/net/mguenther/reactive/employee/MissingParameterException.java:7-11 | the message starts with the fixed prefix and ends with `'.`; it holds the parameter unchanged right after the prefix; its length is the template's minus 2 plus the parameter's |
| MissingParameter.MissingParameterFailure | src/main/java/net/mguenther/reactive/employee/MissingParameterException.java:9-11 | the exception has class MissingParameterException and carries the formatted message |
| MissingParameter.MissingParameterIsBadRequest | src/main/java/net/mguenther/reactive/ExceptionMapper.java:19 | a MissingParameterException with any parameter reaches the client as 400 with no entity |
| MissingParameter.ParameterOf | src/main/java/net/mguenther/reactive/employee/MissingParameterException.java:7 | any parameter read back from a message formats to that same message |
| MissingParameter.ParameterRoundTrip | src/main/java/net/mguenther/reactive/employee/MissingParameterException.java:7-10 | reading the parameter back from its message gives the parameter |
| MissingParameter.ErrorMessageInjective | src/main/java/net/mguenther/reactive/employee/MissingParameterException.java:7-10 | two parameters give the same message exactly when they are equal |
| OutgoingEmployees.OutgoingEmployee.Getters | src/main/java/net/mguenther/reactive/employee/OutgoingEmployee.java:13-49 | the seven getters return the seven constructor arguments in order and rebuild the view |
| OutgoingEmployees.ViewIsItsGetters | src/main/java/net/mguenther/reactive/employee/OutgoingEmployee.java:5-21 | two views are equal exactly when their seven getters agree: there is no further field, such as a department id |
| Employees.Employee.constructor | src/main/java/net/mguenther/reactive/employee/Employee.java:24-30 | each argument is stored in the field of the same name |
| Employees.Employee.AcceptUpdate | src/main/java/net/mguenther/reactive/employee/Employee.java:40-48 | given name, last name, email and department id become the command's; the id is unchanged; nothing else is modified; the result is the object itself |
| Employees.Employee.AcceptCreate | src/main/java/net/mguenther/reactive/employee/Employee.java:32-38 | succeeds exactly when the persist succeeds; then it yields a fresh employee whose fields are the generated id and the command's values, otherwise it yields the persist failure |
| Employees.UpdateKeepsOnlyIdentity | src/main/java/net/mguenther/reactive/employee/Employee.java:42-46 | an update keeps the id, and the result depends on the old state only through that id |
| Employees.UpdateIdempotent | src/main/java/net/mguenther/reactive/employee/Employee.java:42-46 | applying the same update twice leaves the state that applying it once leaves |
| Employees.UpdateLastWins | src/main/java/net/mguenther/reactive/employee/Employee.java:42-46 | after two updates only the later command is visible |
| Employees.CreateFromCommand | src/main/java/net/mguenther/reactive/employee/Employee.java:32-37 | a create succeeds exactly when the persist does; the employee has the generated id and the command's given name, last name, email and department; a failure is the persist's |
| EmployeeResource.Join | src/main/java/net/mguenther/reactive/employee/EmployeeResource.java:78-81 | the join succeeds exactly when both branches do, with their two items in order; a failed join carries the error of a branch that failed, so no partial pair is produced; when both fail, the error of the branch that failed first |
| EmployeeResource.JoinSwap | src/main/java/net/mguenther/reactive/employee/EmployeeResource.java:78-81 | listing the branches the other way round (and naming the same branch as the first to fail) swaps the items of a success and keeps the failure: the order of the branches does not matter |
| EmployeeResource.MapItem | src/main/java/net/mguenther/reactive/employee/EmployeeResource.java:82 | a transform applies to the item of a success and leaves a failure as it is |
| EmployeeResource.Recover | src/main/java/net/mguenther/reactive/employee/EmployeeResource.java:83 | an item passes through unchanged; a failure becomes exactly the mapper's response to it, so it has no entity and an error status (400 or above) |
| EmployeeResource.Merge | src/main/java/net/mguenther/reactive/employee/EmployeeResource.java:99-109 | the view gives back the whole department (name, description, company) and the employee's id, given name, last name and email |
| EmployeeResource.MergeDropsDepartmentId | src/main/java/net/mguenther/reactive/employee/EmployeeResource.java:99-109 | the employee's department id is not carried into the view |
| EmployeeResource.MergeInjective | src/main/java/net/mguenther/reactive/employee/EmployeeResource.java:99-109 | equal views come from the same department and from employees equal except for the department id |
| EmployeeResource.GetEmployee | src/main/java/net/mguenther/reactive/employee/EmployeeResource.java:47-52 | 404 with no entity for every employee id |
| EmployeeResource.GetEmployeeCount | src/main/java/net/mguenther/reactive/employee/EmployeeResource.java:57-62 | 200 with the count 0 for every last name, an absent one included |
| EmployeeResource.GetEmployeeByEmail | src/main/java/net/mguenther/reactive/employee/EmployeeResource.java:67-72 | 404 with no entity for every email |
| EmployeeResource.CreateEmployee | src/main/java/net/mguenther/reactive/employee/EmployeeResource.java:77-84 | 201 exactly when the persist and the lookup of the command's department both succeed; the view is then the merge of the new employee and that department; otherwise no entity and the mapped failure of a failed branch |
| EmployeeResource.CreateShowsCommandAndDepartment | src/main/java/net/mguenther/reactive/employee/EmployeeResource.java:78-82 | a 201 view carries the generated id and the command's values, and the department fields of the department looked up by the command's department name |
| EmployeeResource.CreateFailureChoice | src/main/java/net/mguenther/reactive/employee/EmployeeResource.java:78-83 | on failure the response is the mapped failure of the only failed branch, or of the branch that failed first when both did |
| EmployeeResource.UpdateEmployee | src/main/java/net/mguenther/reactive/employee/EmployeeResource.java:90-96 | 404 with no entity for every command and id |
| EmployeeResource.DeleteEmployee | src/main/java/net/mguenther/reactive/employee/EmployeeResource.java:114-119 | 204 with no entity for every id |
| EmployeeResource.DeleteIdempotent | src/main/java/net/mguenther/reactive/employee/EmployeeResource.java:114-119 | deleting again, or deleting any other id, answers exactly as before (204) |

## Left out

- `getEmployees` (`Employee.listAll()`): a pass-through to the Panache store, which is not part of this model.
- `Employee.countByName` and `Employee.findByEmail`: HQL queries run by Hibernate Reactive, which is not part of this model. No handler calls them yet.
- `Panache.withTransaction(employee::persist)`: its outcome is the `persisted` parameter. Commit, rollback and store state are not modelled. A failed department lookup does not undo a committed persist, and the model does not show that.
- `Uni.combine().all()`: the scheduling and interleaving of the two branches are not modelled. Only the outcome rule is kept, and which branch failed first is a parameter.
- Mutiny's laziness: `accept(UpdateEmployeeCommand)` changes the fields when its `Uni` is subscribed. `AcceptUpdate` changes them when it is called.
- `UUID.randomUUID()`: the generated id is the `employeeId` parameter, and its format and uniqueness are not modelled.
- The no-argument JPA constructor of `Employee` and Java `null` strings: fields and parameters are always strings. An absent `lastName` query parameter is `None`. The stubs' responses do not depend on the email, which is taken as a plain string.
- DepartmentResource.java, `DepartmentManager`, `Department`, `EmployeeNotFoundException`, `DepartmentNotFoundException` and the two command classes are not part of this model. A department is its three getter values, a command is its four getter values, and `findByName` is a parameter.
- EmployeeRepository.java declares no logic of its own.
- JAX-RS routing, JSON serialisation and CDI injection: a response is only its status and its entity.
- `String.format` conversions other than `%s` and `%%` fail in `FormatFrom`. The template uses no other conversion.
- The item transforms in `getEmployee`, `getEmployeeByEmail` and `updateEmployee` are not modelled. Their chains always start from a failure, so those transforms never run.
