/** The four API actions as functions from (model state, request, what the
    data layer answers) to the HTTP result and the data-layer calls made. */
module EmployeeController {
  import opened Dtos
  import opened EmployeeBL

  const UpdatedText: string := "Employee updated successfully"
  const DeletedText: string := "Employee deleted successfully"

  /** Response bodies the actions produce. */
  datatype Body =
    | ModelStateBody(modelState: ModelState)
    | MessageBody(message: string)
    | IdBody(id: int)
    | TextBody(text: string)
    | EmployeesBody(employees: seq<GetEmployeeDto>)

  datatype ActionResult =
    | Ok(body: Body)
    | BadRequest(body: Body)
    | CreatedAtAction(actionName: string, routeId: int, body: Body)

  function StatusCode(a: ActionResult): int {
    match a
    case Ok(_) => 200
    case BadRequest(_) => 400
    case CreatedAtAction(_, _, _) => 201
  }

  /** An action either returns a result or lets an `ArgumentException` escape. */
  datatype Response =
    | Completed(result: ActionResult, calls: seq<DalCall>)
    | Unhandled(message: string, calls: seq<DalCall>)

  /** GET GetEmployeeList: 200 with exactly the business layer's list. The
      action has no check of its own; a query that does not bind (a
      non-numeric `Id`, say) is answered 400 by the `[ApiController]`
      filter before the action runs. */
  function GetEmployeeList(ms: ModelState, dal: EmployeeFilterDto -> seq<GetEmployeeDto>, filter: EmployeeFilterDto)
    : (r: Response)
    ensures r.Completed? && StatusCode(r.result) == if ms.IsValid() then 200 else 400
    ensures !ms.IsValid() ==> r == Completed(BadRequest(ModelStateBody(ms)), [])
    ensures ms.IsValid() ==> r.result == Ok(EmployeesBody(dal(filter))) && r.calls == [DalGetList(filter)]
  {
    if !ms.IsValid() then Completed(BadRequest(ModelStateBody(ms)), [])
    else
      var run := EmployeeBL.GetEmployees(dal, filter);
      Completed(Ok(EmployeesBody(run.outcome.value)), run.calls)
  }

  /** POST AddEmployee: invalid model state is 400 with the model state and
      never reaches the business layer; an `ArgumentException` is caught and
      becomes 400 `{message}`; success is 201 pointing at the new id. */
  function AddEmployee(ms: ModelState, dto: AddEmployeeDto, newId: int): (r: Response)
    ensures r.Completed?
    ensures StatusCode(r.result) == if ms.IsValid() && AddViolations(dto) == [] then 201 else 400
    ensures !ms.IsValid() ==> r == Completed(BadRequest(ModelStateBody(ms)), [])
    ensures ms.IsValid() && AddViolations(dto) != []
      ==> r == Completed(BadRequest(MessageBody(AddViolations(dto)[0])), [])
    ensures ms.IsValid() && AddViolations(dto) == []
      ==> r == Completed(CreatedAtAction("GetEmployeeList", newId, IdBody(newId)), [DalAdd(dto)])
  {
    if !ms.IsValid() then Completed(BadRequest(ModelStateBody(ms)), [])
    else
      var run := EmployeeBL.AddEmployee(dto, newId);
      match run.outcome
      case Returned(id) => Completed(CreatedAtAction("GetEmployeeList", id, IdBody(id)), run.calls)
      case Threw(message) => Completed(BadRequest(MessageBody(message)), run.calls)
  }

  /** PUT UpdateEmployee: invalid model state is 400; the business layer's
      `ArgumentException` is not caught and escapes the action. */
  function UpdateEmployee(ms: ModelState, dto: UpdateEmployeeDto): (r: Response)
    ensures !ms.IsValid() ==> r == Completed(BadRequest(ModelStateBody(ms)), [])
    ensures ms.IsValid() && UpdateViolations(dto) != [] ==> r == Unhandled(UpdateViolations(dto)[0], [])
    ensures ms.IsValid() && UpdateViolations(dto) == []
      ==> r == Completed(Ok(TextBody(UpdatedText)), [DalUpdate(dto)])
  {
    if !ms.IsValid() then Completed(BadRequest(ModelStateBody(ms)), [])
    else
      var run := EmployeeBL.UpdateEmployee(dto);
      match run.outcome
      case Returned(_) => Completed(Ok(TextBody(UpdatedText)), run.calls)
      case Threw(message) => Unhandled(message, run.calls)
  }

  /** DELETE DeleteEmployee: invalid model state is 400; otherwise 200 once
      the business layer returns, its exception escaping as for Update. */
  function DeleteEmployee(ms: ModelState, dto: DeleteEmployeeDto): (r: Response)
    ensures !ms.IsValid() ==> r == Completed(BadRequest(ModelStateBody(ms)), [])
    ensures ms.IsValid() && dto.id > 0 ==> r == Completed(Ok(TextBody(DeletedText)), [DalDelete(dto)])
    ensures ms.IsValid() && dto.id <= 0 ==> r == Unhandled(InvalidId, [])
  {
    if !ms.IsValid() then Completed(BadRequest(ModelStateBody(ms)), [])
    else
      var run := EmployeeBL.DeleteEmployee(dto);
      match run.outcome
      case Returned(_) => Completed(Ok(TextBody(DeletedText)), run.calls)
      case Threw(message) => Unhandled(message, run.calls)
  }

  /** Whether a business-layer call ends normally. */
  predicate AddSucceeds(dto: AddEmployeeDto) {
    EmployeeBL.AddEmployee(dto, 0).outcome.Returned?
  }

  /** The status code of AddEmployee depends only on whether the model state
      is valid and whether the business layer returns: two requests that agree
      on both get the same code, whatever their fields and new ids. */
  lemma AddStatusDetermined(ms1: ModelState, ms2: ModelState, d1: AddEmployeeDto, d2: AddEmployeeDto, id1: int, id2: int)
    requires ms1.IsValid() == ms2.IsValid()
    requires AddSucceeds(d1) == AddSucceeds(d2)
    ensures StatusCode(AddEmployee(ms1, d1, id1).result) == StatusCode(AddEmployee(ms2, d2, id2).result)
  {
  }

  /** The same failing fields are a 400 on Add but escape on Update. */
  lemma AddCatchesUpdateDoesNot(ms: ModelState, dto: UpdateEmployeeDto, newId: int)
    requires ms.IsValid()
    requires dto.id > 0 && AddViolations(AddPart(dto)) != []
    ensures AddEmployee(ms, AddPart(dto), newId) == Completed(BadRequest(MessageBody(AddViolations(AddPart(dto))[0])), [])
    ensures UpdateEmployee(ms, dto) == Unhandled(AddViolations(AddPart(dto))[0], [])
  {
  }

  /** A PUT UpdateEmployee request from its JSON body: binding and
      validation first (an escaping validator exception, or a 400 for a
      body that cannot be read or an invalid model state), then the action
      on the bound DTO. */
  function UpdateRequest(body: UpdateEmployeeBody, nullableContext: bool): (r: Response)
    ensures BindUpdate(body, nullableContext).ValidatorThrew? ==> r == Unhandled(Int32OverflowMessage, [])
    ensures !NumbersReadable(body) || MissingMembers(body) != [] ==>
      r == Completed(BadRequest(ModelStateBody(BindUpdate(body, nullableContext).modelState)), [])
    ensures BindUpdate(body, nullableContext).Bound? && !BindUpdate(body, nullableContext).modelState.IsValid() ==>
      r == Completed(BadRequest(ModelStateBody(BindUpdate(body, nullableContext).modelState)), [])
    ensures BindUpdate(body, nullableContext).Bound? && NumbersReadable(body) && MissingMembers(body) == []
      ==> r == UpdateEmployee(BindUpdate(body, nullableContext).modelState, BindUpdate(body, nullableContext).dto.value)
  {
    match BindUpdate(body, nullableContext)
    case ValidatorThrew(message) => Unhandled(message, [])
    case Bound(ms, None) => Completed(BadRequest(ModelStateBody(ms)), [])
    case Bound(ms, Some(dto)) => UpdateEmployee(ms, dto)
  }

  /** What can escape Update once binding has run: the id, name or
      department message or the conversion overflow, never the salary
      message; with nullable reference types only the id message or the
      overflow. The data layer is reached exactly for a valid body that
      passes every business check. */
  lemma UpdateWithValidation(body: UpdateEmployeeBody, nullableContext: bool)
    ensures UpdateRequest(body, nullableContext).Unhandled? ==>
      UpdateRequest(body, nullableContext).message in {InvalidId, NameEmpty, DepartmentEmpty, Int32OverflowMessage}
    ensures nullableContext && UpdateRequest(body, nullableContext).Unhandled? ==>
      UpdateRequest(body, nullableContext).message in {InvalidId, Int32OverflowMessage}
    ensures UpdateRequest(body, nullableContext).calls != [] <==>
      && BindUpdate(body, nullableContext).Bound?
      && BindUpdate(body, nullableContext).modelState.IsValid()
      && UpdateViolations(BindUpdate(body, nullableContext).dto.value) == []
    ensures UpdateRequest(body, nullableContext).calls != [] ==> 0 < body.id <= IntMaxValue
  {
    var b := BindUpdate(body, nullableContext);
    if b.Bound? && b.modelState.IsValid() {
      SalaryCheckUnreachable(body, nullableContext);
    }
  }

  /** A left-out name and a null name are different requests: the first is
      a 400 from binding, the second binds (without nullable reference
      types, and with an id the reader can hold) and escapes from the
      business layer as "Name cannot be empty.". */
  lemma AbsentVersusNullName(body: UpdateEmployeeBody)
    requires body.id > 0 && body.department.Given? && 1.0 <= body.salary <= 1000000.0
    ensures StatusCode(UpdateRequest(body.(name := Absent), false).result) == 400
    ensures body.id <= IntMaxValue ==> UpdateRequest(body.(name := Null), false) == Unhandled(NameEmpty, [])
    ensures body.id > IntMaxValue ==> StatusCode(UpdateRequest(body.(name := Null), false).result) == 400
    ensures StatusCode(UpdateRequest(body.(name := Null), true).result) == 400
  {
  }
}
