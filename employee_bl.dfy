/** The business layer: guard checks on each request, run in a fixed order,
    the first failing one thrown as an `ArgumentException`, and otherwise a
    single call forwarded to the data layer. The data layer is a recorder of
    the calls issued; what it answers is supplied by the environment. */
module EmployeeBL {
  import opened Wrappers
  import opened Text
  import opened Dtos

  const NameEmpty: string := "Name cannot be empty."
  const DepartmentEmpty: string := "Department cannot be empty."
  const SalaryNotPositive: string := "Salary must be greater than zero."
  const InvalidId: string := "Invalid employee ID."

  /** A call issued to the data layer. */
  datatype DalCall =
    | DalGetList(filter: EmployeeFilterDto)
    | DalAdd(add: AddEmployeeDto)
    | DalUpdate(update: UpdateEmployeeDto)
    | DalDelete(delete: DeleteEmployeeDto)

  /** How a business-layer method ends: it returns, or it throws an
      `ArgumentException` carrying `message`. */
  datatype Outcome<+T> = Returned(value: T) | Threw(message: string)

  /** One business-layer invocation: its outcome and the data-layer calls it made. */
  datatype Run<+T> = Run(outcome: Outcome<T>, calls: seq<DalCall>)

  /** Every check an Add request fails, in the order the checks are listed.
      This is a reference that keeps going after the first failure. */
  function AddViolations(dto: AddEmployeeDto): seq<string> {
    (if IsNullOrWhiteSpace(dto.name) then [NameEmpty] else [])
    + (if IsNullOrWhiteSpace(dto.department) then [DepartmentEmpty] else [])
    + (if dto.salary <= 0.0 then [SalaryNotPositive] else [])
  }

  /** The Add checks of an Update request's fields. */
  function AddPart(dto: UpdateEmployeeDto): AddEmployeeDto {
    AddEmployeeDto(dto.name, dto.department, dto.salary)
  }

  /** Every check an Update request fails, in order: the id check, then the
      same field checks as Add. */
  function UpdateViolations(dto: UpdateEmployeeDto): seq<string> {
    (if dto.id <= 0 then [InvalidId] else []) + AddViolations(AddPart(dto))
  }

  /** GetEmployees: hands the filter to the data layer and returns its
      answer untouched. */
  function GetEmployees(dal: EmployeeFilterDto -> seq<GetEmployeeDto>, filter: EmployeeFilterDto)
    : (r: Run<seq<GetEmployeeDto>>)
    ensures r.outcome == Returned(dal(filter))
    ensures r.calls == [DalGetList(filter)]
  {
    Run(Returned(dal(filter)), [DalGetList(filter)])
  }

  /** AddEmployee; `newId` is what the data layer answers for the insert. */
  function AddEmployee(dto: AddEmployeeDto, newId: int): (r: Run<int>)
    ensures r.calls == if AddViolations(dto) == [] then [DalAdd(dto)] else []
    ensures r.outcome == if AddViolations(dto) == [] then Returned(newId) else Threw(AddViolations(dto)[0])
  {
    if IsNullOrWhiteSpace(dto.name) then Run(Threw(NameEmpty), [])
    else if IsNullOrWhiteSpace(dto.department) then Run(Threw(DepartmentEmpty), [])
    else if dto.salary <= 0.0 then Run(Threw(SalaryNotPositive), [])
    else Run(Returned(newId), [DalAdd(dto)])
  }

  /** UpdateEmployee (returns nothing, so its value is `()`). */
  function UpdateEmployee(dto: UpdateEmployeeDto): (r: Run<()>)
    ensures r.calls == if UpdateViolations(dto) == [] then [DalUpdate(dto)] else []
    ensures r.outcome == if UpdateViolations(dto) == [] then Returned(()) else Threw(UpdateViolations(dto)[0])
  {
    if dto.id <= 0 then Run(Threw(InvalidId), [])
    else if IsNullOrWhiteSpace(dto.name) then Run(Threw(NameEmpty), [])
    else if IsNullOrWhiteSpace(dto.department) then Run(Threw(DepartmentEmpty), [])
    else if dto.salary <= 0.0 then Run(Threw(SalaryNotPositive), [])
    else Run(Returned(()), [DalUpdate(dto)])
  }

  /** DeleteEmployee: only the id is checked. */
  function DeleteEmployee(dto: DeleteEmployeeDto): (r: Run<()>)
    ensures r.outcome.Threw? <==> dto.id <= 0
    ensures r.outcome.Threw? ==> r.outcome.message == InvalidId && r.calls == []
    ensures r.outcome.Returned? ==> r.calls == [DalDelete(dto)]
  {
    if dto.id <= 0 then Run(Threw(InvalidId), [])
    else Run(Returned(()), [DalDelete(dto)])
  }

  /** The four messages are pairwise different, so the message names the
      check that failed. */
  lemma MessagesDistinct()
    ensures NameEmpty != DepartmentEmpty && NameEmpty != SalaryNotPositive && NameEmpty != InvalidId
    ensures DepartmentEmpty != SalaryNotPositive && DepartmentEmpty != InvalidId
    ensures SalaryNotPositive != InvalidId
  {
    assert NameEmpty[0] != DepartmentEmpty[0] && NameEmpty[0] != SalaryNotPositive[0];
    assert NameEmpty[0] != InvalidId[0] && DepartmentEmpty[0] != SalaryNotPositive[0];
    assert DepartmentEmpty[0] != InvalidId[0] && SalaryNotPositive[0] != InvalidId[0];
  }

  /** Add: a blank name is reported whatever the other fields hold; a blank
      department only when the name is fine; a non-positive salary only
      when name and department are fine. */
  lemma AddCheckOrder(dto: AddEmployeeDto, newId: int)
    ensures IsNullOrWhiteSpace(dto.name) ==> AddEmployee(dto, newId) == Run(Threw(NameEmpty), [])
    ensures !IsNullOrWhiteSpace(dto.name) && IsNullOrWhiteSpace(dto.department)
      ==> AddEmployee(dto, newId) == Run(Threw(DepartmentEmpty), [])
    ensures !IsNullOrWhiteSpace(dto.name) && !IsNullOrWhiteSpace(dto.department) && dto.salary <= 0.0
      ==> AddEmployee(dto, newId) == Run(Threw(SalaryNotPositive), [])
  {
  }

  /** Update: an id <= 0 is reported before any field is looked at; with a
      positive id the outcome is exactly Add's for the same fields. */
  lemma UpdateIdCheckFirst(dto: UpdateEmployeeDto, newId: int)
    ensures dto.id <= 0 ==> UpdateEmployee(dto) == Run(Threw(InvalidId), [])
    ensures dto.id > 0 ==> (UpdateEmployee(dto).outcome.Threw? <==> AddEmployee(AddPart(dto), newId).outcome.Threw?)
    ensures dto.id > 0 && UpdateEmployee(dto).outcome.Threw?
      ==> UpdateEmployee(dto).outcome.message == AddEmployee(AddPart(dto), newId).outcome.message
  {
  }

  /** A request whose first failing check is the same gets the same error,
      whatever the later fields hold. */
  lemma FirstFailureDecides(d1: AddEmployeeDto, d2: AddEmployeeDto, id1: int, id2: int)
    requires AddViolations(d1) != [] && AddViolations(d2) != []
    requires AddViolations(d1)[0] == AddViolations(d2)[0]
    ensures AddEmployee(d1, id1) == AddEmployee(d2, id2)
  {
  }

  /** No data-layer call is made by a request that fails a check, and
      exactly one is made by one that passes them all. */
  lemma ValidationGatesDataLayer(add: AddEmployeeDto, newId: int, upd: UpdateEmployeeDto, del: DeleteEmployeeDto)
    ensures AddEmployee(add, newId).outcome.Threw? <==> AddEmployee(add, newId).calls == []
    ensures UpdateEmployee(upd).outcome.Threw? <==> UpdateEmployee(upd).calls == []
    ensures DeleteEmployee(del).outcome.Threw? <==> DeleteEmployee(del).calls == []
    ensures |AddEmployee(add, newId).calls| <= 1 && |UpdateEmployee(upd).calls| <= 1
    ensures |DeleteEmployee(del).calls| <= 1
  {
  }

  /** Model validation and the business layer together: a body that binds
      with a valid model state has a salary above 0.5, so the salary check
      never fires for it; only the id, name or department checks can. When
      the project compiles with nullable reference types, the name and
      department checks cannot fire either, and only the id check remains. */
  lemma SalaryCheckUnreachable(body: UpdateEmployeeBody, nullableContext: bool)
    requires BindUpdate(body, nullableContext).Bound? && BindUpdate(body, nullableContext).modelState.IsValid()
    ensures BindUpdate(body, nullableContext).dto.Some?
    ensures SalaryNotPositive !in UpdateViolations(BindUpdate(body, nullableContext).dto.value)
    ensures nullableContext ==> UpdateViolations(BindUpdate(body, nullableContext).dto.value) <= [InvalidId]
  {
    MessagesDistinct();
  }
}
