/** The request and response records of the employee API, and how
    ASP.NET Core turns the body of PUT UpdateEmployee into an
    `UpdateEmployeeDto` and a model state before the action runs.
    Salaries are C# `decimal`s, modelled as `real` within decimal's range. */
module Dtos {
  import opened Wrappers
  import opened Text

  /** `int.MaxValue` and `int.MinValue` */
  const IntMaxValue: int := 0x7FFF_FFFF
  const IntMinValue: int := -0x8000_0000

  /** `decimal.MaxValue`, 2^96 - 1; `decimal.MinValue` is its negation. */
  const DecimalMaxValue: int := 79_228_162_514_264_337_593_543_950_335

  /** The error message attached to the `Range` annotation on `Salary`. */
  const SalaryRangeMessage: string := "Salary must be greater than zero."

  /** The message of the `OverflowException` of a decimal-to-int conversion. */
  const Int32OverflowMessage: string := "Value was either too large or too small for an Int32."

  /** `UpdateEmployeeDto` once bound: a `string` member may hold null. */
  datatype UpdateEmployeeDto = UpdateEmployeeDto(
    id: int,
    name: Option<string>,
    department: Option<string>,
    salary: real)

  /** Body of POST AddEmployee, with the members the data layer reads. */
  datatype AddEmployeeDto = AddEmployeeDto(
    name: Option<string>,
    department: Option<string>,
    salary: real)

  /** Body of DELETE DeleteEmployee. */
  datatype DeleteEmployeeDto = DeleteEmployeeDto(id: int)

  /** Query of GET GetEmployeeList; every criterion is optional. */
  datatype EmployeeFilterDto = EmployeeFilterDto(
    id: Option<int>,
    name: Option<string>,
    department: Option<string>,
    salary: Option<real>)

  /** One row of the employee list. */
  datatype GetEmployeeDto = GetEmployeeDto(
    id: int,
    name: string,
    department: string,
    salary: Option<real>)

  /** A member of a JSON request body: left out, given as null, or given a value. */
  datatype Member<+T> = Absent | Null | Given(value: T)

  function ValueOf<T>(m: Member<T>): Option<T> {
    match m
    case Given(v) => Some(v)
    case _ => None
  }

  /** The JSON body of PUT UpdateEmployee, its numbers as written in the
      text. `Name` and `Department` are C# `required` members; a left-out
      `Id` or `Salary` reads as 0, which the caller passes as 0. */
  datatype UpdateEmployeeBody = UpdateEmployeeBody(
    id: int,
    name: Member<string>,
    department: Member<string>,
    salary: real)

  datatype ModelError =
    | Unreadable(member: string)
    | MissingRequired(members: seq<string>)
    | RequiredViolated(member: string)
    | RangeViolated(member: string, message: string)

  /** What `ModelState` holds once binding and validation are done. */
  datatype ModelState = ModelState(errors: seq<ModelError>) {
    predicate IsValid() {
      |errors| == 0
    }
  }

  /** Binding and validating a body: the model state and the DTO the action
      receives (none when the body could not be read), or the exception a
      validator let escape. */
  datatype Binding =
    | Bound(modelState: ModelState, dto: Option<UpdateEmployeeDto>)
    | ValidatorThrew(message: string)

  /** Rounding to the nearest integer, halves to the even neighbour, as
      `decimal.Round(d, 0)` does. */
  function RoundHalfEven(d: real): (n: int)
    ensures d - 0.5 <= n as real <= d + 0.5
    ensures n as real == d - 0.5 || n as real == d + 0.5 ==> n % 2 == 0
  {
    var f := d.Floor;
    var frac := d - f as real;
    if frac < 0.5 then f
    else if frac > 0.5 then f + 1
    else if f % 2 == 0 then f
    else f + 1
  }

  datatype RangeCheck = InRange | OutOfRange | ConversionOverflow

  /** `[Range(1, int.MaxValue)]` on a decimal: the value is converted with
      `Convert.ToInt32` (rounding half to even, throwing outside the int
      range, an exception the attribute does not catch) and the integer is
      compared with the bounds. So exactly the salaries strictly between
      0.5 and int.MaxValue + 0.5 pass. */
  function SalaryRange(salary: real): (c: RangeCheck)
    ensures c == InRange <==> 0.5 < salary < IntMaxValue as real + 0.5
    ensures c == ConversionOverflow <==> salary >= IntMaxValue as real + 0.5 || salary < IntMinValue as real - 0.5
  {
    var n := RoundHalfEven(salary);
    if n < IntMinValue || n > IntMaxValue then ConversionOverflow
    else if 1 <= n <= IntMaxValue then InRange
    else OutOfRange
  }

  /** Whether the JSON reader can read the body's numbers: `Id` into an
      `int`, `Salary` into a `decimal`. */
  predicate NumbersReadable(body: UpdateEmployeeBody) {
    && IntMinValue <= body.id <= IntMaxValue
    && -DecimalMaxValue as real <= body.salary <= DecimalMaxValue as real
  }

  /** The `required` members a body leaves out. */
  function MissingMembers(body: UpdateEmployeeBody): seq<string> {
    (if body.name.Absent? then ["Name"] else [])
    + (if body.department.Absent? then ["Department"] else [])
  }

  /** Binding of the Update body. A number the JSON reader cannot hold in
      its member's type fails the read at once; a body that leaves out a
      `required` member is rejected whole once it has been read. Either
      way there is one error and no DTO. Otherwise the DTO's annotations are checked: the `Range` on
      `Salary`, and, when the project compiles with nullable reference
      types (`nullableContext`), the implicit `[Required]` of the
      non-nullable strings, which rejects null and blank text. */
  function BindUpdate(body: UpdateEmployeeBody, nullableContext: bool): (b: Binding)
    ensures !(IntMinValue <= body.id <= IntMaxValue) ==> b == Bound(ModelState([Unreadable("Id")]), None)
    ensures IntMinValue <= body.id <= IntMaxValue && !(-DecimalMaxValue as real <= body.salary <= DecimalMaxValue as real)
      ==> b == Bound(ModelState([Unreadable("Salary")]), None)
    ensures NumbersReadable(body) && MissingMembers(body) != [] ==>
      b == Bound(ModelState([MissingRequired(MissingMembers(body))]), None)
    ensures b.ValidatorThrew? <==>
      NumbersReadable(body) && MissingMembers(body) == [] && SalaryRange(body.salary) == ConversionOverflow
    ensures b.ValidatorThrew? ==> b.message == Int32OverflowMessage
    ensures b.Bound? && b.modelState.IsValid() <==>
      && IntMinValue <= body.id <= IntMaxValue
      && MissingMembers(body) == []
      && 0.5 < body.salary < IntMaxValue as real + 0.5
      && (nullableContext ==> !IsNullOrWhiteSpace(ValueOf(body.name)) && !IsNullOrWhiteSpace(ValueOf(body.department)))
    ensures b.Bound? && b.dto.Some? <==> NumbersReadable(body) && MissingMembers(body) == [] && b.Bound?
    ensures b.Bound? && b.dto.Some? ==>
      b.dto.value == UpdateEmployeeDto(body.id, ValueOf(body.name), ValueOf(body.department), body.salary)
  {
    if !(IntMinValue <= body.id <= IntMaxValue) then
      Bound(ModelState([Unreadable("Id")]), None)
    else if !(-DecimalMaxValue as real <= body.salary <= DecimalMaxValue as real) then
      Bound(ModelState([Unreadable("Salary")]), None)
    else if MissingMembers(body) != [] then
      Bound(ModelState([MissingRequired(MissingMembers(body))]), None)
    else
      var dto := UpdateEmployeeDto(body.id, ValueOf(body.name), ValueOf(body.department), body.salary);
      match SalaryRange(body.salary)
      case ConversionOverflow => ValidatorThrew(Int32OverflowMessage)
      case check =>
        Bound(ModelState(
          (if nullableContext && IsNullOrWhiteSpace(dto.name) then [RequiredViolated("Name")] else [])
          + (if nullableContext && IsNullOrWhiteSpace(dto.department) then [RequiredViolated("Department")] else [])
          + (if check == OutOfRange then [RangeViolated("Salary", SalaryRangeMessage)] else [])),
          Some(dto))
  }

  /** Any `int` id, zero and negatives included, passes model validation:
      within the int range the id never changes the outcome of binding
      beyond being copied; outside it the body cannot be read. */
  lemma IdUnconstrained(body: UpdateEmployeeBody, id: int, nullableContext: bool)
    ensures IntMinValue <= body.id <= IntMaxValue && IntMinValue <= id <= IntMaxValue ==>
      && BindUpdate(body.(id := id), nullableContext).ValidatorThrew? == BindUpdate(body, nullableContext).ValidatorThrew?
      && (BindUpdate(body, nullableContext).Bound? ==>
            BindUpdate(body.(id := id), nullableContext).modelState == BindUpdate(body, nullableContext).modelState)
    ensures !(IntMinValue <= id <= IntMaxValue) ==>
      BindUpdate(body.(id := id), nullableContext) == Bound(ModelState([Unreadable("Id")]), None)
  {
  }

  /** Where the salary bounds fall once the conversion rounds: 0.5 rounds
      to 0 and fails, anything above it up to int.MaxValue + 0.5 (exclusive)
      passes, and int.MaxValue + 0.5 rounds to 2^31 and throws. A salary
      beyond decimal's range is not read at all. */
  lemma SalaryBounds(body: UpdateEmployeeBody, nullableContext: bool)
    requires IntMinValue <= body.id <= IntMaxValue
    requires body.name.Given? && body.department.Given?
    requires !IsNullOrWhiteSpace(Some(body.name.value)) && !IsNullOrWhiteSpace(Some(body.department.value))
    ensures !BindUpdate(body.(salary := 0.0), nullableContext).modelState.IsValid()
    ensures !BindUpdate(body.(salary := 0.5), nullableContext).modelState.IsValid()
    ensures BindUpdate(body.(salary := 0.51), nullableContext).modelState.IsValid()
    ensures BindUpdate(body.(salary := 1.0), nullableContext).modelState.IsValid()
    ensures BindUpdate(body.(salary := IntMaxValue as real), nullableContext).modelState.IsValid()
    ensures BindUpdate(body.(salary := IntMaxValue as real + 0.49), nullableContext).modelState.IsValid()
    ensures BindUpdate(body.(salary := IntMaxValue as real + 0.5), nullableContext) == ValidatorThrew(Int32OverflowMessage)
    ensures BindUpdate(body.(salary := DecimalMaxValue as real), nullableContext) == ValidatorThrew(Int32OverflowMessage)
    ensures BindUpdate(body.(salary := DecimalMaxValue as real + 1.0), nullableContext) == Bound(ModelState([Unreadable("Salary")]), None)
  {
  }
}
