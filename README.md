# Employee records: request validation and client state, in Dafny

This project models the logic of a small employee-records application: an
ASP.NET Core API (controller, business layer, request DTO) over a SQL
Server data layer, and two React front ends that list, filter, add, edit
and delete employees.

- **Backend pipeline.** `Dtos` holds the request records and how the Update
  body is bound and validated. A body that leaves out a `required` member
  (`Name`, `Department`) is rejected whole. `Salary` must round to
  1..int.MaxValue, and `Id` is unconstrained. `EmployeeBL` is the business
  layer. Each operation runs its guard checks in a fixed order and reports
  the first failure as an `ArgumentException` (the `Threw` outcome). Only
  when every check passes does it forward one call to the data layer. The
  data layer is a recorder of calls plus what the environment answers: a
  list for a filter, and a new id for an insert. `EmployeeController` maps
  (model-state validity, business-layer outcome) to an HTTP result. Add
  catches the exception and answers 400. Update and Delete let it escape
  (`Unhandled`).
- **Single-page screen** (`FrontendApp`). It covers the toast list (append
  on show, filter by id on close), the dialog form reset and submit guard,
  the save routing (update for a non-zero id, otherwise add without the id),
  and the search. The page state is the class `App`, whose handlers reassign
  its fields and record the HTTP requests they issue. Server answers, the
  user's confirmation and `Date.now()` are parameters.
- **List page** (`EmployeeListPage`). It builds query parameters from the
  four-field filter: `BuildParams` assigns keys one at a time and is proved
  equal to the reference `QueryParams`. The class `EmployeeList` holds the
  list, the filter and the delete-confirmation state. Its invariant is that
  the dialog is open exactly when it holds an id.
- `Text` gives the two meanings of "blank": .NET `string.IsNullOrWhiteSpace`
  and JavaScript `trim()`. Their white-space sets differ at U+0085 and U+FEFF.

Body numbers are taken as written: an `Id` outside the int range or a
`Salary` outside decimal's range cannot be read, and the body is rejected.
Salaries within range are modelled as `real`. The `Range` check's
conversion to `int` (round half to even, with an overflow exception
outside the int range) is modelled; the rounding of parsing itself is not
(see below).
`Wrappers` provides `Option`.

## Model

| member | source | states |
|---|---|---|
| `Dtos.BindUpdate` | backend/MyApiProject/Models/DTOs/UpdateEmployeeDto.cs:7-17 | an Id outside the int range or a Salary outside decimal's range, or a body missing Name or Department, is rejected whole with one error and no DTO; otherwise an overflowing salary makes validation throw, and the model state is valid iff 0.5 < Salary < int.MaxValue + 0.5 and, under nullable reference types, Name and Department are not blank; a bound DTO copies the body |
| `Dtos.RoundHalfEven` | backend/MyApiProject/Models/DTOs/UpdateEmployeeDto.cs:16 | the integer the Range check compares is within 0.5 of the salary, and an exact half goes to the even neighbour |
| `Dtos.SalaryRange` | backend/MyApiProject/Models/DTOs/UpdateEmployeeDto.cs:16 | Range(1, int.MaxValue) passes exactly for 0.5 < Salary < int.MaxValue + 0.5, and throws on overflow (>= int.MaxValue + 0.5 or < int.MinValue - 0.5) |
| `Dtos.IdUnconstrained` | backend/MyApiProject/Models/DTOs/UpdateEmployeeDto.cs:7 | changing one int Id for another, zero or negative too, never changes the model state or whether validation throws; an Id outside the int range makes the body unreadable |
| `Dtos.SalaryBounds` | backend/MyApiProject/Models/DTOs/UpdateEmployeeDto.cs:16-17 | 0 and 0.5 fail; 0.51, 1, int.MaxValue and int.MaxValue + 0.49 pass; int.MaxValue + 0.5 and decimal.MaxValue make validation throw; decimal.MaxValue + 1 cannot be read |
| `EmployeeBL.GetEmployees` | backend/MyApiProject/Business/EmployeeBL.cs:16-19 | pass-through: returns exactly the data layer's list for the same filter, issuing that one call |
| `EmployeeBL.AddEmployee` | backend/MyApiProject/Business/EmployeeBL.cs:22-34 | throws the first of the violated checks (name, department, salary) and calls nothing; with no violation, calls DAL Add once and returns its id unchanged |
| `EmployeeBL.UpdateEmployee` | backend/MyApiProject/Business/EmployeeBL.cs:37-52 | throws the first violated check (id, name, department, salary) with no DAL call; otherwise forwards the DTO once |
| `EmployeeBL.DeleteEmployee` | backend/MyApiProject/Business/EmployeeBL.cs:55-61 | throws "Invalid employee ID." iff Id <= 0, with no call; otherwise forwards the DTO unchanged; no other check |
| `EmployeeBL.MessagesDistinct` | backend/MyApiProject/Business/EmployeeBL.cs:24-49 | the four error messages are pairwise different, so the message names the failing check |
| `EmployeeBL.AddCheckOrder` | backend/MyApiProject/Business/EmployeeBL.cs:24-31 | blank name gives "Name cannot be empty." whatever else; blank department only after a good name; salary <= 0 only after both |
| `EmployeeBL.UpdateIdCheckFirst` | backend/MyApiProject/Business/EmployeeBL.cs:39-49 | Id <= 0 gives "Invalid employee ID." whatever the fields hold; with a positive id Update fails iff Add fails on the same fields, with the same message |
| `EmployeeBL.FirstFailureDecides` | backend/MyApiProject/Business/EmployeeBL.cs:24-33 | two requests whose first failing check is the same end identically, whatever their later fields |
| `EmployeeBL.ValidationGatesDataLayer` | backend/MyApiProject/Business/EmployeeBL.cs:22-61 | for Add, Update and Delete: an exception iff no data-layer call; never more than one call |
| `EmployeeBL.SalaryCheckUnreachable` | backend/MyApiProject/Models/DTOs/UpdateEmployeeDto.cs:16 | a body that binds with a valid model state never fails the business layer's Salary <= 0 check; under nullable reference types only the id check can fail |
| `EmployeeController.GetEmployeeList` | backend/MyApiProject/Controllers/EmployeeController.cs:24-28 | for a query that binds, 200 with exactly the business layer's list for the filter; otherwise the `[ApiController]` (line 8) answer, 400 with the model state and no call |
| `EmployeeController.AddEmployee` | backend/MyApiProject/Controllers/EmployeeController.cs:35-50 | invalid model state: 400 with the model state, no BL call; BL exception: 400 {message}; success: 201 CreatedAtAction(GetEmployeeList, id = newId, {Id = newId}); status is 201 iff valid and no violation |
| `EmployeeController.UpdateEmployee` | backend/MyApiProject/Controllers/EmployeeController.cs:57-65 | invalid model state: 400, no BL call; BL exception escapes the action uncaught; success: 200 "Employee updated successfully" |
| `EmployeeController.DeleteEmployee` | backend/MyApiProject/Controllers/EmployeeController.cs:72-79 | invalid model state: 400, no BL call; Id <= 0 escapes as "Invalid employee ID."; otherwise 200 "Employee deleted successfully" after one DAL delete |
| `EmployeeController.AddStatusDetermined` | backend/MyApiProject/Controllers/EmployeeController.cs:35-50 | Add's status code depends only on model-state validity and whether the BL returns |
| `EmployeeController.AddCatchesUpdateDoesNot` | backend/MyApiProject/Controllers/EmployeeController.cs:35-65 | the same failing fields give 400 {message} on Add but an unhandled exception on Update |
| `EmployeeController.UpdateRequest` | backend/MyApiProject/Controllers/EmployeeController.cs:57-65 | a body is bound first: a validator overflow escapes; an unreadable number, a missing required member or an invalid model state is a 400 with the model state and no call; every bound DTO runs the action |
| `EmployeeController.UpdateWithValidation` | backend/MyApiProject/Controllers/EmployeeController.cs:57-65 | after binding, Update escapes only with the id, name or department message or the overflow, never the salary message (only id or overflow under nullable reference types); it reaches the DAL iff the body binds valid and passes every BL check, and then the Id is in 1..int.MaxValue |
| `EmployeeController.AbsentVersusNullName` | backend/MyApiProject/Controllers/EmployeeController.cs:57-65 | a left-out Name is a 400 from binding, while `"name": null` with an int Id binds and escapes as "Name cannot be empty." (a 400 under nullable reference types, or for an Id beyond int.MaxValue) |
| `Text.TrimStart` | frontend/src/App.jsx:101 | the result is the longest suffix not starting with white space; everything dropped is white space |
| `Text.TrimEnd` | frontend/src/App.jsx:101 | the result is the longest prefix not ending with white space; everything dropped is white space |
| `Text.Trim` | frontend/src/App.jsx:101 | `s.trim()` is empty iff every character of s is JavaScript white space, and otherwise neither starts nor ends with white space |
| `Text.IsNullOrWhiteSpace` | backend/MyApiProject/Business/EmployeeBL.cs:24-45 | `string.IsNullOrWhiteSpace`: true iff the string is null or every character is .NET white space (so "" is blank) |
| `Text.BlankDiffers` | frontend/src/App.jsx:101 | the browser and server disagree on blankness: U+0085 is kept by `trim()` but blank to .NET, U+FEFF the other way round |
| `Text.TrimIdempotent` | frontend/src/App.jsx:101 | trimming twice equals trimming once |
| `FrontendApp.Truthy` | frontend/src/App.jsx:101 | a string or number form value is falsy exactly when it is "" or 0 |
| `FrontendApp.Without` | frontend/src/App.jsx:200-202 | keeps exactly the toasts whose id differs from the argument, never lengthening the list |
| `FrontendApp.WithoutAppend` | frontend/src/App.jsx:201 | filtering distributes over concatenation, so kept toasts stay in their original order |
| `FrontendApp.WithoutAbsent` | frontend/src/App.jsx:201 | removing an id no toast carries leaves the list unchanged |
| `FrontendApp.WithoutIdempotent` | frontend/src/App.jsx:200-202 | removing the same id twice equals removing it once |
| `FrontendApp.ShowThenRemove` | frontend/src/App.jsx:195-202 | showing a toast with an unused id and then closing it restores the list |
| `FrontendApp.SameMillisecondToastsCloseTogether` | frontend/src/App.jsx:196-201 | two toasts shown in the same millisecond share an id, and closing one closes both |
| `FrontendApp.ResetForm` | frontend/src/App.jsx:82-93 | without initial data the form is {id 0, "", "", ""}; with it, each missing member falls back to that default |
| `FrontendApp.ResetFormFallbacks` | frontend/src/App.jsx:82-92 | all-missing initial data equals no initial data; editing an employee shows its id, name, department and salary |
| `FrontendApp.Submit` | frontend/src/App.jsx:100-107 | nothing is saved iff trimmed name or trimmed department is empty or salary is falsy; otherwise the form goes to onSave with the converted salary |
| `FrontendApp.SubmitGuard` | frontend/src/App.jsx:101 | submission happens iff name and department each contain a non-white-space character and salary is filled; a fresh Add form and an edit of a 0-salary employee are refused |
| `FrontendApp.SaveRequest` | frontend/src/App.jsx:246-252 | exactly one of update/add; update iff id is non-zero, carrying the payload as is; add carries the payload minus its (zero) id |
| `FrontendApp.SearchFilters` | frontend/src/App.jsx:262-266 | the name criterion is sent iff the search box is non-empty, with its text; no other criterion is sent |
| `FrontendApp.EmptySearchIsFullList` | frontend/src/App.jsx:263-265 | an empty search asks for the same list as the unfiltered load |
| `FrontendApp.App.constructor` | frontend/src/App.jsx:187-193 | the initial state: no employees, not loading, dialog closed, nothing selected, empty search, no toasts |
| `FrontendApp.App.ShowToast` | frontend/src/App.jsx:195-198 | appends exactly one toast {now, message, type} at the end, type defaulting to "success"; existing toasts unchanged |
| `FrontendApp.App.RemoveToast` | frontend/src/App.jsx:200-202 | the list becomes `Without(old list, id)` |
| `FrontendApp.App.LoadEmployees` | frontend/src/App.jsx:204-215 | one list request; data (or [] for a null body) replaces the list, or an error toast on failure; loading ends false |
| `FrontendApp.App.HandleAddClick` | frontend/src/App.jsx:221-224 | opens the dialog with no selected employee |
| `FrontendApp.App.HandleEditClick` | frontend/src/App.jsx:226-229 | opens the dialog on the chosen employee |
| `FrontendApp.App.CloseDialog` | frontend/src/App.jsx:501 | the dialog is closed |
| `FrontendApp.App.HandleDeleteClick` | frontend/src/App.jsx:231-242 | unconfirmed: nothing; deleted: delete then reload then success toast; failed: one error toast, no reload |
| `FrontendApp.App.HandleSave` | frontend/src/App.jsx:244-260 | one routed request; success: success toast, dialog closed, list reloaded; failure: dialog unchanged and one "Failed to save employee" toast |
| `FrontendApp.App.SetSearchName` | frontend/src/App.jsx:337 | the search box holds the typed text |
| `FrontendApp.App.HandleSearch` | frontend/src/App.jsx:262-266 | reloads with `SearchFilters(searchName)` |
| `EmployeeListPage.BuildParams` | employee-ui/src/pages/EmployeeList.jsx:18-22 | the key-by-key assignments build exactly `QueryParams(f)` |
| `EmployeeListPage.QueryParamsShape` | employee-ui/src/pages/EmployeeList.jsx:18-23 | only Id/Name/Department/Salary occur; each is present iff its field is non-empty, value copied; empty map iff all fields empty |
| `EmployeeListPage.ParamsRoundTrip` | employee-ui/src/pages/EmployeeList.jsx:18-22 | reading the filter back from its query gives the filter: no information is lost |
| `EmployeeListPage.EmployeeList.constructor` | employee-ui/src/pages/EmployeeList.jsx:11-13 | empty list, all-empty filter, dialog closed with no id |
| `EmployeeListPage.EmployeeList.Load` | employee-ui/src/pages/EmployeeList.jsx:16-29 | one list request with `QueryParams(f)`; the answer replaces the list, a failure raises "Failed to load employees" |
| `EmployeeListPage.EmployeeList.EditFilter` | employee-ui/src/pages/EmployeeList.jsx:60-63 | exactly the edited field changes |
| `EmployeeListPage.EmployeeList.OnSearch` | employee-ui/src/pages/EmployeeList.jsx:33 | loads with the current filter |
| `EmployeeListPage.EmployeeList.OnClear` | employee-ui/src/pages/EmployeeList.jsx:35-38 | all four fields become "" and the reload sends no parameter |
| `EmployeeListPage.EmployeeList.AskDelete` | employee-ui/src/pages/EmployeeList.jsx:94 | the confirm state becomes {open: true, id: e.id} |
| `EmployeeListPage.EmployeeList.CancelDelete` | employee-ui/src/pages/EmployeeList.jsx:102-108 | Cancel or close resets the confirm state to {open: false, id: null} |
| `EmployeeListPage.EmployeeList.OnDelete` | employee-ui/src/pages/EmployeeList.jsx:40-49 | issues a delete for the dialog's id, an actual id whenever the dialog was open; success: confirm closed and reload with the current filter; failure: confirm unchanged and a "Delete failed" alert; open iff an id is held is preserved |

## Left out

- Data access (`EmployeeDAL.cs`, `DbHelper.cs`): the SQL connections and stored procedures are not part of this model. The data layer is only a call recorder, with its answers (the list, the new id) as inputs. Database exceptions are not modelled.
- `AddEmployeeDto`, `DeleteEmployeeDto`, `EmployeeFilterDto` and `GetEmployeeDto` are not part of this model as files. Their shapes come from the members the data layer reads. The model state of Add and Delete is a parameter because their annotations are not visible.
- Whether the project compiles with nullable reference types depends on settings that are not shown. It is the `nullableContext` parameter of `Dtos.BindUpdate`, and the lemmas cover both values.
- Dtos.BindUpdate: parsing a JSON number into a `decimal` keeps at most 28 to 29 significant digits, so a salary such as 0.50000000000000000000000000001 reads as 0.5 and fails the Range check, while the model accepts it. Only salaries with few digits are modelled faithfully. How parsing rounds a value within a unit of decimal.MaxValue is not modelled either.
- Dtos.BindUpdate: when both the Id and the Salary are unreadable, the reader reports whichever comes first in the JSON text. The text's member order is not modelled, and the model reports the Id.
- Only the Update body's binding is modelled. For the other actions, and for a query that fails to bind, the model state is a parameter.
- With `[ApiController]`, the framework answers 400 for an invalid model state before the action body runs. The model keeps the actions' own checks, which give the same status, and gives `GetEmployeeList` that answer.
- Escaped exceptions (`Unhandled`) are not given a status code. What the host answers for them is configured outside the controller.
- Program.cs (dependency injection, CORS, middleware), the axios service modules and the routing, theming and toast-context components are wiring and rendering.
- The toast auto-close timer (3 s) and all JSX rendering are not modelled. Closing a toast is modelled as the `RemoveToast` call the timer or button makes.
- `parseFloat(form.salary)` is a parameter of `FrontendApp.Submit`. Float parsing and `NaN` are not modelled, and numeric form values are taken as non-NaN.
- The asynchronous interleaving of React state updates and awaited requests is not modelled. Each handler runs to completion, in program order.
- The add/edit pages with `parseFloat` validation and `Intl.NumberFormat` formatting rely on foreign coercion and formatting.
