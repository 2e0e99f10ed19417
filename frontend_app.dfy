/** The single-page employee screen: its toast list, its add/edit dialog and
    form, the rule that routes a save to update or add, and the search. The
    page's state is a class whose fields the handlers reassign; the HTTP
    requests it issues are recorded, and what the server answers, whether
    the user confirms, and the clock (`Date.now()`) are parameters. */
module FrontendApp {
  import opened Wrappers
  import opened Text

  const LoadFailedText: string := "Failed to load employees"
  const DeletedText: string := "Employee deleted successfully"
  const DeleteFailedText: string := "Failed to delete employee"
  const UpdatedText: string := "Employee updated successfully"
  const AddedText: string := "Employee added successfully"
  const SaveFailedText: string := "Failed to save employee"

  /** A form field's JavaScript value: text typed into an input, or a number
      copied from an employee loaded from the server. */
  datatype JsValue = JsStr(s: string) | JsNum(n: real)

  /** JavaScript truthiness of a string or (non-NaN) number: the only falsy
      values of the two types are "" and 0. */
  predicate Truthy(v: JsValue): (r: bool)
    ensures r <==> v != JsStr("") && v != JsNum(0.0)
  {
    match v
    case JsStr(s) => s != ""
    case JsNum(n) => n != 0.0
  }

  /** An employee as the list endpoint returns it. */
  datatype Employee = Employee(id: int, name: string, department: string, salary: Option<real>)

  // ---------------------------------------------------------------- toasts

  datatype Toast = Toast(id: int, message: string, kind: string)

  /** `toasts.filter((t) => t.id !== id)` */
  function Without(ts: seq<Toast>, id: int): (r: seq<Toast>)
    ensures |r| <= |ts|
    ensures forall t :: t in r <==> t in ts && t.id != id
  {
    if ts == [] then []
    else (if ts[0].id != id then [ts[0]] else []) + Without(ts[1..], id)
  }

  lemma {:induction false} WithoutAppend(a: seq<Toast>, b: seq<Toast>, id: int)
    ensures Without(a + b, id) == Without(a, id) + Without(b, id)
  {
    if a != [] {
      assert (a + b)[1..] == a[1..] + b;
      WithoutAppend(a[1..], b, id);
    } else {
      assert a + b == b;
    }
  }

  /** Removing an id no toast carries leaves the list as it was. */
  lemma {:induction false} WithoutAbsent(ts: seq<Toast>, id: int)
    requires forall i :: 0 <= i < |ts| ==> ts[i].id != id
    ensures Without(ts, id) == ts
  {
    if ts != [] {
      WithoutAbsent(ts[1..], id);
      assert [ts[0]] + ts[1..] == ts;
    }
  }

  /** Removal is order-preserving: the toasts kept appear in the same
      relative order, and a second removal of the same id changes nothing. */
  lemma {:induction false} WithoutIdempotent(ts: seq<Toast>, id: int)
    ensures Without(Without(ts, id), id) == Without(ts, id)
  {
    var r := Without(ts, id);
    forall i | 0 <= i < |r| ensures r[i].id != id {
      assert r[i] in r;
    }
    WithoutAbsent(r, id);
  }

  /** Showing a toast with an id not yet in use and then closing it
      restores the list. */
  lemma ShowThenRemove(ts: seq<Toast>, t: Toast)
    requires forall i :: 0 <= i < |ts| ==> ts[i].id != t.id
    ensures Without(ts + [t], t.id) == ts
  {
    WithoutAppend(ts, [t], t.id);
    WithoutAbsent(ts, t.id);
    assert Without([t], t.id) == [];
  }

  /** Ids come from the millisecond clock, so two toasts shown in the same
      millisecond share an id, and closing either closes both. */
  lemma SameMillisecondToastsCloseTogether(ts: seq<Toast>, now: int, m1: string, k1: string, m2: string, k2: string)
    ensures Without(ts + [Toast(now, m1, k1), Toast(now, m2, k2)], now) == Without(ts, now)
  {
    WithoutAppend(ts, [Toast(now, m1, k1), Toast(now, m2, k2)], now);
  }

  // ------------------------------------------------------------------ form

  datatype Form = Form(id: int, name: string, department: string, salary: JsValue)

  /** The form of a fresh "Add" dialog. */
  const BlankForm: Form := Form(0, "", "", JsStr(""))

  /** The dialog's `initialData`; each member may be null or undefined. */
  datatype InitialData = InitialData(
    id: Option<int>,
    name: Option<string>,
    department: Option<string>,
    salary: Option<JsValue>)

  /** The form the dialog's effect resets to: the blank form without
      initial data, otherwise each member of the data with the blank
      form's value as the fallback. */
  function ResetForm(initial: Option<InitialData>): (f: Form)
    ensures initial.None? ==> f == BlankForm
    ensures initial.Some? ==>
      && f.id == initial.value.id.GetOr(BlankForm.id)
      && f.name == initial.value.name.GetOr(BlankForm.name)
      && f.department == initial.value.department.GetOr(BlankForm.department)
      && f.salary == initial.value.salary.GetOr(BlankForm.salary)
  {
    match initial
    case None => Form(0, "", "", JsStr(""))
    case Some(d) => Form(d.id.GetOr(0), d.name.GetOr(""), d.department.GetOr(""), d.salary.GetOr(JsStr("")))
  }

  /** The data an edit opens with: the employee's own members. */
  function InitialOf(e: Employee): InitialData {
    InitialData(Some(e.id), Some(e.name), Some(e.department),
                match e.salary case Some(n) => Some(JsNum(n)) case None => None)
  }

  /** Initial data with every member missing yields the blank form, and
      editing an employee shows exactly its values. */
  lemma ResetFormFallbacks(e: Employee)
    ensures ResetForm(Some(InitialData(None, None, None, None))) == ResetForm(None)
    ensures ResetForm(Some(InitialOf(e))).id == e.id
    ensures ResetForm(Some(InitialOf(e))).name == e.name
    ensures ResetForm(Some(InitialOf(e))).department == e.department
    ensures e.salary.Some? ==> ResetForm(Some(InitialOf(e))).salary == JsNum(e.salary.value)
  {
  }

  /** What the dialog hands to `onSave`; the salary is the result of the
      page's float conversion, which is left abstract. */
  datatype SavePayload = SavePayload(id: int, name: string, department: string, salary: real)

  /** `handleSubmit`: nothing when the trimmed name or department is empty or
      the salary is falsy; otherwise the form with its salary converted. */
  function Submit(form: Form, parseFloat: JsValue -> real): (r: Option<SavePayload>)
    ensures r.None? <==> Trim(form.name) == "" || Trim(form.department) == "" || !Truthy(form.salary)
    ensures r.Some? ==> r.value == SavePayload(form.id, form.name, form.department, parseFloat(form.salary))
  {
    if Trim(form.name) == "" || Trim(form.department) == "" || !Truthy(form.salary) then None
    else Some(SavePayload(form.id, form.name, form.department, parseFloat(form.salary)))
  }

  /** Submit goes ahead exactly when name and department each hold a
      character that is not white space and the salary is filled in; in
      particular a fresh Add form is never submitted, and neither is an
      edit of an employee whose salary is 0 until the salary is retyped. */
  lemma SubmitGuard(form: Form, parseFloat: JsValue -> real, e: Employee)
    ensures Submit(form, parseFloat).Some?
      <==> !AllJsWhiteSpace(form.name) && !AllJsWhiteSpace(form.department) && Truthy(form.salary)
    ensures Submit(BlankForm, parseFloat).None?
    ensures e.salary == Some(0.0) ==> Submit(ResetForm(Some(InitialOf(e))), parseFloat).None?
  {
  }

  // ---------------------------------------------------------------- saving

  /** The body of an add request: the payload without its id. */
  datatype NewEmployee = NewEmployee(name: string, department: string, salary: real)

  /** Query criteria for the list request; a missing one is not sent. */
  datatype Filters = Filters(id: Option<int>, name: Option<string>, department: Option<string>, salary: Option<real>)

  const NoFilters: Filters := Filters(None, None, None, None)

  /** An HTTP request the page issues. */
  datatype ApiRequest =
    | GetList(filters: Filters)
    | PostAdd(added: NewEmployee)
    | PutUpdate(updated: SavePayload)
    | DeleteById(deletedId: int)

  /** `handleSave`'s routing: update when the id is truthy (non-zero),
      otherwise add with the id removed. */
  function SaveRequest(e: SavePayload): (r: ApiRequest)
    ensures r.PutUpdate? || r.PostAdd?
    ensures r.PutUpdate? <==> e.id != 0
    ensures r.PutUpdate? ==> r.updated == e
    ensures r.PostAdd? ==> SavePayload(0, r.added.name, r.added.department, r.added.salary) == e
  {
    if e.id != 0 then PutUpdate(e)
    else PostAdd(NewEmployee(e.name, e.department, e.salary))
  }

  /** `handleSearch`: the name criterion only when the search box is not empty. */
  function SearchFilters(searchName: string): (f: Filters)
    ensures f.name.Some? <==> searchName != ""
    ensures f.name.Some? ==> f.name.value == searchName
    ensures f.id.None? && f.department.None? && f.salary.None?
  {
    Filters(None, if searchName != "" then Some(searchName) else None, None, None)
  }

  /** Searching with an empty box asks for the same list as the initial load. */
  lemma EmptySearchIsFullList()
    ensures SearchFilters("") == NoFilters
  {
  }

  /** The server's answer to a list request. */
  datatype ListAnswer = Failed | Answered(data: Option<seq<Employee>>)

  // ------------------------------------------------------------ page state

  class App {
    var employees: seq<Employee>
    var loading: bool
    var dialogOpen: bool
    var selected: Option<Employee>
    var searchName: string
    var toasts: seq<Toast>
    var requests: seq<ApiRequest>

    /** The state the page starts in, before its mount effect loads the list. */
    constructor ()
      ensures employees == [] && !loading && !dialogOpen && selected == None
      ensures searchName == "" && toasts == [] && requests == []
    {
      employees, loading, dialogOpen, selected := [], false, false, None;
      searchName, toasts, requests := "", [], [];
    }

    /** `showToast`: appends one toast at the end; the kind defaults to "success". */
    method ShowToast(message: string, kind: Option<string>, now: int)
      modifies this`toasts
      ensures toasts == old(toasts) + [Toast(now, message, kind.GetOr("success"))]
    {
      toasts := toasts + [Toast(now, message, kind.GetOr("success"))];
    }

    /** `removeToast`: drops every toast with that id, keeping the rest in order. */
    method RemoveToast(id: int)
      modifies this`toasts
      ensures toasts == Without(old(toasts), id)
    {
      toasts := Without(toasts, id);
    }

    /** `loadEmployees`: one list request; the answer's data (or [] for a
        null body) replaces the list, a failure shows an error toast. */
    method LoadEmployees(filters: Filters, answer: ListAnswer, now: int)
      modifies this`employees, this`loading, this`toasts, this`requests
      ensures requests == old(requests) + [GetList(filters)]
      ensures !loading
      ensures answer.Answered? ==> employees == answer.data.GetOr([]) && toasts == old(toasts)
      ensures answer.Failed? ==> employees == old(employees)
      ensures answer.Failed? ==> toasts == old(toasts) + [Toast(now, LoadFailedText, "error")]
    {
      loading := true;
      requests := requests + [GetList(filters)];
      match answer {
        case Answered(data) =>
          employees := data.GetOr([]);
        case Failed =>
          ShowToast(LoadFailedText, Some("error"), now);
      }
      loading := false;
    }

    /** "Add Employee": opens the dialog with no initial data. */
    method HandleAddClick()
      modifies this`selected, this`dialogOpen
      ensures selected == None && dialogOpen
    {
      selected := None;
      dialogOpen := true;
    }

    /** The edit button: opens the dialog on that employee. */
    method HandleEditClick(emp: Employee)
      modifies this`selected, this`dialogOpen
      ensures selected == Some(emp) && dialogOpen
    {
      selected := Some(emp);
      dialogOpen := true;
    }

    /** The dialog's Cancel button. */
    method CloseDialog()
      modifies this`dialogOpen
      ensures !dialogOpen
    {
      dialogOpen := false;
    }

    /** `handleDeleteClick`: nothing unless the user confirms; then a delete
        request, and on success a reload followed by a success toast, on
        failure an error toast. */
    method HandleDeleteClick(id: int, confirmed: bool, deleted: bool, answer: ListAnswer, now1: int, now2: int)
      modifies this`employees, this`loading, this`toasts, this`requests
      ensures !confirmed ==>
        requests == old(requests) && toasts == old(toasts) && employees == old(employees) && loading == old(loading)
      ensures confirmed && !deleted ==>
        && requests == old(requests) + [DeleteById(id)]
        && toasts == old(toasts) + [Toast(now1, DeleteFailedText, "error")]
        && employees == old(employees) && loading == old(loading)
      ensures confirmed && deleted ==>
        && requests == old(requests) + [DeleteById(id), GetList(NoFilters)]
        && toasts == old(toasts)
                     + (if answer.Failed? then [Toast(now1, LoadFailedText, "error")] else [])
                     + [Toast(now2, DeletedText, "success")]
        && employees == (if answer.Answered? then answer.data.GetOr([]) else old(employees))
        && !loading
    {
      if !confirmed {
        return;
      }
      requests := requests + [DeleteById(id)];
      if deleted {
        LoadEmployees(NoFilters, answer, now1);
        ShowToast(DeletedText, Some("success"), now2);
      } else {
        ShowToast(DeleteFailedText, Some("error"), now1);
      }
    }

    /** `handleSave`: exactly one update-or-add request routed by the id; on
        success a success toast, the dialog closed and the list reloaded; on
        failure the dialog stays as it was and one error toast is shown. */
    method HandleSave(e: SavePayload, saved: bool, answer: ListAnswer, now1: int, now2: int)
      modifies this`employees, this`loading, this`dialogOpen, this`toasts, this`requests
      ensures !saved ==>
        && requests == old(requests) + [SaveRequest(e)]
        && toasts == old(toasts) + [Toast(now1, SaveFailedText, "error")]
        && dialogOpen == old(dialogOpen) && employees == old(employees) && loading == old(loading)
      ensures saved ==>
        && requests == old(requests) + [SaveRequest(e), GetList(NoFilters)]
        && toasts == old(toasts)
                     + [Toast(now1, if e.id != 0 then UpdatedText else AddedText, "success")]
                     + (if answer.Failed? then [Toast(now2, LoadFailedText, "error")] else [])
        && !dialogOpen
        && employees == (if answer.Answered? then answer.data.GetOr([]) else old(employees))
        && !loading
    {
      var request := SaveRequest(e);
      requests := requests + [request];
      if saved {
        if request.PutUpdate? {
          ShowToast(UpdatedText, Some("success"), now1);
        } else {
          ShowToast(AddedText, Some("success"), now1);
        }
        dialogOpen := false;
        LoadEmployees(NoFilters, answer, now2);
      } else {
        ShowToast(SaveFailedText, Some("error"), now1);
      }
    }

    /** Typing into the search box. */
    method SetSearchName(text: string)
      modifies this`searchName
      ensures searchName == text
    {
      searchName := text;
    }

    /** `handleSearch`: reloads with the name criterion built from the box. */
    method HandleSearch(answer: ListAnswer, now: int)
      modifies this`employees, this`loading, this`toasts, this`requests
      ensures requests == old(requests) + [GetList(SearchFilters(searchName))]
      ensures answer.Answered? ==> employees == answer.data.GetOr([]) && toasts == old(toasts)
      ensures answer.Failed? ==> employees == old(employees)
      ensures answer.Failed? ==> toasts == old(toasts) + [Toast(now, LoadFailedText, "error")]
      ensures !loading
    {
      LoadEmployees(SearchFilters(searchName), answer, now);
    }
  }
}
