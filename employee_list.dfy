/** The employee list page of the routed UI: a four-field filter turned into
    query parameters, the list, and the delete-confirmation dialog. Server
    answers are parameters; the requests issued and the `alert`s shown are
    recorded. */
module EmployeeListPage {
  import opened Wrappers

  const LoadFailedAlert: string := "Failed to load employees"
  const DeleteFailedAlert: string := "Delete failed"

  datatype Employee = Employee(id: int, name: string, department: string, salary: Option<real>)

  /** The filter's four text fields. A field is sent only when truthy, that
      is non-empty; `load({})`, whose fields are all undefined, therefore
      behaves as `load(EmptyFilter)`. */
  datatype ListFilter = ListFilter(id: string, name: string, department: string, salary: string)

  const EmptyFilter: ListFilter := ListFilter("", "", "", "")

  /** The query keys, capitalised as the API expects them. */
  const ParamKeys: set<string> := {"Id", "Name", "Department", "Salary"}

  /** The filter field a query key is built from. */
  function FieldFor(f: ListFilter, key: string): string {
    if key == "Id" then f.id
    else if key == "Name" then f.name
    else if key == "Department" then f.department
    else if key == "Salary" then f.salary
    else ""
  }

  /** The query for a filter, stated key by key: a key is present exactly
      when its field is non-empty, and then carries the field's text. */
  function QueryParams(f: ListFilter): map<string, string> {
    map k | k in ParamKeys && FieldFor(f, k) != "" :: FieldFor(f, k)
  }

  /** `load`'s parameter building: starts from an empty object and assigns
      one key per non-empty field. */
  method BuildParams(f: ListFilter) returns (params: map<string, string>)
    ensures params == QueryParams(f)
  {
    params := map[];
    if f.id != "" {
      params := params["Id" := f.id];
    }
    if f.name != "" {
      params := params["Name" := f.name];
    }
    if f.department != "" {
      params := params["Department" := f.department];
    }
    if f.salary != "" {
      params := params["Salary" := f.salary];
    }
    assert params.Keys == QueryParams(f).Keys;
  }

  /** Only the four keys ever appear; each is present iff its field is
      non-empty, with the value copied unchanged; the empty filter asks for
      no parameter at all, and it is the only filter that does. */
  lemma QueryParamsShape(f: ListFilter)
    ensures QueryParams(f).Keys <= ParamKeys
    ensures ("Id" in QueryParams(f) <==> f.id != "") && ("Id" in QueryParams(f) ==> QueryParams(f)["Id"] == f.id)
    ensures ("Name" in QueryParams(f) <==> f.name != "") && ("Name" in QueryParams(f) ==> QueryParams(f)["Name"] == f.name)
    ensures ("Department" in QueryParams(f) <==> f.department != "")
      && ("Department" in QueryParams(f) ==> QueryParams(f)["Department"] == f.department)
    ensures ("Salary" in QueryParams(f) <==> f.salary != "")
      && ("Salary" in QueryParams(f) ==> QueryParams(f)["Salary"] == f.salary)
    ensures QueryParams(f) == map[] <==> f == EmptyFilter
  {
    if QueryParams(f) == map[] {
      assert "Id" !in QueryParams(f) && "Name" !in QueryParams(f);
      assert "Department" !in QueryParams(f) && "Salary" !in QueryParams(f);
    }
  }

  /** Reads a filter back from a query, a missing key standing for "". */
  function FilterOf(params: map<string, string>): ListFilter {
    ListFilter(
      if "Id" in params then params["Id"] else "",
      if "Name" in params then params["Name"] else "",
      if "Department" in params then params["Department"] else "",
      if "Salary" in params then params["Salary"] else "")
  }

  /** No filter information is lost: the query determines the filter. */
  lemma ParamsRoundTrip(f: ListFilter)
    ensures FilterOf(QueryParams(f)) == f
  {
    QueryParamsShape(f);
  }

  /** The delete-confirmation dialog: open, and the id it asks about. */
  datatype Confirm = Confirm(open: bool, id: Option<int>)

  const Closed: Confirm := Confirm(false, None)

  datatype Request = GetList(params: map<string, string>) | DeleteById(id: Option<int>)

  datatype FilterField = IdField | NameField | DepartmentField | SalaryField

  class EmployeeList {
    var employees: seq<Employee>
    var filter: ListFilter
    var confirm: Confirm
    var requests: seq<Request>
    var alerts: seq<string>

    /** The dialog is open exactly when it holds an id. */
    ghost predicate Valid()
      reads this
    {
      confirm.open <==> confirm.id.Some?
    }

    /** The page's initial state, before its mount effect loads the list. */
    constructor ()
      ensures Valid()
      ensures employees == [] && filter == EmptyFilter && confirm == Closed
      ensures requests == [] && alerts == []
    {
      employees, filter, confirm := [], EmptyFilter, Closed;
      requests, alerts := [], [];
    }

    /** `load`: one list request with the filter's query; the answer
        replaces the list, a failure raises an alert. */
    method Load(f: ListFilter, answer: Option<seq<Employee>>)
      requires Valid()
      modifies this`employees, this`requests, this`alerts
      ensures Valid()
      ensures requests == old(requests) + [GetList(QueryParams(f))]
      ensures answer.Some? ==> employees == answer.value && alerts == old(alerts)
      ensures answer.None? ==> employees == old(employees) && alerts == old(alerts) + [LoadFailedAlert]
    {
      var params := BuildParams(f);
      requests := requests + [GetList(params)];
      if answer.Some? {
        employees := answer.value;
      } else {
        alerts := alerts + [LoadFailedAlert];
      }
    }

    /** Typing into one of the four filter fields. */
    method EditFilter(field: FilterField, text: string)
      requires Valid()
      modifies this`filter
      ensures Valid()
      ensures filter == match field
        case IdField => old(filter).(id := text)
        case NameField => old(filter).(name := text)
        case DepartmentField => old(filter).(department := text)
        case SalaryField => old(filter).(salary := text)
    {
      match field {
        case IdField => filter := filter.(id := text);
        case NameField => filter := filter.(name := text);
        case DepartmentField => filter := filter.(department := text);
        case SalaryField => filter := filter.(salary := text);
      }
    }

    /** `onSearch`: loads with the current filter. */
    method OnSearch(answer: Option<seq<Employee>>)
      requires Valid()
      modifies this`employees, this`requests, this`alerts
      ensures Valid()
      ensures requests == old(requests) + [GetList(QueryParams(filter))]
      ensures answer.Some? ==> employees == answer.value && alerts == old(alerts)
      ensures answer.None? ==> employees == old(employees) && alerts == old(alerts) + [LoadFailedAlert]
    {
      Load(filter, answer);
    }

    /** `onClear`: empties all four fields and reloads with no parameter. */
    method OnClear(answer: Option<seq<Employee>>)
      requires Valid()
      modifies this`filter, this`employees, this`requests, this`alerts
      ensures Valid()
      ensures filter == EmptyFilter
      ensures requests == old(requests) + [GetList(map[])]
      ensures answer.Some? ==> employees == answer.value && alerts == old(alerts)
      ensures answer.None? ==> employees == old(employees) && alerts == old(alerts) + [LoadFailedAlert]
    {
      filter := EmptyFilter;
      QueryParamsShape(EmptyFilter);
      Load(EmptyFilter, answer);
    }

    /** A row's Delete button: opens the dialog on that employee's id. */
    method AskDelete(id: int)
      requires Valid()
      modifies this`confirm
      ensures Valid() && confirm == Confirm(true, Some(id))
    {
      confirm := Confirm(true, Some(id));
    }

    /** Cancel, or closing the dialog: back to closed with no id. */
    method CancelDelete()
      requires Valid()
      modifies this`confirm
      ensures Valid() && confirm == Closed
    {
      confirm := Closed;
    }

    /** `onDelete`: a delete request for the dialog's id; on success the
        dialog closes and the list reloads with the current filter, on
        failure the dialog is left as it was and an alert is raised. */
    method OnDelete(deleted: bool, answer: Option<seq<Employee>>)
      requires Valid()
      modifies this`confirm, this`employees, this`requests, this`alerts
      ensures Valid()
      ensures deleted ==> confirm == Closed
      ensures deleted ==> requests == old(requests) + [DeleteById(old(confirm.id)), GetList(QueryParams(filter))]
      ensures deleted && answer.Some? ==> employees == answer.value && alerts == old(alerts)
      ensures deleted && answer.None? ==> employees == old(employees) && alerts == old(alerts) + [LoadFailedAlert]
      ensures !deleted ==> confirm == old(confirm) && employees == old(employees)
      ensures !deleted ==> requests == old(requests) + [DeleteById(confirm.id)]
      ensures !deleted ==> alerts == old(alerts) + [DeleteFailedAlert]
      ensures |requests| > |old(requests)| && requests[|old(requests)|] == DeleteById(old(confirm.id))
      ensures old(confirm.open) ==> old(confirm.id).Some?
    {
      requests := requests + [DeleteById(confirm.id)];
      if deleted {
        confirm := Closed;
        Load(filter, answer);
      } else {
        alerts := alerts + [DeleteFailedAlert];
      }
    }
  }
}
