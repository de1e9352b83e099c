/**
 * The personnel page (`gestion-activos/personal`): employees with their department, status and
 * individual carbon footprint.
 */
module Personnel {
  import opened Wrappers
  import opened Seqs
  import opened Tables

  datatype Status = Active | Inactive

  /** A row of the table. */
  datatype Employee = Employee(
    id: string, name: string, email: string, position: string, department: string,
    status: Status, lastUpdate: string, carbonFootprint: real)

  /** The dialog's state, `Partial<Employee>`. */
  datatype EmployeeForm = EmployeeForm(
    id: Option<string>, name: Option<string>, email: Option<string>, position: Option<string>,
    department: Option<string>, status: Option<Status>, lastUpdate: Option<string>,
    carbonFootprint: Option<real>)

  const EmptyForm := EmployeeForm(None, None, None, None, None, None, None, None)

  function ToForm(e: Employee): EmployeeForm
  {
    EmployeeForm(Some(e.id), Some(e.name), Some(e.email), Some(e.position), Some(e.department),
                 Some(e.status), Some(e.lastUpdate), Some(e.carbonFootprint))
  }

  /** `{ ...emp, ...currentEmployee }`. */
  function Merge(e: Employee, f: EmployeeForm): Employee
  {
    Employee(f.id.GetOr(e.id), f.name.GetOr(e.name), f.email.GetOr(e.email),
             f.position.GetOr(e.position), f.department.GetOr(e.department),
             f.status.GetOr(e.status), f.lastUpdate.GetOr(e.lastUpdate),
             f.carbonFootprint.GetOr(e.carbonFootprint))
  }

  /**
   * The new employee of the add branch: whatever the form says, the employee is active and
   * was last updated today.
   */
  function Build(id: string, f: EmployeeForm, today: Today): (e: Employee)
    ensures e.status == Active && e.lastUpdate == today.date
  {
    Employee(id, TextOr(f.name, ""), TextOr(f.email, ""), TextOr(f.position, ""),
             TextOr(f.department, ""), Active, today.date, f.carbonFootprint.GetOr(0.0))
  }

  /** The search box looks into the name, the e-mail, the position and the department. */
  function SearchFields(e: Employee): seq<string>
  {
    [e.name, e.email, e.position, e.department]
  }

  const Ops := RecordOps((e: Employee) => e.id, SearchFields, (f: EmployeeForm) => f.id,
                         Merge, Build, ToForm, EmptyForm)

  const Initial := [
    Employee("1", "Juan Pérez", "juan@example.com", "Gerente", "Ventas", Active,
             "2023-10-15", 2.5),
    Employee("2", "María García", "maria@example.com", "Analista", "Finanzas", Active,
             "2023-10-14", 1.8),
    Employee("3", "Carlos Rodríguez", "carlos@example.com", "Desarrollador", "TI", Inactive,
             "2023-10-13", 3.2)]

  // ---------------------------------------------------------------------------------------
  // The record operations

  lemma MergeOwnForm(e: Employee)
    ensures Merge(e, ToForm(e)) == e
  {
  }

  /** A new employee built from a complete form keeps its fields, except status and date. */
  lemma BuildFromFilledForm(e: Employee, id: string, today: Today)
    ensures Build(id, ToForm(e), today) == e.(id := id, status := Active, lastUpdate := today.date)
  {
  }

  lemma BuildDefaults(id: string, today: Today)
    ensures var e := Build(id, EmptyForm, today);
      e.name == "" && e.email == "" && e.position == "" && e.department == "" &&
      e.carbonFootprint == 0.0
  {
  }

  lemma OpsKeepIds()
    ensures KeepsIds(Ops)
  {
  }

  lemma InitialIdsAscending()
    ensures IdsAscending(Initial, Ops.idOf)
  {
    CountingIds(Initial, Ops.idOf);
  }

  // ---------------------------------------------------------------------------------------
  // The summary cards, all over the employees the search box lets through

  function Carbon(e: Employee): real
  {
    e.carbonFootprint
  }

  predicate IsActive(e: Employee)
  {
    e.status == Active
  }

  /** "Huella de Carbono Total". */
  function CarbonTotal(rows: seq<Employee>): real
  {
    Sum(rows, Carbon)
  }

  /** "Promedio por Empleado": `total / length || 0`. */
  function AverageCarbon(rows: seq<Employee>): real
  {
    Average(rows, Carbon)
  }

  /** "Empleados Activos": at most the number of employees listed. */
  function ActiveCount(rows: seq<Employee>): (r: nat)
    ensures r <= |rows|
  {
    Count(rows, IsActive)
  }

  /** The average lies between the smallest and the largest footprint. */
  lemma AverageWithinFootprints(rows: seq<Employee>, lo: real, hi: real)
    requires |rows| > 0
    requires forall e :: e in rows ==> lo <= e.carbonFootprint <= hi
    ensures lo <= AverageCarbon(rows) <= hi
  {
    AverageBounds(rows, Carbon, lo, hi);
  }

  /** Every added employee is active, so an add raises the active count by one. */
  lemma AddRaisesActiveCount(rows: seq<Employee>, f: EmployeeForm, today: Today)
    ensures ActiveCount(rows + [Build(NextId(rows, Ops.idOf), f, today)]) == ActiveCount(rows) + 1
  {
    var e := Build(NextId(rows, Ops.idOf), f, today);
    FilterConcat(rows, [e], IsActive);
    assert [e][..0] == [];
  }

  // ---------------------------------------------------------------------------------------
  // Badge

  datatype Tone = Green | Red

  /** The status badge: active green, inactive red. */
  function StatusTone(s: Status): (t: Tone)
    ensures t == Green <==> s == Active
  {
    if s == Active then Green else Red
  }
}
