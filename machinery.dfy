/**
 * The machinery page (`gestion-activos/maquinaria`): machines with their model, serial number,
 * status and carbon footprint.
 */
module Machinery {
  import opened Wrappers
  import opened Seqs
  import opened Tables

  datatype Status = Active | Inactive | Maintenance

  function StatusName(s: Status): string
  {
    match s
    case Active => "Activo"
    case Inactive => "Inactivo"
    case Maintenance => "En mantenimiento"
  }

  /** A row of the table; the machine type is free text. */
  datatype Machine = Machine(
    id: string, name: string, machineType: string, model: string, serialNumber: string,
    status: Status, lastMaintenance: string, carbonFootprint: real)

  /** The dialog's state, `Partial<Machine>`. */
  datatype MachineForm = MachineForm(
    id: Option<string>, name: Option<string>, machineType: Option<string>, model: Option<string>,
    serialNumber: Option<string>, status: Option<Status>, lastMaintenance: Option<string>,
    carbonFootprint: Option<real>)

  const EmptyForm := MachineForm(None, None, None, None, None, None, None, None)

  function ToForm(m: Machine): MachineForm
  {
    MachineForm(Some(m.id), Some(m.name), Some(m.machineType), Some(m.model),
                Some(m.serialNumber), Some(m.status), Some(m.lastMaintenance),
                Some(m.carbonFootprint))
  }

  /** `{ ...machine, ...currentMachine }`. */
  function Merge(m: Machine, f: MachineForm): Machine
  {
    Machine(f.id.GetOr(m.id), f.name.GetOr(m.name), f.machineType.GetOr(m.machineType),
            f.model.GetOr(m.model), f.serialNumber.GetOr(m.serialNumber),
            f.status.GetOr(m.status), f.lastMaintenance.GetOr(m.lastMaintenance),
            f.carbonFootprint.GetOr(m.carbonFootprint))
  }

  /** The new machine of the add branch: active, serviced today, by default. */
  function Build(id: string, f: MachineForm, today: Today): Machine
  {
    Machine(id, TextOr(f.name, ""), TextOr(f.machineType, ""), TextOr(f.model, ""),
            TextOr(f.serialNumber, ""), f.status.GetOr(Active),
            TextOr(f.lastMaintenance, today.date), f.carbonFootprint.GetOr(0.0))
  }

  /** The search box looks into the name, the type, the model and the serial number. */
  function SearchFields(m: Machine): seq<string>
  {
    [m.name, m.machineType, m.model, m.serialNumber]
  }

  const Ops := RecordOps((m: Machine) => m.id, SearchFields, (f: MachineForm) => f.id,
                         Merge, Build, ToForm, EmptyForm)

  const Initial := [
    Machine("1", "Torno CNC", "Máquina de corte", "CNC-2000", "TC2000-001", Active,
            "2023-09-15", 5.2),
    Machine("2", "Prensa Hidráulica", "Máquina de conformado", "PH-500", "PH500-002",
            Maintenance, "2023-10-01", 3.8),
    Machine("3", "Robot Soldador", "Robot industrial", "RS-100", "RS100-003", Active,
            "2023-10-10", 4.5)]

  // ---------------------------------------------------------------------------------------
  // The record operations

  lemma MergeOwnForm(m: Machine)
    ensures Merge(m, ToForm(m)) == m
  {
  }

  lemma BuildFromFilledForm(m: Machine, id: string, today: Today)
    requires m.lastMaintenance != ""
    ensures Build(id, ToForm(m), today) == m.(id := id)
  {
  }

  lemma BuildDefaults(id: string, today: Today)
    ensures var m := Build(id, EmptyForm, today);
      m.name == "" && m.machineType == "" && m.model == "" && m.serialNumber == "" &&
      m.status == Active && m.lastMaintenance == today.date && m.carbonFootprint == 0.0
  {
  }

  lemma OpsKeepIds()
    ensures KeepsIds(Ops)
  {
  }

  lemma InitialIdsAscending()
    ensures IdsAscending(Initial, Ops.idOf)
  {
    CountingIds(Initial, Ops.idOf);
  }

  // ---------------------------------------------------------------------------------------
  // The summary cards, all over the machines the search box lets through

  function Carbon(m: Machine): real
  {
    m.carbonFootprint
  }

  predicate IsActive(m: Machine)
  {
    m.status == Active
  }

  /** "Huella de Carbono Total". */
  function CarbonTotal(rows: seq<Machine>): real
  {
    Sum(rows, Carbon)
  }

  /** "Promedio por Máquina": `total / length || 0`. */
  function AverageCarbon(rows: seq<Machine>): real
  {
    Average(rows, Carbon)
  }

  /** "Máquinas Activas": at most the number of machines listed. */
  function ActiveCount(rows: seq<Machine>): (r: nat)
    ensures r <= |rows|
  {
    Count(rows, IsActive)
  }

  /** The average lies between the smallest and the largest footprint. */
  lemma AverageWithinFootprints(rows: seq<Machine>, lo: real, hi: real)
    requires |rows| > 0
    requires forall m :: m in rows ==> lo <= m.carbonFootprint <= hi
    ensures lo <= AverageCarbon(rows) <= hi
  {
    AverageBounds(rows, Carbon, lo, hi);
  }

  /** The active machines and the others together are all the machines listed. */
  lemma ActiveSplit(rows: seq<Machine>)
    ensures ActiveCount(rows) + |Filter(rows, m => !IsActive(m))| == |rows|
  {
    FilterSplitsLength(rows, IsActive, m => !IsActive(m));
  }

  // ---------------------------------------------------------------------------------------
  // Badge

  datatype Tone = Green | Yellow | Red

  /** The status badge: active green, inactive red, in maintenance yellow. */
  function StatusTone(s: Status): (t: Tone)
    ensures t == Green <==> s == Active
    ensures t == Red <==> s == Inactive
    ensures t == Yellow <==> s == Maintenance
  {
    match s
    case Active => Green
    case Inactive => Red
    case Maintenance => Yellow
  }
}
