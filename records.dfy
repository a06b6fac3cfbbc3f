/**
 * The shapes the dashboard works with: one row of each report table, a user
 * of the directory, and the small UI values every page shares (the alert
 * banner and a navigation request).
 * A field that the backend may send as `null` is an `Option`.
 */
module Records {
  import opened Wrappers

  /** One class meeting of the schedule report (`horarios`). */
  datatype ScheduleRecord = ScheduleRecord(
    id: int,
    periodo: string,
    codigoMateria: string,
    nombreMateria: string,
    grupo: string,
    diaSemana: Option<int>,
    aula: Option<string>,
    horaInicio: Option<string>,
    horaFin: Option<string>,
    numEmpleado: Option<int>,
    profesorNombre: Option<string>,
    profesorApellidoPaterno: Option<string>,
    profesorApellidoMaterno: Option<string>,
    cupo: Option<int>)

  /** One student–group–subject relation of the attendance summary. */
  datatype AttendanceRecord = AttendanceRecord(
    periodo: string,
    codigoMateria: string,
    nombreMateria: string,
    grupo: string,
    matricula: string,
    expediente: Option<string>,
    nombreAlumno: string,
    apellidoPaterno: string,
    apellidoMaterno: Option<string>,
    fechaAlta: string,
    fuente: string,
    archivoId: Option<int>,
    nombreArchivo: Option<string>,
    fechaArchivo: Option<string>)

  /** One subject of a study plan, as the plan report lists it. */
  datatype PlanRecord = PlanRecord(
    id: int,
    codigo: string,
    nombreMateria: string,
    creditos: int,
    tipo: string,
    planId: int,
    planNombre: string,
    planVersion: string,
    planTotalCreditos: Option<int>,
    planSemestresSugeridos: Option<int>)

  /** A professor account of the user directory. */
  datatype User = User(
    id: int,
    profesorId: int,
    usuarioId: int,
    nombre: string,
    email: string,
    numEmpleado: int,
    rol: string,
    rolId: int,
    imagen: Option<string>)

  datatype AlertKind = Success | Error

  /** The banner a page shows after an action. */
  datatype Alert = Alert(kind: AlertKind, title: string, message: string)

  /** `value || fallback` for an optional text: an absent or empty value gives way to the fallback. */
  function OrFallback(v: Option<string>, fallback: string): string {
    if v.Some? && v.value != "" then v.value else fallback
  }

  /** A JSON number is truthy when it is present and not zero. */
  predicate TruthyNumber(n: Option<int>) {
    n.Some? && n.value != 0
  }

  /** The outcome of a service call that returns nothing: it completes, or throws with a message. */
  datatype Outcome = Done | Failed(message: string)

  /** The refusal every report view shows when asked to export an empty table. */
  const NoRecordsToExport := Alert(Error, "Sin registros", "No hay registros para exportar.")

  /** A request to the router: `router.push(path)` or `router.replace(path)`. */
  datatype Navigation = Push(path: string) | Replace(path: string)

  /** A spreadsheet cell: the source writes strings, numbers, or `""` for a missing value. */
  datatype Cell = Text(s: string) | Number(n: int)

  /** `value ?? ""` for a nullable text column. */
  function TextOrEmpty(v: Option<string>): Cell {
    Text(if v.Some? then v.value else "")
  }

  /** `value ?? ""` for a nullable numeric column. */
  function NumberOrEmpty(v: Option<int>): Cell {
    if v.Some? then Number(v.value) else Text("")
  }
}
