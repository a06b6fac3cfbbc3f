/**
 * The attendance summary client (`attendanceService`): the summary query,
 * the mapping of its rows, manual creation of relations, and the helper
 * upload and processing calls.
 */
module AttendanceService {
  import opened Wrappers
  import opened Text
  import opened Records
  import AsistenciaService

  const ResumenPath := "/asistencia/resumen"

  /**
   * The summary URL (relative to the API base): `?periodo=…` only when a
   * period is given. `encode` is the form encoding `URLSearchParams` applies.
   */
  function ResumenUrl(periodo: Option<string>, encode: string -> string): (url: string)
    ensures |ResumenPath| <= |url| && url[..|ResumenPath|] == ResumenPath
    ensures url == ResumenPath <==> !(periodo.Some? && periodo.value != "")
    ensures periodo.Some? && periodo.value != "" ==> url[|ResumenPath|..] == "?periodo=" + encode(periodo.value)
  {
    if periodo.Some? && periodo.value != "" then ResumenPath + "?periodo=" + encode(periodo.value) else ResumenPath
  }

  /** One row of the backend view, field for field. */
  datatype RawAttendanceRow = RawAttendanceRow(
    periodo: string,
    codigoMateria: string,
    nombreMateria: string,
    grupo: string,
    matricula: string,
    expediente: Option<string>,
    nombreAlumno: string,
    apellidoPaterno: string,
    apellidoMaterno: Option<string>,
    fechaAlta: string,
    fuente: string,
    archivoId: Option<int>,
    nombreArchivo: Option<string>,
    fechaArchivo: Option<string>)

  function RowToRecord(row: RawAttendanceRow): AttendanceRecord {
    AttendanceRecord(row.periodo, row.codigoMateria, row.nombreMateria, row.grupo, row.matricula,
      row.expediente, row.nombreAlumno, row.apellidoPaterno, row.apellidoMaterno, row.fechaAlta,
      row.fuente, row.archivoId, row.nombreArchivo, row.fechaArchivo)
  }

  /** The row a record came from. */
  function RecordToRow(r: AttendanceRecord): RawAttendanceRow {
    RawAttendanceRow(r.periodo, r.codigoMateria, r.nombreMateria, r.grupo, r.matricula,
      r.expediente, r.nombreAlumno, r.apellidoPaterno, r.apellidoMaterno, r.fechaAlta,
      r.fuente, r.archivoId, r.nombreArchivo, r.fechaArchivo)
  }

  /** The row mapping loses and invents nothing: it is a bijection between rows and records. */
  lemma RowMappingBijective(row: RawAttendanceRow, r: AttendanceRecord)
    ensures RecordToRow(RowToRecord(row)) == row
    ensures RowToRecord(RecordToRow(r)) == r
    ensures RowToRecord(row) == r <==> row == RecordToRow(r)
  {
  }

  /** `json.items.map(…)`: one record per row, in order. */
  function RowsToRecords(rows: seq<RawAttendanceRow>): (rs: seq<AttendanceRecord>)
    ensures |rs| == |rows|
    ensures forall i :: 0 <= i < |rows| ==> RecordToRow(rs[i]) == rows[i]
  {
    if rows == [] then [] else [RowToRecord(rows[0])] + RowsToRecords(rows[1..])
  }

  /** The summary reply; `items` is `None` when it is missing or not an array. */
  datatype ResumenReply = ResumenReply(ok: bool, items: Option<seq<RawAttendanceRow>>, error: Option<string>)

  /** `getAttendanceResumen`: a failed status throws; a reply without `ok` or rows yields no records. */
  function GetAttendanceResumen(httpOk: bool, reply: ResumenReply): (r: Result<seq<AttendanceRecord>, string>)
    ensures !httpOk <==> r.Err?
    ensures r.Err? ==> r.error == "Error al obtener el resumen de asistencia"
    ensures httpOk && !(reply.ok && reply.items.Some?) ==> r == Ok([])
    ensures httpOk && reply.ok && reply.items.Some? ==>
      r.Ok? && |r.value| == |reply.items.value|
      && forall i :: 0 <= i < |r.value| ==> RecordToRow(r.value[i]) == reply.items.value[i]
  {
    if !httpOk then Err("Error al obtener el resumen de asistencia")
    else if !reply.ok || reply.items.None? then Ok([])
    else Ok(RowsToRecords(reply.items.value))
  }

  /** What `POST /asistencia` answers: one relation or an array of them. */
  datatype CreatedReply = OneCreated(record: AttendanceRecord) | ManyCreated(records: seq<AttendanceRecord>)

  /** `createAttendance`: a failure throws the response text or a fallback; a single object becomes a one-element array. */
  function CreateAttendance(httpOk: bool, text: string, reply: CreatedReply): (r: Result<seq<AttendanceRecord>, string>)
    ensures r.Ok? <==> httpOk
    ensures !httpOk ==> r.error == (if text != "" then text else "Error al crear relación de asistencia")
    ensures httpOk && reply.ManyCreated? ==> r.value == reply.records
    ensures httpOk && reply.OneCreated? ==> r.value == [reply.record]
  {
    if !httpOk then Err(if text != "" then text else "Error al crear relación de asistencia")
    else if reply.ManyCreated? then Ok(reply.records)
    else Ok([reply.record])
  }

  /** Every record the server returns reaches the caller, whichever shape it used. */
  lemma CreatedRecordsKept(text: string, reply: CreatedReply)
    ensures forall x :: x in CreateAttendance(true, text, reply).value <==>
      (if reply.OneCreated? then x == reply.record else x in reply.records)
  {
  }

  /** `uploadAttendance`: the same acceptance rule as the list upload, with this client's messages. */
  function UploadAttendance(httpOk: bool, reply: AsistenciaService.UploadReply): (r: Result<int, string>)
    ensures r.Ok? <==> AsistenciaService.UploadAsistencia(httpOk, reply).Ok?
    ensures r.Ok? ==> r == AsistenciaService.UploadAsistencia(httpOk, reply)
    ensures !httpOk ==> r == Err("Error al subir archivo de asistencia")
    ensures httpOk && r.Err? ==> r == AsistenciaService.UploadAsistencia(httpOk, reply)
  {
    AsistenciaService.AcceptUpload(httpOk, reply, "Error al subir archivo de asistencia", "Respuesta inválida al subir asistencia")
  }

  /** The summary `procesarAttendance` reads; it is passed on without any check of its shape. */
  datatype ProcessReply = ProcessReply(ok: bool, resumen: Option<AsistenciaService.AsistenciaSummary>, error: Option<string>)

  /**
   * `procesarAttendance`: a failed status or a reply without `ok` throws;
   * otherwise whatever `resumen` holds is returned, even when it is missing.
   */
  function ProcesarAttendance(httpOk: bool, reply: ProcessReply): (r: Result<Option<AsistenciaService.AsistenciaSummary>, string>)
    ensures r.Ok? <==> httpOk && reply.ok
    ensures r.Ok? ==> r.value == reply.resumen
    ensures !httpOk ==> r.error == "Error al procesar archivo de asistencia"
    ensures httpOk && !reply.ok ==> r.error == OrFallback(reply.error, "Error en ingesta de asistencia")
  {
    if !httpOk then Err("Error al procesar archivo de asistencia")
    else if !reply.ok then Err(OrFallback(reply.error, "Error en ingesta de asistencia"))
    else Ok(reply.resumen)
  }

  /** Unlike `procesarAsistencia`, this client accepts an `ok` reply that carries no summary. */
  lemma MissingSummaryAccepted(error: Option<string>)
    ensures ProcesarAttendance(true, ProcessReply(true, None, error)) == Ok(None)
    ensures AsistenciaService.ProcesarAsistencia(true, AsistenciaService.ProcessReply(true, None, error)).Err?
  {
  }
}
