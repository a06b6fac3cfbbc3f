/**
 * The attendance-list ingestion client (`asistenciaService`): upload a
 * spreadsheet, then ask the backend to process it for a period. The HTTP
 * exchange is abstracted to the status flag and the decoded JSON reply; a
 * thrown `Error` is an `Err` carrying its message.
 */
module AsistenciaService {
  import opened Wrappers
  import opened Records

  /** The JSON reply of an upload endpoint; absent fields are `None`. */
  datatype UploadReply = UploadReply(ok: bool, archivoId: Option<int>, error: Option<string>)

  /** The summary the backend returns after processing a list (`AsistenciaResumen`). */
  datatype AsistenciaSummary = AsistenciaSummary(
    ok: bool,
    periodoEtiqueta: string,
    periodoId: Option<int>,
    grupoId: Option<int>,
    alumnosVinculados: int,
    alumnosSinAlumno: int,
    alumnosSinGrupo: int,
    inscripcionesCreadas: int,
    warnings: seq<string>)

  /** The JSON reply of the processing endpoint. */
  datatype ProcessReply = ProcessReply(ok: bool, resumen: Option<AsistenciaSummary>, error: Option<string>)

  /**
   * The acceptance rule both attendance upload clients apply: a failed status
   * throws `statusError`; otherwise the reply must say `ok` and carry a truthy
   * file id, else the server's error text or `fallback` is thrown.
   */
  function AcceptUpload(httpOk: bool, reply: UploadReply, statusError: string, fallback: string): (r: Result<int, string>)
    ensures r.Ok? <==> httpOk && reply.ok && TruthyNumber(reply.archivoId)
    ensures r.Ok? ==> r.value == reply.archivoId.value && r.value != 0
    ensures !httpOk ==> r == Err(statusError)
    ensures httpOk && r.Err? ==> r.error == OrFallback(reply.error, fallback)
  {
    if !httpOk then Err(statusError)
    else if !reply.ok || !TruthyNumber(reply.archivoId) then Err(OrFallback(reply.error, fallback))
    else Ok(reply.archivoId.value)
  }

  /** `uploadAsistencia`: the list client's messages for a failed status and a rejected reply. */
  function UploadAsistencia(httpOk: bool, reply: UploadReply): (r: Result<int, string>)
    ensures r.Ok? <==> httpOk && reply.ok && TruthyNumber(reply.archivoId)
    ensures r.Ok? ==> r.value == reply.archivoId.value
    ensures !httpOk ==> r == Err("Error al subir lista de asistencia")
    ensures httpOk && r.Err? ==> r.error == OrFallback(reply.error, "Respuesta inválida al subir asistencia")
  {
    AcceptUpload(httpOk, reply, "Error al subir lista de asistencia", "Respuesta inválida al subir asistencia")
  }

  /** The JSON body of a processing request: the period label only when it is not empty. */
  function ProcessBody(periodoEtiqueta: string): (body: map<string, string>)
    ensures "periodoEtiqueta" in body <==> periodoEtiqueta != ""
    ensures "periodoEtiqueta" in body ==> body["periodoEtiqueta"] == periodoEtiqueta
    ensures |body| <= 1
  {
    if periodoEtiqueta != "" then map["periodoEtiqueta" := periodoEtiqueta] else map[]
  }

  /** `procesarAsistencia`: success needs the status, `ok` and a summary, which is returned unchanged. */
  function ProcesarAsistencia(httpOk: bool, reply: ProcessReply): (r: Result<AsistenciaSummary, string>)
    ensures r.Ok? <==> httpOk && reply.ok && reply.resumen.Some?
    ensures r.Ok? ==> r.value == reply.resumen.value
    ensures !httpOk ==> r == Err("Error al procesar lista de asistencia")
    ensures httpOk && r.Err? ==> r.error == OrFallback(reply.error, "Respuesta inválida al procesar lista de asistencia")
  {
    if !httpOk then Err("Error al procesar lista de asistencia")
    else if !reply.ok || reply.resumen.None? then
      Err(OrFallback(reply.error, "Respuesta inválida al procesar lista de asistencia"))
    else Ok(reply.resumen.value)
  }
}
