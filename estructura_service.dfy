/**
 * The school-structure ingestion client (`estructuraService`): upload the
 * structure spreadsheet, then process it. The HTTP status is a number and
 * the reply body is `None` when it is not valid JSON, which the client reads
 * as an empty object.
 */
module EstructuraService {
  import opened Wrappers
  import opened Text
  import opened Records

  /** `response.ok`: a status in the 2xx range. */
  predicate HttpOk(status: int) {
    200 <= status <= 299
  }

  /** The upload reply; absent fields are `None`. */
  datatype UploadReply = UploadReply(ok: Option<bool>, archivoId: Option<int>, estadoProceso: Option<string>, error: Option<string>)

  /** The counts the backend reports after processing (`EstructuraResumen`). */
  datatype EstructuraSummary = EstructuraSummary(alumnosUpsert: int, planesUpsert: int, warnings: seq<string>)

  datatype ProcessReply = ProcessReply(ok: Option<bool>, resumen: Option<EstructuraSummary>, error: Option<string>)

  /** What `resp.json().catch(() => ({}))` yields. */
  function UploadBody(body: Option<UploadReply>): UploadReply {
    body.GetOr(UploadReply(None, None, None, None))
  }

  function ProcessBody(body: Option<ProcessReply>): ProcessReply {
    body.GetOr(ProcessReply(None, None, None))
  }

  /** `` `${prefix} (${status} ${statusText})` ``. */
  function StatusMessage(prefix: string, status: int, statusText: string): string {
    prefix + " (" + IntToString(status) + " " + statusText + ")"
  }

  /** `uploadEstructura`: a 2xx status, `ok` and a truthy file id, else the server's error or a status message. */
  function UploadEstructura(status: int, statusText: string, body: Option<UploadReply>): (r: Result<int, string>)
    ensures r.Ok? <==> HttpOk(status) && body.Some? && body.value.ok == Some(true) && TruthyNumber(body.value.archivoId)
    ensures r.Ok? ==> r.value == body.value.archivoId.value && r.value != 0
    ensures r.Err? ==> r.error == OrFallback(UploadBody(body).error, StatusMessage("Error al subir estructura", status, statusText))
  {
    var json := UploadBody(body);
    if !HttpOk(status) || json.ok != Some(true) || !TruthyNumber(json.archivoId) then
      Err(OrFallback(json.error, StatusMessage("Error al subir estructura", status, statusText)))
    else Ok(json.archivoId.value)
  }

  /** `procesarEstructura`: a 2xx status, `ok` and a summary, which is returned unchanged. */
  function ProcesarEstructura(status: int, statusText: string, body: Option<ProcessReply>): (r: Result<EstructuraSummary, string>)
    ensures r.Ok? <==> HttpOk(status) && body.Some? && body.value.ok == Some(true) && body.value.resumen.Some?
    ensures r.Ok? ==> r.value == body.value.resumen.value
    ensures r.Err? ==> r.error == OrFallback(ProcessBody(body).error, StatusMessage("Error al procesar estructura", status, statusText))
  {
    var json := ProcessBody(body);
    if !HttpOk(status) || json.ok != Some(true) || json.resumen.None? then
      Err(OrFallback(json.error, StatusMessage("Error al procesar estructura", status, statusText)))
    else Ok(json.resumen.value)
  }

  /** A body that is not JSON always fails, with the status message, whatever the status. */
  lemma UnparseableBodyFails(status: int, statusText: string)
    ensures UploadEstructura(status, statusText, None) == Err(StatusMessage("Error al subir estructura", status, statusText))
    ensures ProcesarEstructura(status, statusText, None) == Err(StatusMessage("Error al procesar estructura", status, statusText))
  {
  }

  /** The status message names the status: two different statuses never give the same message. */
  lemma StatusMessageNamesStatus(prefix: string, s1: int, s2: int, statusText: string)
    requires StatusMessage(prefix, s1, statusText) == StatusMessage(prefix, s2, statusText)
    ensures s1 == s2
  {
    var m := StatusMessage(prefix, s1, statusText);
    var k := |prefix| + 2;
    var n1 := IntToString(s1);
    var n2 := IntToString(s2);
    assert |n1| == |n2|;
    assert n1 == m[k..k + |n1|] == n2;
    IntToStringInjective(s1, s2);
  }
}
