/**
 * The client of the study-plan tables and of the plan PDF ingestion
 * endpoint: row and form mappers, the catalogue label, the upload query
 * string, and the error messages of the update, delete and create steps.
 * The database and HTTP replies are parameters.
 */
module PlanService {
  import opened Wrappers
  import opened Text
  import opened Seqs
  import opened Records

  /** An error value of unknown shape, as `extractErrorMessage` receives it. */
  datatype ErrorValue =
    | StringValue(text: string)
    /** An object; `message` is `None` when it is missing or not a string. */
    | ObjectValue(message: Option<string>)
    | OtherValue

  /** `extractErrorMessage`: the lower-cased text of a string or of an object's message, else `""`. */
  function ExtractErrorMessage(e: ErrorValue): (m: string)
    ensures IsLowerCase(m)
    ensures e.StringValue? ==> m == ToLower(e.text)
    ensures e.ObjectValue? && e.message.Some? ==> m == ToLower(e.message.value)
    ensures e.OtherValue? || (e.ObjectValue? && e.message.None?) ==> m == ""
  {
    LowerCaseFacts(match e case StringValue(t) => t case ObjectValue(Some(t)) => t case _ => "");
    match e
    case StringValue(t) => ToLower(t)
    case ObjectValue(Some(t)) => ToLower(t)
    case _ => ""
  }

  /** A row of the `vista_materias_planes` view. */
  datatype MateriaPlanRow = MateriaPlanRow(
    materiaId: int,
    codigo: string,
    nombre: string,
    creditos: int,
    tipo: Option<string>,
    planId: int,
    planNombre: string,
    planVersion: string,
    totalCreditos: Option<int>,
    semestresSugeridos: Option<int>)

  const DefaultTipo := "OBLIGATORIA"

  /** The row a record would have come from, with its tipo present. */
  function ToRow(r: PlanRecord): MateriaPlanRow {
    MateriaPlanRow(r.id, r.codigo, r.nombreMateria, r.creditos, Some(r.tipo), r.planId,
      r.planNombre, r.planVersion, r.planTotalCreditos, r.planSemestresSugeridos)
  }

  /**
   * `mapMateriaPlanRowToPlanRecord`: a renaming that loses nothing but the
   * difference between a null tipo and `"OBLIGATORIA"`.
   */
  function MapRow(row: MateriaPlanRow): (r: PlanRecord)
    ensures ToRow(r) == row <==> row.tipo.Some?
    ensures row.tipo.None? ==> ToRow(r) == row.(tipo := Some(DefaultTipo))
  {
    PlanRecord(row.materiaId, row.codigo, row.nombre, row.creditos, row.tipo.GetOr(DefaultTipo),
      row.planId, row.planNombre, row.planVersion, row.totalCreditos, row.semestresSugeridos)
  }

  /** Every record maps back to itself through its row. */
  lemma MapRowInverse(r: PlanRecord)
    ensures MapRow(ToRow(r)) == r
  {
  }

  /** An error reported by the database client. Absent and empty parts are both falsy. */
  datatype DbError = DbError(message: Option<string>, details: Option<string>, hint: Option<string>, code: Option<string>)

  predicate Truthy(s: Option<string>) {
    s.Some? && s.value != ""
  }

  /** `s || fallback`. */
  function MessageOr(s: Option<string>, fallback: string): (m: string)
    ensures Truthy(s) ==> m == s.value
    ensures !Truthy(s) ==> m == fallback
  {
    if Truthy(s) then s.value else fallback
  }

  /** `getPlanMaterias`: a database error is rethrown; no data is an empty list. */
  function GetPlanMaterias(reply: Result<Option<seq<MateriaPlanRow>>, DbError>): (r: Result<seq<PlanRecord>, DbError>)
    ensures reply.Err? <==> r.Err?
    ensures reply.Err? ==> r.error == reply.error
    ensures reply.Ok? && reply.value.None? ==> r == Ok([])
    ensures reply.Ok? && reply.value.Some? ==>
      |r.value| == |reply.value.value|
      && forall i :: 0 <= i < |r.value| ==> r.value[i] == MapRow(reply.value.value[i])
    ensures reply.Ok? && reply.value.Some? ==>
      forall i :: 0 <= i < |r.value| ==>
        r.value[i].tipo == reply.value.value[i].tipo.GetOr(DefaultTipo)
        && ToRow(r.value[i]) == reply.value.value[i].(tipo := Some(r.value[i].tipo))
  {
    match reply
    case Err(e) => Err(e)
    case Ok(None) => Ok([])
    case Ok(Some(rows)) => Ok(seq(|rows|, i requires 0 <= i < |rows| => MapRow(rows[i])))
  }

  /** A plan of the `plan_estudio` catalogue. */
  datatype PlanRow = PlanRow(id: int, nombre: string, version: string)

  datatype PlanOption = PlanOption(id: int, text: string)

  /** The catalogue label: the name, then the version in parentheses after a `v`. */
  function CatalogLabel(nombre: string, version: string): (l: string)
    ensures |l| == |nombre| + |version| + 4
    ensures l[..|nombre|] == nombre && l[|nombre|..|nombre| + 3] == " (v" && l[|l| - 1] == ')'
    ensures l[|nombre| + 3..|l| - 1] == version
  {
    nombre + " (v" + version + ")"
  }

  /** Two versions of the same plan never share a label. */
  lemma CatalogLabelInjective(nombre: string, v1: string, v2: string)
    requires CatalogLabel(nombre, v1) == CatalogLabel(nombre, v2)
    ensures v1 == v2
  {
    var l := CatalogLabel(nombre, v1);
    assert |v1| == |v2|;
    assert v1 == l[|nombre| + 3..|l| - 1] == v2;
  }

  /** `getPlanesCatalog`: one option per plan, in the catalogue's order. */
  function GetPlanesCatalog(reply: Result<Option<seq<PlanRow>>, DbError>): (r: Result<seq<PlanOption>, DbError>)
    ensures reply.Err? <==> r.Err?
    ensures reply.Ok? && reply.value.None? ==> r == Ok([])
    ensures reply.Ok? && reply.value.Some? ==>
      |r.value| == |reply.value.value|
      && forall i :: 0 <= i < |r.value| ==>
        r.value[i].id == reply.value.value[i].id
        && r.value[i].text == CatalogLabel(reply.value.value[i].nombre, reply.value.value[i].version)
  {
    match reply
    case Err(e) => Err(e)
    case Ok(None) => Ok([])
    case Ok(Some(rows)) =>
      Ok(seq(|rows|, i requires 0 <= i < |rows| => PlanOption(rows[i].id, CatalogLabel(rows[i].nombre, rows[i].version))))
  }

  /** `PlanMateriaFormData`. */
  datatype PlanForm = PlanForm(codigo: string, nombreMateria: string, creditos: int, tipo: string, planId: int)

  /** The `materia` row written from a form. */
  datatype MateriaPayload = MateriaPayload(codigo: string, nombre: string, creditos: int, tipo: string, planEstudioId: int)

  function PayloadToForm(p: MateriaPayload): PlanForm {
    PlanForm(p.codigo, p.nombre, p.creditos, p.tipo, p.planEstudioId)
  }

  /** `mapFormToMateriaPayload`: a renaming that keeps every field. */
  function MapFormToPayload(f: PlanForm): (p: MateriaPayload)
    ensures PayloadToForm(p) == f
  {
    MateriaPayload(f.codigo, f.nombreMateria, f.creditos, f.tipo, f.planId)
  }

  /** Distinct forms give distinct payloads. */
  lemma MapFormToPayloadInjective(f: PlanForm, g: PlanForm)
    requires MapFormToPayload(f) == MapFormToPayload(g)
    ensures f == g
  {
    assert PayloadToForm(MapFormToPayload(f)) == PayloadToForm(MapFormToPayload(g));
  }

  /** Where a parameter sits in the order `uploadPlanPdf` appends them. */
  function ParamRank(p: string): nat {
    if p == "force=1" then 0 else if p == "debug=1" then 1 else 2
  }

  /** The query parameters of `uploadPlanPdf`, in the order force, debug, ocr. */
  function UploadParams(force: bool, debug: bool, ocr: bool): (ps: seq<string>)
    ensures |ps| == (if force then 1 else 0) + (if debug then 1 else 0) + (if ocr then 1 else 0)
    ensures ("force=1" in ps <==> force) && ("debug=1" in ps <==> debug) && ("ocr=1" in ps <==> ocr)
    ensures forall i, j :: 0 <= i < j < |ps| ==> ParamRank(ps[i]) < ParamRank(ps[j])
    ensures forall i :: 0 <= i < |ps| ==> ps[i] != ""
  {
    (if force then ["force=1"] else []) + (if debug then ["debug=1"] else []) + (if ocr then ["ocr=1"] else [])
  }

  /** The query string: nothing when no flag is set, else `?` and the parameters joined by `&`. */
  function UploadQuery(force: bool, debug: bool, ocr: bool): (q: string)
    ensures q == "" <==> !force && !debug && !ocr
    ensures q != "" ==> q[0] == '?' && q[1..] == Join(UploadParams(force, debug, ocr), "&")
  {
    var ps := UploadParams(force, debug, ocr);
    if |ps| == 0 then "" else "?" + Join(ps, "&")
  }

  /** Every flag that is set appears in the query. */
  lemma UploadQueryHasFlags(force: bool, debug: bool, ocr: bool)
    ensures force ==> Contains(UploadQuery(force, debug, ocr), "force=1")
    ensures debug ==> Contains(UploadQuery(force, debug, ocr), "debug=1")
    ensures ocr ==> Contains(UploadQuery(force, debug, ocr), "ocr=1")
  {
    var ps := UploadParams(force, debug, ocr);
    forall p | p in ps
      ensures Contains(UploadQuery(force, debug, ocr), p)
    {
      var i :| 0 <= i < |ps| && ps[i] == p;
      JoinContainsPart(ps, "&", i);
      ContainsAfterPrefix("?", Join(ps, "&"), p);
    }
  }

  function UploadUrl(apiBase: string, force: bool, debug: bool, ocr: bool): string {
    apiBase + "/plan/upload" + UploadQuery(force, debug, ocr)
  }

  /** The reply of `/plan/upload`, passed through unchecked when the status is OK. */
  datatype PlanUploadResponse = PlanUploadResponse(ok: bool, action: string, archivoId: int)

  /** `uploadPlanPdf`: only the HTTP status decides; the message names the status and the body or status text. */
  function UploadPlanPdf(httpOk: bool, status: int, text: string, statusText: string, json: PlanUploadResponse): (r: Result<PlanUploadResponse, string>)
    ensures r.Ok? <==> httpOk
    ensures r.Ok? ==> r.value == json
    ensures r.Err? ==> r.error == UploadErrorPrefix + IntToString(status) + "): " + (if text != "" then text else statusText)
  {
    if httpOk then Ok(json)
    else Err(UploadErrorPrefix + IntToString(status) + "): " + (if text != "" then text else statusText))
  }

  const UploadErrorPrefix := "Error al subir plan ("

  const UpdateFallback := "No se pudo actualizar la materia de plan en la base de datos."

  /** The truthy parts of an update error: message, details, hint, and the labelled code. */
  function UpdateErrorParts(e: DbError): (ps: seq<string>)
    ensures forall i :: 0 <= i < |ps| ==> ps[i] != ""
    ensures |ps| == 0 <==> !Truthy(e.message) && !Truthy(e.details) && !Truthy(e.hint) && !Truthy(e.code)
    ensures Truthy(e.message) ==> ps[0] == e.message.value
  {
    var all := [e.message.GetOr(""), e.details.GetOr(""), e.hint.GetOr(""),
                if Truthy(e.code) then "Código: " + e.code.value else ""];
    FilterMembership(all, s => s != "");
    var ps := Filter(all, s => s != "");
    assert |ps| > 0 ==> ps[0] in ps;
    assert all[0] != "" ==> all[0] in ps;
    assert all[1] != "" ==> all[1] in ps;
    assert all[2] != "" ==> all[2] in ps;
    assert all[3] != "" ==> all[3] in ps;
    ps
  }

  /** The message `updatePlanMateria` throws: the truthy parts joined by `" | "`, or the fallback. */
  function UpdateErrorMessage(e: DbError): (m: string)
    ensures m != ""
    ensures |UpdateErrorParts(e)| == 0 ==> m == UpdateFallback
    ensures |UpdateErrorParts(e)| > 0 ==> m == Join(UpdateErrorParts(e), " | ")
  {
    var ps := UpdateErrorParts(e);
    JoinEmpty(ps, " | ");
    if Join(ps, " | ") != "" then Join(ps, " | ") else UpdateFallback
  }

  /** Nothing the database said is lost: every truthy part is in the message, the message first. */
  lemma UpdateErrorMessageKeepsParts(e: DbError)
    ensures Truthy(e.message) ==>
      (|e.message.value| <= |UpdateErrorMessage(e)| && UpdateErrorMessage(e)[..|e.message.value|] == e.message.value)
    ensures Truthy(e.details) ==> Contains(UpdateErrorMessage(e), e.details.value)
    ensures Truthy(e.hint) ==> Contains(UpdateErrorMessage(e), e.hint.value)
    ensures Truthy(e.code) ==> Contains(UpdateErrorMessage(e), "Código: " + e.code.value)
  {
    var all := [e.message.GetOr(""), e.details.GetOr(""), e.hint.GetOr(""),
                if Truthy(e.code) then "Código: " + e.code.value else ""];
    var ps := UpdateErrorParts(e);
    FilterMembership(all, s => s != "");
    assert forall k :: 0 <= k < 4 && all[k] != "" ==> all[k] in ps;
    forall p | p in ps
      ensures Contains(UpdateErrorMessage(e), p)
    {
      var i :| 0 <= i < |ps| && ps[i] == p;
      JoinContainsPart(ps, " | ", i);
    }
    if Truthy(e.message) {
      JoinStartsWithFirst(ps, " | ");
    }
  }

  /** `updatePlanMateria`: success, or the composed message. */
  function UpdatePlanMateria(dbError: Option<DbError>): (r: Outcome)
    ensures r.Done? <==> dbError.None?
    ensures r.Failed? ==> r.message == UpdateErrorMessage(dbError.value)
  {
    match dbError
    case None => Done
    case Some(e) => Failed(UpdateErrorMessage(e))
  }

  /** A write against the database, in the order it is sent. */
  datatype DbStep =
    | DeleteLinks(materiaId: int)
    | DeleteMateria(id: int)
    | InsertMateria(payload: MateriaPayload)
    | InsertLink(materiaId: int, planEstudioId: int)

  /** The writes one operation sent and how it ended. */
  datatype Run = Run(steps: seq<DbStep>, outcome: Outcome)

  const LinkDeleteFallback := "No se pudo eliminar la asociación de la materia con su plan de estudio."
  const ForeignKeyPhrase := "violates foreign key constraint"
  const ForeignKeyMessage := "No se puede eliminar esta materia porque está asociada a grupos, kardex u otros registros."
  const DeleteGenericMessage := "No se pudo eliminar la materia. Intenta de nuevo más tarde."

  /** The message of a failed row delete: the specific one for a foreign-key violation, else the generic one. */
  function DeleteRowMessage(e: DbError): (m: string)
    ensures m == ForeignKeyMessage || m == DeleteGenericMessage
    ensures m == ForeignKeyMessage <==> Contains(ToLower(e.message.GetOr("")), ForeignKeyPhrase)
    ensures m == DeleteGenericMessage <==> !Contains(ToLower(e.message.GetOr("")), ForeignKeyPhrase)
  {
    if Contains(ExtractErrorMessage(ObjectValue(e.message)), ForeignKeyPhrase) then ForeignKeyMessage
    else DeleteGenericMessage
  }

  /** The database reports foreign-key violations in lower case; such a report gets the specific message. */
  lemma ForeignKeyViolationRecognised(e: DbError)
    requires e.message.Some? && Contains(e.message.value, ForeignKeyPhrase)
    ensures DeleteRowMessage(e) == ForeignKeyMessage
  {
    LowerKeepsContains(e.message.value, ForeignKeyPhrase);
    assert ToLower(ForeignKeyPhrase) == ForeignKeyPhrase;
  }

  /** A message in upper case is recognised too. */
  lemma ForeignKeyViolationCaseInsensitive(e: DbError)
    requires e.message.Some? && Contains(ToUpper(e.message.value), ToUpper(ForeignKeyPhrase))
    ensures DeleteRowMessage(e) == ForeignKeyMessage
  {
    LowerKeepsContains(ToUpper(e.message.value), ToUpper(ForeignKeyPhrase));
    LowerCaseFacts(e.message.value);
    LowerCaseFacts(ForeignKeyPhrase);
    assert ToLower(ForeignKeyPhrase) == ForeignKeyPhrase;
  }

  /** `deletePlanMateria`: the plan links go first; the row is deleted only when they went. */
  function DeletePlanMateria(id: int, linkError: Option<DbError>, rowError: Option<DbError>): (r: Run)
    ensures |r.steps| >= 1 && r.steps[0] == DeleteLinks(id)
    ensures |r.steps| == 2 <==> linkError.None?
    ensures |r.steps| == 2 ==> r.steps[1] == DeleteMateria(id)
    ensures r.outcome.Done? <==> linkError.None? && rowError.None?
    ensures linkError.Some? ==> r.outcome == Failed(MessageOr(linkError.value.message, LinkDeleteFallback))
    ensures linkError.None? && rowError.Some? ==> r.outcome == Failed(DeleteRowMessage(rowError.value))
  {
    if linkError.Some? then
      Run([DeleteLinks(id)], Failed(MessageOr(linkError.value.message, LinkDeleteFallback)))
    else if rowError.Some? then
      Run([DeleteLinks(id), DeleteMateria(id)], Failed(DeleteRowMessage(rowError.value)))
    else
      Run([DeleteLinks(id), DeleteMateria(id)], Done)
  }

  const InsertFallback := "Error al crear materia de plan"
  const MissingIdMessage := "No se pudo obtener el ID de la materia recién creada."
  const LinkInsertFallback := "La materia se creó pero no se pudo asociar al plan de estudio."

  /**
   * `createPlanMateria`: insert the subject, read back its id, then link it
   * to the form's plan. Nothing is returned on success.
   */
  function CreatePlanMateria(f: PlanForm, insertError: Option<DbError>, insertedId: Option<int>, linkError: Option<DbError>): (r: Run)
    ensures |r.steps| >= 1 && r.steps[0] == InsertMateria(MapFormToPayload(f))
    ensures |r.steps| == 2 <==> insertError.None? && insertedId.Some?
    ensures |r.steps| == 2 ==> r.steps[1] == InsertLink(insertedId.value, f.planId)
    ensures r.outcome.Done? <==> insertError.None? && insertedId.Some? && linkError.None?
    ensures insertError.Some? ==> r.outcome == Failed(MessageOr(insertError.value.message, InsertFallback))
    ensures insertError.None? && insertedId.None? ==> r.outcome == Failed(MissingIdMessage)
    ensures insertError.None? && insertedId.Some? && linkError.Some? ==>
      r.outcome == Failed(MessageOr(linkError.value.message, LinkInsertFallback))
  {
    var payload := MapFormToPayload(f);
    if insertError.Some? then
      Run([InsertMateria(payload)], Failed(MessageOr(insertError.value.message, InsertFallback)))
    else if insertedId.None? then
      Run([InsertMateria(payload)], Failed(MissingIdMessage))
    else
      var linked := [InsertMateria(payload), InsertLink(insertedId.value, payload.planEstudioId)];
      if linkError.Some? then Run(linked, Failed(MessageOr(linkError.value.message, LinkInsertFallback)))
      else Run(linked, Done)
  }

  /** An entry of the plan upload history. */
  datatype HistorialItem = HistorialItem(id: int, fecha: string, nombreArchivo: string, estado: string)

  const DefaultHistorialLimit := 50
  const HistorialError := "Error al obtener historial de plan de estudios"

  function HistorialUrl(apiBase: string, limit: int): string {
    apiBase + "/plan/historial?limit=" + IntToString(limit)
  }

  /** `getPlanHistorial`: a failed status throws; a reply without an item list is an empty history. */
  function GetPlanHistorial(httpOk: bool, items: Option<seq<HistorialItem>>): (r: Result<seq<HistorialItem>, string>)
    ensures r.Err? <==> !httpOk
    ensures r.Err? ==> r.error == HistorialError
    ensures httpOk ==> r.value == items.GetOr([])
  {
    if !httpOk then Err(HistorialError) else Ok(items.GetOr([]))
  }
}
