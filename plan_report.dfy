/**
 * The study-plan report (`PlanReportView`): the subjects of every plan with
 * search, a plan filter and a type filter, fifteen-row pages, creation,
 * editing and deletion through the plan service, spreadsheet export, the
 * upload of plan PDFs and the upload history.
 */
module PlanReport {
  import opened Wrappers
  import opened Text
  import opened Seqs
  import opened Records
  import opened TableSearch
  import Pagination
  import PlanService

  /** `selectedPlanId`: `"all"` or one plan. */
  datatype PlanFilter = AllPlans | OnlyPlan(id: int)

  /** The text the search box is matched against. */
  function SearchText(r: PlanRecord): string {
    Join([r.codigo, r.nombreMateria, r.planNombre, r.planVersion], " ")
  }

  predicate Keep(r: PlanRecord, search: string, plan: PlanFilter, tipo: string) {
    MatchesQuery(SearchText(r), search)
    && (plan.AllPlans? || r.planId == plan.id)
    && ColumnMatches(tipo, ToUpper(r.tipo))
  }

  /** `filteredRecords`. */
  function FilterRecords(rs: seq<PlanRecord>, search: string, plan: PlanFilter, tipo: string): seq<PlanRecord> {
    Filter(rs, r => Keep(r, search, plan, tipo))
  }

  /** A subject is listed exactly when it is loaded, matches the search, and passes both filters. */
  lemma FilterRecordsSpec(rs: seq<PlanRecord>, search: string, plan: PlanFilter, tipo: string)
    ensures forall r :: r in FilterRecords(rs, search, plan, tipo) <==>
      r in rs && MatchesQuery(SearchText(r), search)
      && (plan.AllPlans? || r.planId == plan.id)
      && (tipo == All || ToUpper(r.tipo) == tipo)
  {
    FilterMembership(rs, r => Keep(r, search, plan, tipo));
  }

  /** The type filter ignores the letter case of the stored type. */
  lemma TipoFilterIgnoresCase(r: PlanRecord, search: string, plan: PlanFilter, tipo: string)
    ensures Keep(r, search, plan, tipo) <==> Keep(r.(tipo := ToUpper(r.tipo)), search, plan, tipo)
  {
    UpperCaseFacts(r.tipo);
  }

  /** A subject can be found by its code. */
  lemma SearchFindsCodigo(r: PlanRecord)
    ensures MatchesQuery(SearchText(r), r.codigo)
  {
    JoinContainsPart([r.codigo, r.nombreMateria, r.planNombre, r.planVersion], " ", 0);
    LowerKeepsContains(SearchText(r), r.codigo);
  }

  /** The badge colour of an upload's state. */
  datatype Pill = Emerald | Yellow | Red | Gray

  /** `getEstadoPillClasses`. */
  function EstadoPill(estado: string): (p: Pill)
    ensures p == Emerald <==> estado == "COMPLETADO" || estado == "OK"
    ensures p == Yellow <==> estado == "PENDIENTE"
    ensures p == Red <==> estado == "ERROR" || estado == "RECHAZADO"
  {
    if estado == "COMPLETADO" || estado == "OK" then Emerald
    else if estado == "PENDIENTE" then Yellow
    else if estado == "ERROR" || estado == "RECHAZADO" then Red
    else Gray
  }

  /** Only the five known states are coloured; anything else, in any other letter case too, is gray. */
  lemma EstadoPillGrayOtherwise(estado: string)
    requires estado !in ["COMPLETADO", "OK", "PENDIENTE", "ERROR", "RECHAZADO"]
    ensures EstadoPill(estado) == Gray
  {
    assert estado != "COMPLETADO" && estado != "OK" && estado != "PENDIENTE";
    assert estado != "ERROR" && estado != "RECHAZADO";
  }

  /** The form's initial state and the one `handleCloseEditModal` leaves untouched. */
  const InitialForm := PlanService.PlanForm("", "", 0, PlanService.DefaultTipo, 0)

  /** `openCreate`: an empty subject of the first plan of the catalogue, or of no plan. */
  function CreateForm(catalog: seq<PlanService.PlanOption>): (f: PlanService.PlanForm)
    ensures f.codigo == "" && f.nombreMateria == "" && f.creditos == 0 && f.tipo == "OBLIGATORIA"
    ensures |catalog| == 0 ==> f.planId == 0
    ensures |catalog| > 0 ==> f.planId == catalog[0].id
    ensures !SaveComplete(f)
  {
    PlanService.PlanForm("", "", 0, PlanService.DefaultTipo, if |catalog| > 0 then catalog[0].id else 0)
  }

  /** `openEdit`: the editable fields of a subject. */
  function FormOf(r: PlanRecord): PlanService.PlanForm {
    PlanService.PlanForm(r.codigo, r.nombreMateria, r.creditos, r.tipo, r.planId)
  }

  /** The save guard: a code and a name that are not only white space, and a plan. */
  predicate SaveComplete(f: PlanService.PlanForm) {
    !IsBlank(f.codigo) && !IsBlank(f.nombreMateria) && f.planId != 0
  }

  /** The guard is the trimmed-emptiness test of `handleSaveEdit`. */
  lemma SaveCompleteSpec(f: PlanService.PlanForm)
    ensures SaveComplete(f) <==> Trim(f.codigo) != "" && Trim(f.nombreMateria) != "" && f.planId != 0
  {
    TrimEmptyIffBlank(f.codigo);
    TrimEmptyIffBlank(f.nombreMateria);
  }

  /** `prev.map(r => r.id === updated.id ? updated : r)`, with the record given explicitly. */
  function ReplaceById(rs: seq<PlanRecord>, updated: PlanRecord): (r: seq<PlanRecord>)
    ensures |r| == |rs|
    ensures forall i :: 0 <= i < |rs| && rs[i].id != updated.id ==> r[i] == rs[i]
    ensures forall i :: 0 <= i < |rs| && rs[i].id == updated.id ==> r[i] == updated
  {
    MapWhere(rs, (p: PlanRecord) => p.id == updated.id, _ => updated)
  }

  /** Every subject with another id stays where it was. */
  lemma ReplaceByIdKeepsOthers(rs: seq<PlanRecord>, updated: PlanRecord)
    ensures Filter(ReplaceById(rs, updated), (p: PlanRecord) => p.id != updated.id)
         == Filter(rs, (p: PlanRecord) => p.id != updated.id)
  {
    MapWhereKeepsOthers(rs, (p: PlanRecord) => p.id == updated.id, _ => updated, (p: PlanRecord) => p.id != updated.id);
  }

  /** `prev.filter(r => r.id !== id)`. */
  function RemoveById(rs: seq<PlanRecord>, id: int): (r: seq<PlanRecord>)
    ensures |r| <= |rs|
  {
    Filter(rs, (p: PlanRecord) => p.id != id)
  }

  /** After a delete no subject has the id, every other one is kept, and deleting again changes nothing. */
  lemma RemoveByIdSpec(rs: seq<PlanRecord>, id: int)
    ensures forall p :: p in RemoveById(rs, id) <==> p in rs && p.id != id
    ensures RemoveById(RemoveById(rs, id), id) == RemoveById(rs, id)
    ensures (forall p :: p in rs ==> p.id != id) ==> RemoveById(rs, id) == rs
  {
    FilterMembership(rs, (p: PlanRecord) => p.id != id);
    FilterKeepsAll(RemoveById(rs, id), (p: PlanRecord) => p.id != id);
    if forall p :: p in rs ==> p.id != id {
      FilterKeepsAll(rs, (p: PlanRecord) => p.id != id);
    }
  }

  /*
   * The edit and create branches of `handleSaveEdit` use the results of
   * `updatePlanMateria` and `createPlanMateria` as records, but both resolve
   * to nothing. `None` below stands for that `undefined`.
   */

  /** The edit branch as written: reading `updated.id` fails as soon as the list has an entry. */
  function ApplyUpdateAsWritten(rs: seq<PlanRecord>, updated: Option<PlanRecord>): (r: Result<seq<PlanRecord>, string>)
    ensures r.Err? <==> updated.None? && |rs| > 0
    ensures updated.Some? ==> r == Ok(ReplaceById(rs, updated.value))
  {
    if updated.Some? then Ok(ReplaceById(rs, updated.value))
    else if |rs| > 0 then Err("TypeError: Cannot read properties of undefined (reading 'id')")
    else Ok(rs)
  }

  /** The create branch as written: the list gets the missing result as its first entry. */
  function PrependAsWritten(rs: seq<PlanRecord>, created: Option<PlanRecord>): (r: seq<Option<PlanRecord>>)
    ensures |r| == |rs| + 1 && r[0] == created
    ensures forall i :: 0 <= i < |rs| ==> r[i + 1] == Some(rs[i])
  {
    [created] + seq(|rs|, i requires 0 <= i < |rs| => Some(rs[i]))
  }

  /** Filtering a list that holds the missing entry fails, since the filter reads its fields. */
  function FilterAsWritten(rs: seq<Option<PlanRecord>>, search: string, plan: PlanFilter, tipo: string): (r: Result<seq<PlanRecord>, string>)
    ensures r.Err? <==> exists i :: 0 <= i < |rs| && rs[i].None?
  {
    if |rs| == 0 then Ok([])
    else if rs[0].None? then Err("TypeError: Cannot read properties of undefined (reading 'codigo')")
    else
      var rest := FilterAsWritten(rs[1..], search, plan, tipo);
      if rest.Err? then
        assert forall i :: 1 <= i < |rs| ==> rs[i] == rs[1..][i - 1];
        rest
      else
        assert forall i :: 0 <= i < |rs[1..]| ==> rs[1..][i] == rs[i + 1];
        Ok((if Keep(rs[0].value, search, plan, tipo) then [rs[0].value] else []) + rest.value)
  }

  /** With the service as declared, editing a non-empty table fails. */
  lemma UpdateAsWrittenFails(r: PlanRecord)
    ensures ApplyUpdateAsWritten([r], None).Err?
  {
  }

  /** With the service as declared, creating a subject leaves a table that can no longer be filtered. */
  lemma {:induction false} CreateAsWrittenBreaksTable(rs: seq<PlanRecord>, search: string, plan: PlanFilter, tipo: string)
    ensures FilterAsWritten(PrependAsWritten(rs, None), search, plan, tipo).Err?
  {
    assert PrependAsWritten(rs, None)[0].None?;
  }

  /** With the created record in hand, prepending puts it first and keeps every loaded subject in order. */
  function PrependCreated(rs: seq<PlanRecord>, created: PlanRecord): (r: seq<PlanRecord>)
    ensures |r| == |rs| + 1 && r[0] == created && r[1..] == rs
  {
    [created] + rs
  }

  /** The corrected create branch filters like the as-written one would on a list of real records. */
  lemma {:induction false} FilterAsWrittenAgrees(rs: seq<PlanRecord>, search: string, plan: PlanFilter, tipo: string)
    ensures FilterAsWritten(seq(|rs|, i requires 0 <= i < |rs| => Some(rs[i])), search, plan, tipo)
         == Ok(FilterRecords(rs, search, plan, tipo))
  {
    var os := seq(|rs|, i requires 0 <= i < |rs| => Some(rs[i]));
    if |rs| > 0 {
      assert os[1..] == seq(|rs[1..]|, i requires 0 <= i < |rs[1..]| => Some(rs[1..][i]));
      FilterAsWrittenAgrees(rs[1..], search, plan, tipo);
      assert rs == [rs[0]] + rs[1..];
      FilterAppend([rs[0]], rs[1..], r => Keep(r, search, plan, tipo));
    }
  }

  const ExportHeaders := ["Codigo", "NombreMateria", "Creditos", "Tipo", "Plan", "Version", "CreditosPlan"]

  /** One spreadsheet row; a plan without a credit total gets `""`. */
  function ExportRow(r: PlanRecord): (row: seq<Cell>)
    ensures |row| == |ExportHeaders|
    ensures row[0] == Text(r.codigo) && row[1] == Text(r.nombreMateria) && row[2] == Number(r.creditos)
    ensures row[3] == Text(r.tipo) && row[4] == Text(r.planNombre) && row[5] == Text(r.planVersion)
    ensures r.planTotalCreditos.None? <==> row[6] == Text("")
    ensures r.planTotalCreditos.Some? ==> row[6] == Number(r.planTotalCreditos.value)
  {
    [Text(r.codigo), Text(r.nombreMateria), Number(r.creditos), Text(r.tipo), Text(r.planNombre),
     Text(r.planVersion), NumberOrEmpty(r.planTotalCreditos)]
  }

  function ExportRows(rs: seq<PlanRecord>): (rows: seq<seq<Cell>>)
    ensures |rows| == |rs|
    ensures forall i :: 0 <= i < |rs| ==> rows[i] == ExportRow(rs[i])
  {
    seq(|rs|, i requires 0 <= i < |rs| => ExportRow(rs[i]))
  }

  datatype EditMode = NoEdit | Editing(record: PlanRecord) | Creating

  datatype ViewMode = TableView | UploadView

  /** A staged PDF; only its identity matters here. */
  datatype FileRef = FileRef(name: string)

  /** The requests the view sends, in order. */
  datatype PlanCall =
    | GetPlanesCatalog
    | GetPlanMaterias
    | GetPlanHistorial(limit: int)
    | UploadPlanPdf(file: FileRef, force: bool, debug: bool, ocr: bool)
    | UpdatePlanMateria(id: int, form: PlanService.PlanForm)
    | CreatePlanMateria(form: PlanService.PlanForm)
    | DeletePlanMateria(id: int)

  const LoadError := "Error al cargar la información de planes de estudio."
  const NoFileMessage := "Selecciona primero un archivo PDF de plan de estudios."
  const UploadError := "Ocurrió un error al subir o procesar el plan de estudios."

  const NoFileAlert := Alert(Error, "Archivo no seleccionado", NoFileMessage)
  const ProcessedAlert := Alert(Success, "Plan procesado",
    "El plan de estudios se procesó correctamente y las materias fueron actualizadas.")
  const UploadErrorAlert := Alert(Error, "Error al procesar plan", UploadError)
  const IncompleteAlert := Alert(Error, "Datos incompletos", "Código, nombre de materia y plan son obligatorios.")
  const CreatedAlert := Alert(Success, "Materia creada", "La materia se agregó correctamente al plan de estudios.")
  const UpdatedAlert := Alert(Success, "Materia actualizada", "Los cambios de la materia se guardaron correctamente.")
  const SaveErrorAlert := Alert(Error, "Error al guardar", "Ocurrió un error al guardar la materia de plan.")
  const DeletedAlert := Alert(Success, "Materia eliminada", "La materia se eliminó correctamente del plan de estudios.")
  const DeleteErrorAlert := Alert(Error, "Error al eliminar",
    "No se pudo eliminar la materia del plan de estudios. Intenta de nuevo más tarde.")

  class PlanView {
    var records: seq<PlanRecord>
    var planOptions: seq<PlanService.PlanOption>
    var loading: bool
    var errorMsg: Option<string>
    var search: string
    var planFilter: PlanFilter
    var tipoFilter: string
    var currentPage: int
    var viewMode: ViewMode
    var historial: seq<PlanService.HistorialItem>
    var uploadFile: Option<FileRef>
    var uploadLoading: bool
    var lastUpload: Option<PlanService.PlanUploadResponse>
    var editMode: EditMode
    var editForm: PlanService.PlanForm
    /** `recordToDelete`; the confirmation dialog is open exactly while it is set. */
    var deleteTarget: Option<PlanRecord>
    var alert: Option<Alert>
    var calls: seq<PlanCall>

    predicate Valid()
      reads this
    {
      currentPage >= 1
    }

    constructor()
      ensures Valid()
      ensures records == [] && planOptions == [] && !loading && errorMsg == None
      ensures search == "" && planFilter == AllPlans && tipoFilter == All && currentPage == 1
      ensures viewMode == TableView && historial == [] && uploadFile == None && !uploadLoading && lastUpload == None
      ensures editMode == NoEdit && editForm == InitialForm && deleteTarget == None && alert == None && calls == []
    {
      records := [];
      planOptions := [];
      loading := false;
      errorMsg := None;
      search := "";
      planFilter := AllPlans;
      tipoFilter := All;
      currentPage := 1;
      viewMode := TableView;
      historial := [];
      uploadFile := None;
      uploadLoading := false;
      lastUpload := None;
      editMode := NoEdit;
      editForm := InitialForm;
      deleteTarget := None;
      alert := None;
      calls := [];
    }

    function Filtered(): seq<PlanRecord>
      reads this
    {
      FilterRecords(records, search, planFilter, tipoFilter)
    }

    function TotalPages(): nat
      reads this
    {
      Pagination.TotalPages(|Filtered()|)
    }

    function Paginated(): seq<PlanRecord>
      requires Valid()
      reads this
    {
      Pagination.PageItems(Filtered(), currentPage)
    }

    /**
     * `loadData`: the catalogue and the subjects together; either failing
     * keeps both. A loaded catalogue gives an unset form plan its first plan.
     */
    method LoadData(catalog: Result<seq<PlanService.PlanOption>, string>, materias: Result<seq<PlanRecord>, string>)
      modifies this`loading, this`errorMsg, this`planOptions, this`records, this`editForm, this`calls
      ensures !loading
      ensures calls == old(calls) + [GetPlanesCatalog, GetPlanMaterias]
      ensures catalog.Ok? && materias.Ok? ==>
        planOptions == catalog.value && records == materias.value && errorMsg == None
        && editForm == (if |catalog.value| > 0 && old(editForm).planId == 0
                        then old(editForm).(planId := catalog.value[0].id) else old(editForm))
      ensures catalog.Err? || materias.Err? ==>
        planOptions == old(planOptions) && records == old(records) && editForm == old(editForm)
        && errorMsg == Some(LoadError)
    {
      loading := true;
      errorMsg := None;
      calls := calls + [GetPlanesCatalog, GetPlanMaterias];
      if catalog.Err? || materias.Err? {
        errorMsg := Some(LoadError);
      } else {
        planOptions := catalog.value;
        records := materias.value;
        if |catalog.value| > 0 && editForm.planId == 0 {
          editForm := editForm.(planId := catalog.value[0].id);
        }
      }
      loading := false;
    }

    /**
     * `handleShowUpload` and the effect it triggers: entering the upload
     * view fetches the history; a failure is only logged.
     */
    method ShowUpload(fetched: Result<seq<PlanService.HistorialItem>, string>)
      modifies this`viewMode, this`historial, this`calls
      ensures viewMode == UploadView
      ensures old(viewMode) == UploadView ==> calls == old(calls) && historial == old(historial)
      ensures old(viewMode) != UploadView ==>
        calls == old(calls) + [GetPlanHistorial(PlanService.DefaultHistorialLimit)]
        && historial == (if fetched.Ok? then fetched.value else old(historial))
    {
      if viewMode != UploadView {
        viewMode := UploadView;
        calls := calls + [GetPlanHistorial(PlanService.DefaultHistorialLimit)];
        if fetched.Ok? {
          historial := fetched.value;
        }
      }
    }

    method ShowTable()
      modifies this`viewMode
      ensures viewMode == TableView
    {
      viewMode := TableView;
    }

    method SetSearch(text: string)
      modifies this`search, this`currentPage
      ensures Valid() && search == text && currentPage == 1
    {
      search := text;
      currentPage := 1;
    }

    method SetPlanFilter(f: PlanFilter)
      modifies this`planFilter, this`currentPage
      ensures Valid() && planFilter == f && currentPage == 1
    {
      planFilter := f;
      currentPage := 1;
    }

    method SetTipoFilter(t: string)
      requires t == All || t == "OBLIGATORIA" || t == "OPTATIVA"
      modifies this`tipoFilter, this`currentPage
      ensures Valid() && tipoFilter == t && currentPage == 1
    {
      tipoFilter := t;
      currentPage := 1;
    }

    method First()
      modifies this`currentPage
      ensures Valid() && currentPage == 1
    {
      currentPage := 1;
    }

    method Prev()
      requires Valid()
      modifies this`currentPage
      ensures Valid() && currentPage == Pagination.PrevPage(old(currentPage))
    {
      currentPage := Pagination.PrevPage(currentPage);
    }

    method Next()
      requires Valid()
      modifies this`currentPage
      ensures Valid() && currentPage == Pagination.NextPage(old(currentPage), TotalPages())
    {
      currentPage := Pagination.NextPage(currentPage, TotalPages());
    }

    method Last()
      modifies this`currentPage
      ensures Valid() && currentPage == TotalPages()
    {
      currentPage := TotalPages();
    }

    /** `handleExport`. */
    method Export() returns (rows: Option<seq<seq<Cell>>>)
      modifies this`alert
      ensures Filtered() == [] ==> rows == None && alert == Some(NoRecordsToExport)
      ensures Filtered() != [] ==> rows == Some(ExportRows(Filtered())) && alert == old(alert)
    {
      if |Filtered()| == 0 {
        alert := Some(NoRecordsToExport);
        return None;
      }
      rows := Some(ExportRows(Filtered()));
    }

    method SetUploadFile(f: Option<FileRef>)
      modifies this`uploadFile
      ensures uploadFile == f
    {
      uploadFile := f;
    }

    /**
     * `handleUploadPlan`: a staged PDF is sent with the debug flag; on success
     * the data is reloaded (a failed reload is reported by `loadData` itself)
     * and the table is shown.
     */
    method UploadPlan(uploaded: Result<PlanService.PlanUploadResponse, string>,
                      catalog: Result<seq<PlanService.PlanOption>, string>,
                      materias: Result<seq<PlanRecord>, string>)
      modifies this`loading, this`errorMsg, this`planOptions, this`records, this`editForm, this`calls,
        this`uploadLoading, this`lastUpload, this`viewMode, this`alert
      ensures old(uploadFile).None? ==>
        errorMsg == Some(NoFileMessage) && alert == Some(NoFileAlert) && calls == old(calls)
        && records == old(records) && uploadLoading == old(uploadLoading) && loading == old(loading)
        && planOptions == old(planOptions) && editForm == old(editForm) && lastUpload == old(lastUpload)
        && viewMode == old(viewMode)
      ensures old(uploadFile).Some? ==> !uploadLoading
      ensures old(uploadFile).Some? && uploaded.Err? ==>
        calls == old(calls) + [UploadPlanPdf(old(uploadFile).value, false, true, false)]
        && records == old(records) && errorMsg == Some(UploadError) && alert == Some(UploadErrorAlert)
        && loading == old(loading) && planOptions == old(planOptions) && editForm == old(editForm)
        && lastUpload == old(lastUpload) && viewMode == old(viewMode)
      ensures old(uploadFile).Some? && uploaded.Ok? ==>
        calls == old(calls) + [UploadPlanPdf(old(uploadFile).value, false, true, false), GetPlanesCatalog, GetPlanMaterias]
        && lastUpload == Some(uploaded.value) && viewMode == TableView && alert == Some(ProcessedAlert)
        && !loading
      ensures old(uploadFile).Some? && uploaded.Ok? && catalog.Ok? && materias.Ok? ==>
        records == materias.value && planOptions == catalog.value && errorMsg == None
        && editForm == (if |catalog.value| > 0 && old(editForm).planId == 0
                        then old(editForm).(planId := catalog.value[0].id) else old(editForm))
      ensures old(uploadFile).Some? && uploaded.Ok? && (catalog.Err? || materias.Err?) ==>
        records == old(records) && planOptions == old(planOptions) && editForm == old(editForm)
        && errorMsg == Some(LoadError)
    {
      if uploadFile.None? {
        errorMsg := Some(NoFileMessage);
        alert := Some(NoFileAlert);
        return;
      }
      uploadLoading := true;
      errorMsg := None;
      calls := calls + [UploadPlanPdf(uploadFile.value, false, true, false)];
      if uploaded.Err? {
        errorMsg := Some(UploadError);
        alert := Some(UploadErrorAlert);
      } else {
        lastUpload := Some(uploaded.value);
        LoadData(catalog, materias);
        viewMode := TableView;
        alert := Some(ProcessedAlert);
      }
      uploadLoading := false;
    }

    method OpenEdit(r: PlanRecord)
      modifies this`editMode, this`editForm
      ensures editMode == Editing(r) && editForm == FormOf(r)
    {
      editMode := Editing(r);
      editForm := FormOf(r);
    }

    method OpenCreate()
      modifies this`editMode, this`editForm
      ensures editMode == Creating && editForm == CreateForm(planOptions)
    {
      editMode := Creating;
      editForm := CreateForm(planOptions);
    }

    method SetEditForm(f: PlanService.PlanForm)
      modifies this`editForm
      ensures editForm == f
    {
      editForm := f;
    }

    /** `handleCloseEditModal`: the form keeps what was typed. */
    method CloseEditModal()
      modifies this`editMode
      ensures editMode == NoEdit
    {
      editMode := NoEdit;
    }

    method DeleteClick(r: PlanRecord)
      modifies this`deleteTarget
      ensures deleteTarget == Some(r)
    {
      deleteTarget := Some(r);
    }

    /** `confirmDelete`: only a confirmed server delete removes the subject; the dialog closes either way. */
    method ConfirmDelete(deleted: Outcome)
      modifies this`records, this`deleteTarget, this`alert, this`calls
      ensures deleteTarget == None
      ensures old(deleteTarget).None? ==> records == old(records) && alert == old(alert) && calls == old(calls)
      ensures old(deleteTarget).Some? ==>
        calls == old(calls) + [DeletePlanMateria(old(deleteTarget).value.id)]
        && (deleted.Done? ==> records == RemoveById(old(records), old(deleteTarget).value.id) && alert == Some(DeletedAlert))
        && (deleted.Failed? ==> records == old(records) && alert == Some(DeleteErrorAlert))
    {
      if deleteTarget.None? {
        return;
      }
      calls := calls + [DeletePlanMateria(deleteTarget.value.id)];
      if deleted.Done? {
        records := RemoveById(records, deleteTarget.value.id);
        alert := Some(DeletedAlert);
      } else {
        alert := Some(DeleteErrorAlert);
      }
      deleteTarget := None;
    }

    /**
     * `handleSaveEdit`, with the saved record as the service result. An
     * incomplete form sends nothing. Without an edit mode nothing is sent
     * and the dialog closes as after an update.
     */
    method SaveEdit(saved: Result<PlanRecord, string>)
      requires Valid()
      modifies this`records, this`currentPage, this`editMode, this`alert, this`calls
      ensures Valid()
      ensures !SaveComplete(editForm) ==>
        records == old(records) && calls == old(calls) && currentPage == old(currentPage)
        && editMode == old(editMode) && alert == Some(IncompleteAlert)
      ensures SaveComplete(editForm) && old(editMode).NoEdit? ==>
        records == old(records) && calls == old(calls) && currentPage == old(currentPage)
        && editMode == NoEdit && alert == Some(UpdatedAlert)
      ensures SaveComplete(editForm) && old(editMode).Editing? ==>
        calls == old(calls) + [UpdatePlanMateria(old(editMode).record.id, editForm)]
        && currentPage == old(currentPage)
        && (saved.Ok? ==> records == ReplaceById(old(records), saved.value) && editMode == NoEdit && alert == Some(UpdatedAlert))
        && (saved.Err? ==> records == old(records) && editMode == old(editMode) && alert == Some(SaveErrorAlert))
      ensures SaveComplete(editForm) && old(editMode).Creating? ==>
        calls == old(calls) + [CreatePlanMateria(editForm)]
        && (saved.Ok? ==> records == PrependCreated(old(records), saved.value) && currentPage == 1
                          && editMode == NoEdit && alert == Some(CreatedAlert))
        && (saved.Err? ==> records == old(records) && currentPage == old(currentPage)
                           && editMode == old(editMode) && alert == Some(SaveErrorAlert))
    {
      if !SaveComplete(editForm) {
        alert := Some(IncompleteAlert);
        return;
      }
      match editMode {
        case NoEdit =>
          CloseEditModal();
          alert := Some(UpdatedAlert);
        case Editing(target) =>
          calls := calls + [UpdatePlanMateria(target.id, editForm)];
          if saved.Err? {
            alert := Some(SaveErrorAlert);
            return;
          }
          records := ReplaceById(records, saved.value);
          CloseEditModal();
          alert := Some(UpdatedAlert);
        case Creating =>
          calls := calls + [CreatePlanMateria(editForm)];
          if saved.Err? {
            alert := Some(SaveErrorAlert);
            return;
          }
          records := PrependCreated(records, saved.value);
          currentPage := 1;
          CloseEditModal();
          alert := Some(CreatedAlert);
      }
    }
  }
}
