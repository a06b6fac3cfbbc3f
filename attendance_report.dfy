/**
 * The attendance report (`AttendanceReportView`): the student–group–subject
 * relations with search, three column filters, fifteen-row pages, local
 * editing and deletion by composite key, creation through the service,
 * spreadsheet export, and the upload of attendance lists.
 */
module AttendanceReport {
  import opened Wrappers
  import opened Text
  import opened Seqs
  import opened Records
  import opened TableSearch
  import Pagination
  import AsistenciaService

  /** `filterPeriodo`, `filterCodigo`, `filterGrupo`. */
  datatype AttendanceFilters = AttendanceFilters(periodo: string, codigo: string, grupo: string)

  const NoFilters := AttendanceFilters(All, All, All)

  datatype Column = PeriodoColumn | CodigoColumn | GrupoColumn

  function WithFilter(f: AttendanceFilters, c: Column, v: string): AttendanceFilters {
    match c
    case PeriodoColumn => f.(periodo := v)
    case CodigoColumn => f.(codigo := v)
    case GrupoColumn => f.(grupo := v)
  }

  function ColumnValue(r: AttendanceRecord, c: Column): string {
    match c
    case PeriodoColumn => r.periodo
    case CodigoColumn => r.codigoMateria
    case GrupoColumn => r.grupo
  }

  /** The text the search box is matched against: the subject, the group and the student. */
  function SearchText(r: AttendanceRecord): string {
    Join([r.periodo, r.codigoMateria, r.nombreMateria, r.grupo, r.matricula,
          r.nombreAlumno, r.apellidoPaterno, r.apellidoMaterno.GetOr("")], " ")
  }

  predicate Keep(r: AttendanceRecord, search: string, f: AttendanceFilters) {
    MatchesQuery(SearchText(r), search)
    && ColumnMatches(f.periodo, r.periodo)
    && ColumnMatches(f.codigo, r.codigoMateria)
    && ColumnMatches(f.grupo, r.grupo)
  }

  /** `filteredRecords`. */
  function FilterRecords(rs: seq<AttendanceRecord>, search: string, f: AttendanceFilters): seq<AttendanceRecord> {
    Filter(rs, r => Keep(r, search, f))
  }

  /** A relation is listed exactly when it is loaded and passes the search and every column filter. */
  lemma FilterRecordsSpec(rs: seq<AttendanceRecord>, search: string, f: AttendanceFilters)
    ensures forall r :: r in FilterRecords(rs, search, f) <==>
      r in rs && MatchesQuery(SearchText(r), search)
      && (f.periodo == All || r.periodo == f.periodo)
      && (f.codigo == All || r.codigoMateria == f.codigo)
      && (f.grupo == All || r.grupo == f.grupo)
  {
    FilterMembership(rs, r => Keep(r, search, f));
  }

  /** A student can be found by enrolment number alone. */
  lemma SearchFindsMatricula(r: AttendanceRecord)
    ensures MatchesQuery(SearchText(r), r.matricula)
  {
    var parts := [r.periodo, r.codigoMateria, r.nombreMateria, r.grupo, r.matricula,
                  r.nombreAlumno, r.apellidoPaterno, r.apellidoMaterno.GetOr("")];
    JoinContainsPart(parts, " ", 4);
    LowerKeepsContains(SearchText(r), r.matricula);
  }

  function ColumnValues(rs: seq<AttendanceRecord>, c: Column): seq<string> {
    seq(|rs|, i requires 0 <= i < |rs| => ColumnValue(rs[i], c))
  }

  /** `periodoOptions`, `codigoOptions`, `grupoOptions`. */
  function Options(rs: seq<AttendanceRecord>, c: Column): seq<string> {
    OptionList(ColumnValues(rs, c))
  }

  /** Each option list is sorted, free of duplicates, and offers exactly the non-blank values present. */
  lemma OptionsSpec(rs: seq<AttendanceRecord>, c: Column)
    ensures StrictlySorted(Options(rs, c)) && NoDuplicates(Options(rs, c))
    ensures forall v :: v in Options(rs, c) <==>
      !IsBlank(v) && exists r :: r in rs && ColumnValue(r, c) == v
  {
    var vs := ColumnValues(rs, c);
    OptionListSpec(vs);
    forall v ensures v in vs <==> exists r :: r in rs && ColumnValue(r, c) == v {
      if v in vs {
        var i :| 0 <= i < |vs| && vs[i] == v;
        assert rs[i] in rs;
      }
      if exists r :: r in rs && ColumnValue(r, c) == v {
        var r :| r in rs && ColumnValue(r, c) == v;
        var i :| 0 <= i < |rs| && rs[i] == r;
        assert vs[i] == v;
      }
    }
  }

  /** Two relations are the same when period, subject, group and enrolment number agree. */
  predicate SameKey(a: AttendanceRecord, b: AttendanceRecord) {
    a.periodo == b.periodo && a.codigoMateria == b.codigoMateria
    && a.grupo == b.grupo && a.matricula == b.matricula
  }

  /** `confirmDelete`: every relation with the target's key goes, the rest stay in order. */
  function RemoveByKey(rs: seq<AttendanceRecord>, target: AttendanceRecord): (r: seq<AttendanceRecord>)
    ensures |r| <= |rs|
  {
    Filter(rs, x => !SameKey(x, target))
  }

  lemma RemoveByKeySpec(rs: seq<AttendanceRecord>, target: AttendanceRecord)
    ensures forall x :: x in RemoveByKey(rs, target) <==> x in rs && !SameKey(x, target)
    ensures target !in RemoveByKey(rs, target)
    ensures (forall x :: x in rs ==> !SameKey(x, target)) ==> RemoveByKey(rs, target) == rs
  {
    FilterMembership(rs, x => !SameKey(x, target));
    if forall x :: x in rs ==> !SameKey(x, target) {
      FilterKeepsAll(rs, x => !SameKey(x, target));
    }
  }

  /** Deleting the same relation twice is the same as deleting it once. */
  lemma RemoveByKeyIdempotent(rs: seq<AttendanceRecord>, target: AttendanceRecord)
    ensures RemoveByKey(RemoveByKey(rs, target), target) == RemoveByKey(rs, target)
  {
    RemoveByKeySpec(rs, target);
    var once := RemoveByKey(rs, target);
    FilterKeepsAll(once, x => !SameKey(x, target));
  }

  /** The edit form: absent fields are `None`; the maternal surname may be present as `null`. */
  datatype AttendanceForm = AttendanceForm(
    periodo: Option<string>,
    codigoMateria: Option<string>,
    nombreMateria: Option<string>,
    grupo: Option<string>,
    matricula: Option<string>,
    nombreAlumno: Option<string>,
    apellidoPaterno: Option<string>,
    apellidoMaterno: Option<Option<string>>)

  const EmptyForm := AttendanceForm(None, None, None, None, None, None, None, None)

  /** `handleEditClick`: the eight editable fields of a record. */
  function FormOf(r: AttendanceRecord): AttendanceForm {
    AttendanceForm(Some(r.periodo), Some(r.codigoMateria), Some(r.nombreMateria), Some(r.grupo),
      Some(r.matricula), Some(r.nombreAlumno), Some(r.apellidoPaterno), Some(r.apellidoMaterno))
  }

  /** `handleCreateClick`: the five asked fields empty, the names not asked. */
  const CreateForm := AttendanceForm(Some(""), Some(""), Some(""), Some(""), Some(""), None, None, None)

  /** `{ ...r, ...editForm }`: each present form field overrides the record's. */
  function Merge(r: AttendanceRecord, f: AttendanceForm): (m: AttendanceRecord)
    ensures f.periodo.None? ==> m.periodo == r.periodo
    ensures f.periodo.Some? ==> m.periodo == f.periodo.value
    ensures f.codigoMateria.None? ==> m.codigoMateria == r.codigoMateria
    ensures f.codigoMateria.Some? ==> m.codigoMateria == f.codigoMateria.value
    ensures f.nombreMateria.None? ==> m.nombreMateria == r.nombreMateria
    ensures f.nombreMateria.Some? ==> m.nombreMateria == f.nombreMateria.value
    ensures f.grupo.None? ==> m.grupo == r.grupo
    ensures f.grupo.Some? ==> m.grupo == f.grupo.value
    ensures f.matricula.None? ==> m.matricula == r.matricula
    ensures f.matricula.Some? ==> m.matricula == f.matricula.value
    ensures f.nombreAlumno.None? ==> m.nombreAlumno == r.nombreAlumno
    ensures f.nombreAlumno.Some? ==> m.nombreAlumno == f.nombreAlumno.value
    ensures f.apellidoPaterno.None? ==> m.apellidoPaterno == r.apellidoPaterno
    ensures f.apellidoPaterno.Some? ==> m.apellidoPaterno == f.apellidoPaterno.value
    ensures f.apellidoMaterno.None? ==> m.apellidoMaterno == r.apellidoMaterno
    ensures f.apellidoMaterno.Some? ==> m.apellidoMaterno == f.apellidoMaterno.value
    ensures m.expediente == r.expediente && m.fechaAlta == r.fechaAlta && m.fuente == r.fuente
    ensures m.archivoId == r.archivoId && m.nombreArchivo == r.nombreArchivo && m.fechaArchivo == r.fechaArchivo
  {
    r.(periodo := f.periodo.GetOr(r.periodo),
       codigoMateria := f.codigoMateria.GetOr(r.codigoMateria),
       nombreMateria := f.nombreMateria.GetOr(r.nombreMateria),
       grupo := f.grupo.GetOr(r.grupo),
       matricula := f.matricula.GetOr(r.matricula),
       nombreAlumno := f.nombreAlumno.GetOr(r.nombreAlumno),
       apellidoPaterno := f.apellidoPaterno.GetOr(r.apellidoPaterno),
       apellidoMaterno := f.apellidoMaterno.GetOr(r.apellidoMaterno))
  }

  /** Saving a record's own form leaves it as it was, and merging the same form twice is merging it once. */
  lemma MergeLaws(r: AttendanceRecord, f: AttendanceForm)
    ensures Merge(r, FormOf(r)) == r
    ensures Merge(Merge(r, f), f) == Merge(r, f)
    ensures Merge(r, EmptyForm) == r
  {
  }

  /** The local edit of `handleSaveEdit`: every relation with the edited key gets the form merged in. */
  function LocalEdit(rs: seq<AttendanceRecord>, target: AttendanceRecord, f: AttendanceForm): (r: seq<AttendanceRecord>)
    ensures |r| == |rs|
    ensures forall i :: 0 <= i < |rs| && !SameKey(rs[i], target) ==> r[i] == rs[i]
    ensures forall i :: 0 <= i < |rs| && SameKey(rs[i], target) ==> r[i] == Merge(rs[i], f)
  {
    MapWhere(rs, x => SameKey(x, target), x => Merge(x, f))
  }

  /** A form that keeps the key fields leaves every other relation where it was. */
  predicate KeepsKey(f: AttendanceForm, target: AttendanceRecord) {
    (f.periodo.None? || f.periodo.value == target.periodo)
    && (f.codigoMateria.None? || f.codigoMateria.value == target.codigoMateria)
    && (f.grupo.None? || f.grupo.value == target.grupo)
    && (f.matricula.None? || f.matricula.value == target.matricula)
  }

  lemma LocalEditKeepsOthers(rs: seq<AttendanceRecord>, target: AttendanceRecord, f: AttendanceForm)
    requires KeepsKey(f, target)
    ensures Filter(LocalEdit(rs, target, f), x => !SameKey(x, target)) == Filter(rs, x => !SameKey(x, target))
  {
    MapWhereKeepsOthers(rs, x => SameKey(x, target), x => Merge(x, f), x => !SameKey(x, target));
  }

  /** The create guard: periodo, código de materia, grupo and matrícula must be filled. */
  predicate CreateComplete(f: AttendanceForm) {
    Filled(f.periodo) && Filled(f.codigoMateria) && Filled(f.grupo) && Filled(f.matricula)
  }

  predicate Filled(v: Option<string>) {
    v.Some? && v.value != ""
  }

  const ExportHeaders := ["Periodo", "CodigoMateria", "NombreMateria", "Grupo", "Matricula",
    "NombreAlumno", "ApellidoPaterno", "ApellidoMaterno", "FechaAlta", "Fuente", "Archivo"]

  /** One spreadsheet row; every column is text and a missing value is `""`. */
  function ExportRow(r: AttendanceRecord): (row: seq<Cell>)
    ensures |row| == |ExportHeaders|
    ensures forall k :: 0 <= k < |row| ==> row[k].Text?
    ensures row[0] == Text(r.periodo) && row[1] == Text(r.codigoMateria)
    ensures row[2] == Text(r.nombreMateria) && row[3] == Text(r.grupo) && row[4] == Text(r.matricula)
    ensures row[5] == Text(r.nombreAlumno) && row[6] == Text(r.apellidoPaterno)
    ensures row[7] == Text(r.apellidoMaterno.GetOr(""))
    ensures row[8] == Text(r.fechaAlta) && row[9] == Text(r.fuente)
    ensures row[10] == Text(r.nombreArchivo.GetOr(""))
  {
    [Text(r.periodo), Text(r.codigoMateria), Text(r.nombreMateria), Text(r.grupo), Text(r.matricula),
     Text(r.nombreAlumno), Text(r.apellidoPaterno), TextOrEmpty(r.apellidoMaterno), Text(r.fechaAlta),
     Text(r.fuente), TextOrEmpty(r.nombreArchivo)]
  }

  function ExportRows(rs: seq<AttendanceRecord>): (rows: seq<seq<Cell>>)
    ensures |rows| == |rs|
    ensures forall i :: 0 <= i < |rs| ==> rows[i] == ExportRow(rs[i])
  {
    seq(|rs|, i requires 0 <= i < |rs| => ExportRow(rs[i]))
  }

  datatype EditMode = NoEdit | Editing(record: AttendanceRecord) | Creating

  datatype ViewMode = TableView | UploadView

  /** The requests the view sends, in order. */
  datatype AttendanceCall =
    | GetAttendanceResumen
    | CreateAttendance(payload: AttendanceForm)
    | UploadAsistencia(file: FileRef)
    | ProcesarAsistencia(archivoId: int, periodoEtiqueta: string)

  /** A staged file; only its identity matters here. */
  datatype FileRef = FileRef(name: string)

  const LoadError := "Error al cargar el resumen de asistencia."
  const NoFileMessage := "Selecciona un archivo de asistencia antes de subirlo."
  const NoPeriodMessage := "Debes indicar el periodo de la lista (por ejemplo, \"2025-1\") antes de procesar."
  const UploadError := "Error al subir o procesar el archivo de asistencia."
  const IncompleteMessage := "Periodo, código de materia, grupo y matrícula son obligatorios para crear la relación."
  const SaveError := "Error al guardar la relación de asistencia."

  const NoFileAlert := Alert(Error, "Archivo no seleccionado", NoFileMessage)
  const NoPeriodAlert := Alert(Error, "Periodo requerido", NoPeriodMessage)
  const ProcessedAlert := Alert(Success, "Archivo procesado",
    "El archivo de asistencia se procesó correctamente y las relaciones alumno–grupo fueron actualizadas.")
  const UploadErrorAlert := Alert(Error, "Error al procesar asistencia", UploadError)
  const DeletedAlert := Alert(Success, "Relación eliminada", "La relación alumno–grupo se eliminó correctamente.")
  const IncompleteAlert := Alert(Error, "Datos incompletos", IncompleteMessage)
  const CreatedAlert := Alert(Success, "Relación creada", "La relación alumno–grupo se creó correctamente.")
  const UpdatedAlert := Alert(Success, "Relación actualizada", "La relación alumno–grupo se actualizó correctamente.")
  const SaveErrorAlert := Alert(Error, "Error al guardar", SaveError)

  /** The requests one upload sends: the file, then processing if it was stored, then a reload if that succeeded. */
  function Sent(file: FileRef, etiqueta: string, uploaded: Result<int, string>,
                processed: Result<AsistenciaService.AsistenciaSummary, string>): (sent: seq<AttendanceCall>)
    ensures 1 <= |sent| <= 3 && sent[0] == UploadAsistencia(file)
    ensures |sent| >= 2 <==> uploaded.Ok?
    ensures uploaded.Ok? ==> sent[1] == ProcesarAsistencia(uploaded.value, etiqueta)
    ensures |sent| == 3 <==> uploaded.Ok? && processed.Ok?
  {
    [UploadAsistencia(file)]
      + (if uploaded.Ok? then [ProcesarAsistencia(uploaded.value, etiqueta)] else [])
      + (if uploaded.Ok? && processed.Ok? then [GetAttendanceResumen] else [])
  }

  class AttendanceView {
    var records: seq<AttendanceRecord>
    var loading: bool
    var errorMsg: Option<string>
    var viewMode: ViewMode
    var alert: Option<Alert>
    var selectedFile: Option<FileRef>
    var processing: bool
    var resumen: Option<AsistenciaService.AsistenciaSummary>
    var search: string
    var filters: AttendanceFilters
    var currentPage: int
    var editMode: EditMode
    var editForm: AttendanceForm
    /** `recordToDelete`; the confirmation dialog is open exactly while it is set. */
    var deleteTarget: Option<AttendanceRecord>
    var calls: seq<AttendanceCall>

    predicate Valid()
      reads this
    {
      currentPage >= 1
    }

    constructor()
      ensures Valid()
      ensures records == [] && !loading && errorMsg == None && viewMode == TableView && alert == None
      ensures selectedFile == None && !processing && resumen == None && search == "" && filters == NoFilters
      ensures currentPage == 1 && editMode == NoEdit && editForm == EmptyForm && deleteTarget == None && calls == []
    {
      records := [];
      loading := false;
      errorMsg := None;
      viewMode := TableView;
      alert := None;
      selectedFile := None;
      processing := false;
      resumen := None;
      search := "";
      filters := NoFilters;
      currentPage := 1;
      editMode := NoEdit;
      editForm := EmptyForm;
      deleteTarget := None;
      calls := [];
    }

    function Filtered(): seq<AttendanceRecord>
      reads this
    {
      FilterRecords(records, search, filters)
    }

    function TotalPages(): nat
      reads this
    {
      Pagination.TotalPages(|Filtered()|)
    }

    function Paginated(): seq<AttendanceRecord>
      requires Valid()
      reads this
    {
      Pagination.PageItems(Filtered(), currentPage)
    }

    function Strip(): seq<int>
      reads this
    {
      Pagination.PageStrip(currentPage, TotalPages())
    }

    /**
     * `cargarRegistros`: fetch the summary; success replaces the list and
     * returns to page 1, failure records the load error. It never throws.
     */
    method Reload(fetched: Result<seq<AttendanceRecord>, string>)
      requires Valid()
      modifies this`records, this`loading, this`errorMsg, this`currentPage, this`calls
      ensures Valid() && !loading
      ensures calls == old(calls) + [GetAttendanceResumen]
      ensures fetched.Ok? ==> records == fetched.value && currentPage == 1 && errorMsg == None
      ensures fetched.Err? ==> records == old(records) && currentPage == old(currentPage) && errorMsg == Some(LoadError)
    {
      loading := true;
      errorMsg := None;
      calls := calls + [GetAttendanceResumen];
      if fetched.Ok? {
        records := fetched.value;
        currentPage := 1;
      } else {
        errorMsg := Some(LoadError);
      }
      loading := false;
    }

    method SetSearch(text: string)
      modifies this`search, this`currentPage
      ensures Valid() && search == text && currentPage == 1
    {
      search := text;
      currentPage := 1;
    }

    method SetFilter(c: Column, v: string)
      modifies this`filters, this`currentPage
      ensures Valid() && filters == WithFilter(old(filters), c, v) && currentPage == 1
    {
      filters := WithFilter(filters, c, v);
      currentPage := 1;
    }

    method GoToPage(page: int)
      requires page >= 1
      modifies this`currentPage
      ensures Valid() && currentPage == page
    {
      currentPage := page;
    }

    method Prev()
      requires Valid()
      modifies this`currentPage
      ensures Valid() && currentPage == Pagination.PrevPage(old(currentPage))
    {
      currentPage := Pagination.PrevPage(currentPage);
    }

    method Next()
      requires Valid()
      modifies this`currentPage
      ensures Valid() && currentPage == Pagination.NextPage(old(currentPage), TotalPages())
    {
      currentPage := Pagination.NextPage(currentPage, TotalPages());
    }

    method Last()
      modifies this`currentPage
      ensures Valid() && currentPage == TotalPages()
    {
      currentPage := TotalPages();
    }

    /** The file the upload panel staged. */
    method SetFile(f: Option<FileRef>)
      modifies this`selectedFile
      ensures selectedFile == f
    {
      selectedFile := f;
    }

    /** `handleExport`. */
    method Export() returns (rows: Option<seq<seq<Cell>>>)
      modifies this`alert
      ensures Filtered() == [] ==> rows == None && alert == Some(NoRecordsToExport)
      ensures Filtered() != [] ==> rows == Some(ExportRows(Filtered())) && alert == old(alert)
    {
      if |Filtered()| == 0 {
        alert := Some(NoRecordsToExport);
        return None;
      }
      rows := Some(ExportRows(Filtered()));
    }

    /**
     * `handleUpload`: a staged file first, then a non-blank period label;
     * only then is anything sent.
     */
    method Upload(periodoEtiqueta: string,
                  uploaded: Result<int, string>,
                  processed: Result<AsistenciaService.AsistenciaSummary, string>,
                  fetched: Result<seq<AttendanceRecord>, string>)
      requires Valid()
      modifies this`records, this`loading, this`errorMsg, this`currentPage, this`calls,
        this`processing, this`resumen, this`search, this`viewMode, this`alert
      ensures Valid()
      ensures old(selectedFile).None? || IsBlank(periodoEtiqueta) ==>
        calls == old(calls) && processing == old(processing) && records == old(records)
        && loading == old(loading) && search == old(search) && currentPage == old(currentPage)
        && resumen == old(resumen) && viewMode == old(viewMode)
      ensures old(selectedFile).None? ==> errorMsg == Some(NoFileMessage) && alert == Some(NoFileAlert)
      ensures old(selectedFile).Some? && IsBlank(periodoEtiqueta) ==>
        errorMsg == Some(NoPeriodMessage) && alert == Some(NoPeriodAlert)
      ensures old(selectedFile).Some? && !IsBlank(periodoEtiqueta) ==>
        !processing
        && calls == old(calls) + Sent(old(selectedFile).value, Trim(periodoEtiqueta), uploaded, processed)
      ensures old(selectedFile).Some? && !IsBlank(periodoEtiqueta) && (uploaded.Err? || processed.Err?) ==>
        records == old(records) && search == old(search) && currentPage == old(currentPage)
        && resumen == old(resumen) && viewMode == old(viewMode)
        && errorMsg == Some(UploadError) && alert == Some(UploadErrorAlert) && loading == old(loading)
      ensures old(selectedFile).Some? && !IsBlank(periodoEtiqueta) && uploaded.Ok? && processed.Ok? ==>
        resumen == Some(processed.value) && viewMode == TableView && alert == Some(ProcessedAlert) && !loading
        && (fetched.Ok? ==> records == fetched.value && errorMsg == None)
        && (fetched.Err? ==> records == old(records) && errorMsg == Some(LoadError))
      ensures (old(selectedFile).Some? && !IsBlank(periodoEtiqueta) && uploaded.Ok? && processed.Ok?
               && processed.value.periodoEtiqueta != "") ==>
        search == processed.value.periodoEtiqueta && currentPage == 1
      ensures (old(selectedFile).Some? && !IsBlank(periodoEtiqueta) && uploaded.Ok? && processed.Ok?
               && processed.value.periodoEtiqueta == "") ==>
        search == old(search) && currentPage == (if fetched.Ok? then 1 else old(currentPage))
    {
      if selectedFile.None? {
        errorMsg := Some(NoFileMessage);
        alert := Some(NoFileAlert);
        return;
      }
      if IsBlank(periodoEtiqueta) {
        errorMsg := Some(NoPeriodMessage);
        alert := Some(NoPeriodAlert);
        return;
      }
      Ingest(selectedFile.value, Trim(periodoEtiqueta), uploaded, processed, fetched);
    }

    /**
     * The body of `handleUpload` past its guards: upload, process with the
     * trimmed period label, and reload. A detected period becomes the search text.
     * A failed reload does not stop the upload from reporting success.
     */
    method Ingest(file: FileRef, etiqueta: string,
                  uploaded: Result<int, string>,
                  processed: Result<AsistenciaService.AsistenciaSummary, string>,
                  fetched: Result<seq<AttendanceRecord>, string>)
      requires Valid()
      modifies this`records, this`loading, this`errorMsg, this`currentPage, this`calls,
        this`processing, this`resumen, this`search, this`viewMode, this`alert
      ensures Valid() && !processing
      ensures uploaded.Err? || processed.Err? ==> loading == old(loading)
      ensures uploaded.Ok? && processed.Ok? ==> !loading
      ensures calls == old(calls) + Sent(file, etiqueta, uploaded, processed)
      ensures uploaded.Err? || processed.Err? ==>
        records == old(records) && search == old(search) && currentPage == old(currentPage)
        && resumen == old(resumen) && viewMode == old(viewMode)
        && errorMsg == Some(UploadError) && alert == Some(UploadErrorAlert)
      ensures uploaded.Ok? && processed.Ok? ==>
        resumen == Some(processed.value) && viewMode == TableView && alert == Some(ProcessedAlert)
      ensures uploaded.Ok? && processed.Ok? && fetched.Ok? ==> records == fetched.value && errorMsg == None
      ensures uploaded.Ok? && processed.Ok? && fetched.Err? ==> records == old(records) && errorMsg == Some(LoadError)
      ensures uploaded.Ok? && processed.Ok? && processed.value.periodoEtiqueta != "" ==>
        search == processed.value.periodoEtiqueta && currentPage == 1
      ensures uploaded.Ok? && processed.Ok? && processed.value.periodoEtiqueta == "" ==>
        search == old(search) && currentPage == (if fetched.Ok? then 1 else old(currentPage))
    {
      processing := true;
      errorMsg := None;
      calls := calls + [UploadAsistencia(file)];
      if uploaded.Err? {
        errorMsg := Some(UploadError);
        alert := Some(UploadErrorAlert);
        processing := false;
      } else {
        Process(uploaded.value, etiqueta, processed, fetched);
      }
    }

    /** Processing a stored list and reloading; `processing` is switched off at the end. */
    method Process(archivoId: int, etiqueta: string,
                   processed: Result<AsistenciaService.AsistenciaSummary, string>,
                   fetched: Result<seq<AttendanceRecord>, string>)
      requires Valid()
      modifies this`records, this`loading, this`errorMsg, this`currentPage, this`calls,
        this`processing, this`resumen, this`search, this`viewMode, this`alert
      ensures Valid() && !processing
      ensures processed.Err? ==> loading == old(loading)
      ensures processed.Ok? ==> !loading
      ensures calls == old(calls) + [ProcesarAsistencia(archivoId, etiqueta)]
        + (if processed.Ok? then [GetAttendanceResumen] else [])
      ensures processed.Err? ==>
        records == old(records) && search == old(search) && currentPage == old(currentPage)
        && resumen == old(resumen) && viewMode == old(viewMode)
        && errorMsg == Some(UploadError) && alert == Some(UploadErrorAlert)
      ensures processed.Ok? ==>
        resumen == Some(processed.value) && viewMode == TableView && alert == Some(ProcessedAlert)
      ensures processed.Ok? && fetched.Ok? ==> records == fetched.value && errorMsg == None
      ensures processed.Ok? && fetched.Err? ==> records == old(records) && errorMsg == Some(LoadError)
      ensures processed.Ok? && processed.value.periodoEtiqueta != "" ==>
        search == processed.value.periodoEtiqueta && currentPage == 1
      ensures processed.Ok? && processed.value.periodoEtiqueta == "" ==>
        search == old(search) && currentPage == (if fetched.Ok? then 1 else old(currentPage))
    {
      calls := calls + [ProcesarAsistencia(archivoId, etiqueta)];
      if processed.Err? {
        errorMsg := Some(UploadError);
        alert := Some(UploadErrorAlert);
        processing := false;
        return;
      }
      resumen := Some(processed.value);
      Reload(fetched);
      if processed.value.periodoEtiqueta != "" {
        search := processed.value.periodoEtiqueta;
        currentPage := 1;
      }
      viewMode := TableView;
      alert := Some(ProcessedAlert);
      processing := false;
    }

    /** Opens the edit dialog on a relation. */
    method EditClick(r: AttendanceRecord)
      modifies this`editMode, this`editForm
      ensures editMode == Editing(r) && editForm == FormOf(r)
    {
      editMode := Editing(r);
      editForm := FormOf(r);
    }

    /** Opens the creation dialog. */
    method CreateClick()
      modifies this`editMode, this`editForm, this`errorMsg
      ensures editMode == Creating && editForm == CreateForm && errorMsg == None
    {
      editMode := Creating;
      editForm := CreateForm;
      errorMsg := None;
    }

    method SetEditForm(f: AttendanceForm)
      modifies this`editForm
      ensures editForm == f
    {
      editForm := f;
    }

    /** `handleCloseEditModal`. */
    method CloseEditModal()
      modifies this`editMode, this`editForm, this`errorMsg
      ensures editMode == NoEdit && editForm == EmptyForm && errorMsg == None
    {
      editMode := NoEdit;
      editForm := EmptyForm;
      errorMsg := None;
    }

    method DeleteClick(r: AttendanceRecord)
      modifies this`deleteTarget
      ensures deleteTarget == Some(r)
    {
      deleteTarget := Some(r);
    }

    /** `confirmDelete`: a local removal by composite key; nothing is sent to the server. */
    method ConfirmDelete()
      modifies this`records, this`deleteTarget, this`alert
      ensures old(deleteTarget).None? ==> records == old(records) && deleteTarget == None && alert == old(alert)
      ensures old(deleteTarget).Some? ==>
        records == RemoveByKey(old(records), old(deleteTarget).value)
        && deleteTarget == None && alert == Some(DeletedAlert)
    {
      if deleteTarget.None? {
        return;
      }
      records := RemoveByKey(records, deleteTarget.value);
      deleteTarget := None;
      alert := Some(DeletedAlert);
    }

    /**
     * `handleSaveEdit`: an edit is merged locally into every relation with the
     * edited key; a creation is validated, sent, and its records are put first.
     */
    method SaveEdit(created: Result<seq<AttendanceRecord>, string>)
      requires Valid()
      modifies this
      ensures Valid()
      ensures search == old(search) && filters == old(filters) && deleteTarget == old(deleteTarget)
      ensures viewMode == old(viewMode) && selectedFile == old(selectedFile) && resumen == old(resumen)
      ensures loading == old(loading) && processing == old(processing)
      ensures old(editMode).NoEdit? ==>
        records == old(records) && calls == old(calls) && alert == old(alert) && errorMsg == old(errorMsg)
        && currentPage == old(currentPage) && editMode == old(editMode) && editForm == old(editForm)
      ensures old(editMode).Editing? ==>
        records == LocalEdit(old(records), old(editMode).record, old(editForm))
        && calls == old(calls) && currentPage == old(currentPage)
        && editMode == NoEdit && editForm == EmptyForm && errorMsg == None && alert == Some(UpdatedAlert)
      ensures old(editMode).Creating? && !CreateComplete(old(editForm)) ==>
        records == old(records) && calls == old(calls) && currentPage == old(currentPage)
        && editMode == old(editMode) && editForm == old(editForm)
        && errorMsg == Some(IncompleteMessage) && alert == Some(IncompleteAlert)
      ensures old(editMode).Creating? && CreateComplete(old(editForm)) ==>
        calls == old(calls) + [CreateAttendance(old(editForm))]
        && (created.Ok? ==>
              records == created.value + old(records) && currentPage == 1
              && editMode == NoEdit && editForm == EmptyForm && errorMsg == None && alert == Some(CreatedAlert))
        && (created.Err? ==>
              records == old(records) && currentPage == old(currentPage)
              && editMode == old(editMode) && editForm == old(editForm)
              && errorMsg == Some(SaveError) && alert == Some(SaveErrorAlert))
    {
      match editMode {
        case NoEdit =>
          return;
        case Editing(target) =>
          records := LocalEdit(records, target, editForm);
          CloseEditModal();
          alert := Some(UpdatedAlert);
        case Creating =>
          if !CreateComplete(editForm) {
            errorMsg := Some(IncompleteMessage);
            alert := Some(IncompleteAlert);
            return;
          }
          calls := calls + [CreateAttendance(editForm)];
          if created.Err? {
            errorMsg := Some(SaveError);
            alert := Some(SaveErrorAlert);
            return;
          }
          records := created.value + records;
          currentPage := 1;
          CloseEditModal();
          alert := Some(CreatedAlert);
      }
    }
  }
}
