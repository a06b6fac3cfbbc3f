/**
 * The schedule report (`ScheduleReportView`): the table of class meetings with
 * free-text search, four column filters, fifteen-row pages, editing, creation,
 * deletion, spreadsheet export and the upload of new schedule files.
 */
module ScheduleReport {
  import opened Wrappers
  import opened Text
  import opened Seqs
  import opened Records
  import opened TableSearch
  import Pagination

  /** The four column filters (`filterPeriodo`, `filterCodigo`, `filterGrupo`, `filterNumEmpleado`). */
  datatype ScheduleFilters = ScheduleFilters(periodo: string, codigo: string, grupo: string, numEmpleado: string)

  const NoFilters := ScheduleFilters(All, All, All, All)

  datatype Column = PeriodoColumn | CodigoColumn | GrupoColumn | NumEmpleadoColumn

  /** The filters after the drop-down of column `c` changed to `v`. */
  function WithFilter(f: ScheduleFilters, c: Column, v: string): ScheduleFilters {
    match c
    case PeriodoColumn => f.(periodo := v)
    case CodigoColumn => f.(codigo := v)
    case GrupoColumn => f.(grupo := v)
    case NumEmpleadoColumn => f.(numEmpleado := v)
  }

  /** `String(r.num_empleado ?? "")`: the employee number as text, `""` when there is none. */
  function NumEmpleadoText(r: ScheduleRecord): string {
    if r.numEmpleado.Some? then IntToString(r.numEmpleado.value) else ""
  }

  /** The value of a record that column `c` filters and offers options for. */
  function ColumnValue(r: ScheduleRecord, c: Column): string {
    match c
    case PeriodoColumn => r.periodo
    case CodigoColumn => r.codigoMateria
    case GrupoColumn => r.grupo
    case NumEmpleadoColumn => NumEmpleadoText(r)
  }

  /** The text the search box is matched against: eight fields separated by single spaces. */
  function SearchText(r: ScheduleRecord): string {
    Join([r.periodo, r.codigoMateria, r.nombreMateria, r.grupo,
          r.profesorNombre.GetOr(""), r.profesorApellidoPaterno.GetOr(""),
          r.profesorApellidoMaterno.GetOr(""), r.aula.GetOr("")], " ")
  }

  predicate MatchesSearch(r: ScheduleRecord, search: string) {
    MatchesQuery(SearchText(r), search)
  }

  /** The condition of the `horarios.filter` callback. */
  predicate Keep(r: ScheduleRecord, search: string, f: ScheduleFilters) {
    MatchesSearch(r, search)
    && ColumnMatches(f.periodo, r.periodo)
    && ColumnMatches(f.codigo, r.codigoMateria)
    && ColumnMatches(f.grupo, r.grupo)
    && ColumnMatches(f.numEmpleado, NumEmpleadoText(r))
  }

  /** `filtered`. */
  function FilterRecords(rs: seq<ScheduleRecord>, search: string, f: ScheduleFilters): seq<ScheduleRecord> {
    Filter(rs, r => Keep(r, search, f))
  }

  /** A record is listed exactly when it is loaded and passes the search and every column filter. */
  lemma FilterRecordsSpec(rs: seq<ScheduleRecord>, search: string, f: ScheduleFilters)
    ensures forall r :: r in FilterRecords(rs, search, f) <==>
      r in rs && MatchesSearch(r, search)
      && (f.periodo == All || r.periodo == f.periodo)
      && (f.codigo == All || r.codigoMateria == f.codigo)
      && (f.grupo == All || r.grupo == f.grupo)
      && (f.numEmpleado == All || NumEmpleadoText(r) == f.numEmpleado)
  {
    FilterMembership(rs, r => Keep(r, search, f));
  }

  /** With an empty search and every filter at the sentinel the whole list is shown, in order. */
  lemma {:induction false} UnfilteredShowsAll(rs: seq<ScheduleRecord>)
    ensures FilterRecords(rs, "", NoFilters) == rs
  {
    forall i | 0 <= i < |rs| ensures Keep(rs[i], "", NoFilters) {
      EmptyQueryMatches(SearchText(rs[i]));
    }
    FilterKeepsAll(rs, r => Keep(r, "", NoFilters));
  }

  /** The values of column `c`, one per record. */
  function ColumnValues(rs: seq<ScheduleRecord>, c: Column): seq<string> {
    seq(|rs|, i requires 0 <= i < |rs| => ColumnValue(rs[i], c))
  }

  /** `periodoOptions`, `codigoOptions`, `grupoOptions`, `numEmpleadoOptions`. */
  function Options(rs: seq<ScheduleRecord>, c: Column): seq<string> {
    OptionList(ColumnValues(rs, c))
  }

  /**
   * Each option list is sorted, free of duplicates, and offers exactly the
   * non-blank values that some record holds in that column.
   */
  lemma OptionsSpec(rs: seq<ScheduleRecord>, c: Column)
    ensures StrictlySorted(Options(rs, c)) && NoDuplicates(Options(rs, c))
    ensures forall v :: v in Options(rs, c) <==>
      !IsBlank(v) && exists r :: r in rs && ColumnValue(r, c) == v
  {
    var vs := ColumnValues(rs, c);
    OptionListSpec(vs);
    forall v ensures v in vs <==> exists r :: r in rs && ColumnValue(r, c) == v {
      if v in vs {
        var i :| 0 <= i < |vs| && vs[i] == v;
        assert rs[i] in rs;
      }
      if exists r :: r in rs && ColumnValue(r, c) == v {
        var r :| r in rs && ColumnValue(r, c) == v;
        var i :| 0 <= i < |rs| && rs[i] == r;
        assert vs[i] == v;
      }
    }
  }

  /** A record without an employee number never contributes an option. */
  lemma EmployeeOptionsComeFromNumbers(rs: seq<ScheduleRecord>)
    ensures forall v :: v in Options(rs, NumEmpleadoColumn) ==>
      exists r :: r in rs && r.numEmpleado.Some? && IntToString(r.numEmpleado.value) == v
  {
    OptionsSpec(rs, NumEmpleadoColumn);
    assert IsBlank("");
  }

  /** Picking any offered option, with no search and the other filters open, lists at least one record. */
  lemma OptionSelectsSomething(rs: seq<ScheduleRecord>, c: Column, v: string)
    requires v in Options(rs, c)
    ensures FilterRecords(rs, "", WithFilter(NoFilters, c, v)) != []
  {
    OptionsSpec(rs, c);
    var r :| r in rs && ColumnValue(r, c) == v;
    EmptyQueryMatches(SearchText(r));
    var f := WithFilter(NoFilters, c, v);
    assert Keep(r, "", f) by {
      match c {
        case PeriodoColumn =>
        case CodigoColumn =>
        case GrupoColumn =>
        case NumEmpleadoColumn =>
      }
    }
    FilterRecordsSpec(rs, "", f);
    assert r in FilterRecords(rs, "", f);
  }

  /** `prev.map(h => h.id === id ? updated : h)`. */
  function ReplaceById(rs: seq<ScheduleRecord>, id: int, updated: ScheduleRecord): (r: seq<ScheduleRecord>)
    ensures |r| == |rs|
    ensures forall i :: 0 <= i < |rs| && rs[i].id != id ==> r[i] == rs[i]
    ensures forall i :: 0 <= i < |rs| && rs[i].id == id ==> r[i] == updated
  {
    MapWhere(rs, (h: ScheduleRecord) => h.id == id, _ => updated)
  }

  /** Replacing with a record of the same id leaves every other record in place and in order. */
  lemma ReplaceByIdKeepsOthers(rs: seq<ScheduleRecord>, id: int, updated: ScheduleRecord)
    requires updated.id == id
    ensures Filter(ReplaceById(rs, id, updated), (h: ScheduleRecord) => !(h.id == id))
         == Filter(rs, (h: ScheduleRecord) => !(h.id == id))
  {
    MapWhereKeepsOthers(rs, (h: ScheduleRecord) => h.id == id, _ => updated, (h: ScheduleRecord) => !(h.id == id));
  }

  /** The spreadsheet columns, in the order the rows list them. */
  const ExportHeaders := ["Periodo", "CodigoMateria", "NombreMateria", "Grupo", "NumEmpleado",
    "ProfesorNombre", "ProfesorApellidoPaterno", "ProfesorApellidoMaterno", "DiaSemana",
    "HoraInicio", "HoraFin", "Aula", "Cupo"]

  /** One spreadsheet row; a missing value is written as `""`. */
  function ExportRow(r: ScheduleRecord): (row: seq<Cell>)
    ensures |row| == |ExportHeaders|
    ensures row[0] == Text(r.periodo) && row[1] == Text(r.codigoMateria)
    ensures row[2] == Text(r.nombreMateria) && row[3] == Text(r.grupo)
    ensures r.numEmpleado.None? <==> row[4] == Text("")
    ensures r.numEmpleado.Some? ==> row[4] == Number(r.numEmpleado.value)
    ensures row[5] == Text(r.profesorNombre.GetOr(""))
    ensures row[6] == Text(r.profesorApellidoPaterno.GetOr(""))
    ensures row[7] == Text(r.profesorApellidoMaterno.GetOr(""))
    ensures r.diaSemana.None? <==> row[8] == Text("")
    ensures r.diaSemana.Some? ==> row[8] == Number(r.diaSemana.value)
    ensures row[9] == Text(r.horaInicio.GetOr("")) && row[10] == Text(r.horaFin.GetOr(""))
    ensures row[11] == Text(r.aula.GetOr(""))
    ensures r.cupo.None? <==> row[12] == Text("")
    ensures r.cupo.Some? ==> row[12] == Number(r.cupo.value)
  {
    [Text(r.periodo), Text(r.codigoMateria), Text(r.nombreMateria), Text(r.grupo),
     NumberOrEmpty(r.numEmpleado), TextOrEmpty(r.profesorNombre),
     TextOrEmpty(r.profesorApellidoPaterno), TextOrEmpty(r.profesorApellidoMaterno),
     NumberOrEmpty(r.diaSemana), TextOrEmpty(r.horaInicio), TextOrEmpty(r.horaFin),
     TextOrEmpty(r.aula), NumberOrEmpty(r.cupo)]
  }

  /** One row per listed record, in the listed order. */
  function ExportRows(rs: seq<ScheduleRecord>): (rows: seq<seq<Cell>>)
    ensures |rows| == |rs|
    ensures forall i :: 0 <= i < |rs| ==> rows[i] == ExportRow(rs[i])
  {
    seq(|rs|, i requires 0 <= i < |rs| => ExportRow(rs[i]))
  }

  /** The edit form (`editForm`): an absent field is `None`. */
  datatype ScheduleForm = ScheduleForm(
    periodo: Option<string>,
    codigoMateria: Option<string>,
    nombreMateria: Option<string>,
    grupo: Option<string>,
    diaSemana: Option<int>,
    aula: Option<string>,
    horaInicio: Option<string>,
    horaFin: Option<string>,
    numEmpleado: Option<int>,
    profesorNombre: Option<string>,
    profesorApellidoPaterno: Option<string>,
    profesorApellidoMaterno: Option<string>,
    cupo: Option<int>)

  const EmptyForm := ScheduleForm(None, None, None, None, None, None, None, None, None, None, None, None, None)

  /** The form `handleEditClick` fills from a record. */
  function FormOf(r: ScheduleRecord): ScheduleForm {
    ScheduleForm(Some(r.periodo), Some(r.codigoMateria), Some(r.nombreMateria), Some(r.grupo),
      r.diaSemana, r.aula, r.horaInicio, r.horaFin, r.numEmpleado, r.profesorNombre,
      r.profesorApellidoPaterno, r.profesorApellidoMaterno, r.cupo)
  }

  /** A text field is truthy when present and not empty. */
  predicate Filled(v: Option<string>) {
    v.Some? && v.value != ""
  }

  /** The save guard: periodo, código, nombre de materia and grupo must all be filled. */
  predicate FormComplete(f: ScheduleForm) {
    Filled(f.periodo) && Filled(f.codigoMateria) && Filled(f.nombreMateria) && Filled(f.grupo)
  }

  datatype EditMode = NoEdit | Editing(record: ScheduleRecord) | Creating

  datatype ViewMode = EmptyView | TableView | UploadView

  /** Every request the view sends to the schedule services, in order. */
  datatype ScheduleCall =
    | GetHorarios
    | CreateHorario(form: ScheduleForm)
    | UpdateHorario(id: int, changes: ScheduleForm)
    | DeleteHorario(id: int)
    | UploadHorarios(isi: bool, prelistas: bool)
    | ProcesarHorarios
    | GetHorariosHistorial

  /**
   * The processing summary `procesarHorarios` returns: the two counters the
   * view shows (either may be absent).
   */
  datatype HorariosResumen = HorariosResumen(gruposUpsert: Option<int>, horariosUpsert: Option<int>)

  /** One row of the upload history (`HistorialItemUI`). */
  datatype HistoryEntry = HistoryEntry(id: int, fecha: string, nombre: string, estado: string)

  const IncompleteAlert := Alert(Error, "Datos incompletos",
    "Periodo, código, nombre de materia y grupo son obligatorios. Verifica la información antes de continuar.")
  const CreatedAlert := Alert(Success, "Horario creado", "El horario se creó correctamente.")
  const UpdatedAlert := Alert(Success, "Horario actualizado", "Los cambios del horario se guardaron correctamente.")
  const SaveErrorAlert := Alert(Error, "Error al guardar horario",
    "Ocurrió un error al guardar el horario. Intenta nuevamente o contacta al administrador.")
  const DeletedAlert := Alert(Success, "Horario eliminado", "El horario fue eliminado correctamente.")
  const DeleteErrorAlert := Alert(Error, "Error al eliminar horario",
    "Ocurrió un error al eliminar el horario. Intenta nuevamente más tarde.")
  const NoFilesAlert := Alert(Error, "Archivos no seleccionados",
    "Selecciona al menos un archivo (ISI o Prelistas) para poder procesar los horarios.")
  const ProcessedAlert := Alert(Success, "Archivo procesado",
    "El archivo se procesó exitosamente y los horarios ya están disponibles en la tabla.")

  const UploadErrorBase := "Ocurrió un error al procesar los horarios"

  /** The upload failure text: the thrown message is appended when it is not empty. */
  function UploadErrorMessage(thrown: string): (m: string)
    ensures |UploadErrorBase| < |m| && m[..|UploadErrorBase|] == UploadErrorBase
    ensures thrown == "" <==> m == UploadErrorBase + "."
    ensures thrown != "" ==> |thrown| < |m| && m[|m| - |thrown|..] == thrown
    ensures thrown != "" ==> |m| == |UploadErrorBase| + 2 + |thrown| && m[|UploadErrorBase|..|UploadErrorBase| + 2] == ": "
  {
    if thrown == "" then UploadErrorBase + "." else UploadErrorBase + ": " + thrown
  }

  function UploadErrorAlert(thrown: string): Alert {
    Alert(Error, "Error al procesar horarios", UploadErrorMessage(thrown))
  }

  /** Different non-empty error messages produce different alerts. */
  lemma UploadErrorMessageInjective(a: string, b: string)
    requires UploadErrorMessage(a) == UploadErrorMessage(b)
    ensures a == b
  {
    var base := UploadErrorBase + ": ";
    if a != "" && b != "" {
      assert a == UploadErrorMessage(a)[|base|..];
      assert b == UploadErrorMessage(b)[|base|..];
    }
  }

  class ScheduleView {
    var horarios: seq<ScheduleRecord>
    var search: string
    var filters: ScheduleFilters
    var currentPage: int
    var alert: Option<Alert>
    var editMode: EditMode
    var editForm: ScheduleForm
    /** `scheduleToDelete`; the confirmation dialog is open exactly while it is set. */
    var deleteTarget: Option<ScheduleRecord>
    var viewMode: ViewMode
    /** The summary of the last successful processing, shown above the table. */
    var resumen: Option<HorariosResumen>
    /** The upload history, fetched whenever the view switches to upload. */
    var historial: seq<HistoryEntry>
    var calls: seq<ScheduleCall>

    /** The page counter never drops below 1. */
    predicate Valid()
      reads this
    {
      currentPage >= 1
    }

    constructor()
      ensures Valid()
      ensures horarios == [] && search == "" && filters == NoFilters && currentPage == 1
      ensures alert == None && editMode == NoEdit && editForm == EmptyForm && deleteTarget == None
      ensures viewMode == EmptyView && resumen == None && historial == [] && calls == []
    {
      horarios := [];
      search := "";
      filters := NoFilters;
      currentPage := 1;
      alert := None;
      editMode := NoEdit;
      editForm := EmptyForm;
      deleteTarget := None;
      viewMode := EmptyView;
      resumen := None;
      historial := [];
      calls := [];
    }

    function Filtered(): seq<ScheduleRecord>
      reads this
    {
      FilterRecords(horarios, search, filters)
    }

    function TotalPages(): nat
      reads this
    {
      Pagination.TotalPages(|Filtered()|)
    }

    /** `paginated`: the rows of the current page. */
    function Paginated(): seq<ScheduleRecord>
      requires Valid()
      reads this
    {
      Pagination.PageItems(Filtered(), currentPage)
    }

    /** The numbered page buttons. */
    function Strip(): seq<int>
      reads this
    {
      Pagination.PageStrip(currentPage, TotalPages())
    }

    /** The first load: a successful `getHorarios` replaces the list and returns to page 1. */
    method Load(fetched: Result<seq<ScheduleRecord>, string>)
      requires Valid()
      modifies this
      ensures Valid()
      ensures resumen == old(resumen) && historial == old(historial)
      ensures calls == old(calls) + [GetHorarios]
      ensures fetched.Ok? ==> horarios == fetched.value && currentPage == 1
      ensures fetched.Err? ==> horarios == old(horarios) && currentPage == old(currentPage)
      ensures search == old(search) && filters == old(filters) && alert == old(alert)
      ensures editMode == old(editMode) && editForm == old(editForm)
      ensures deleteTarget == old(deleteTarget) && viewMode == old(viewMode)
    {
      calls := calls + [GetHorarios];
      if fetched.Ok? {
        horarios := fetched.value;
        currentPage := 1;
      }
    }

    /** Typing in the search box: the search changes and the view returns to page 1. */
    method SetSearch(text: string)
      modifies this
      ensures Valid()
      ensures resumen == old(resumen) && historial == old(historial)
      ensures search == text && currentPage == 1
      ensures horarios == old(horarios) && filters == old(filters) && alert == old(alert)
      ensures editMode == old(editMode) && editForm == old(editForm)
      ensures deleteTarget == old(deleteTarget) && viewMode == old(viewMode) && calls == old(calls)
    {
      search := text;
      currentPage := 1;
    }

    /** Choosing in a column drop-down: that filter changes and the view returns to page 1. */
    method SetFilter(c: Column, v: string)
      modifies this
      ensures Valid()
      ensures resumen == old(resumen) && historial == old(historial)
      ensures filters == WithFilter(old(filters), c, v) && currentPage == 1
      ensures horarios == old(horarios) && search == old(search) && alert == old(alert)
      ensures editMode == old(editMode) && editForm == old(editForm)
      ensures deleteTarget == old(deleteTarget) && viewMode == old(viewMode) && calls == old(calls)
    {
      filters := WithFilter(filters, c, v);
      currentPage := 1;
    }

    /** `«`, a numbered button, or the last-page shortcut: go straight to `page`. */
    method GoToPage(page: int)
      requires page >= 1
      modifies this`currentPage
      ensures Valid() && currentPage == page
    {
      currentPage := page;
    }

    /** `‹`. */
    method Prev()
      requires Valid()
      modifies this`currentPage
      ensures Valid() && currentPage == Pagination.PrevPage(old(currentPage))
    {
      currentPage := Pagination.PrevPage(currentPage);
    }

    /** `›`: one page forward, never past the last. */
    method Next()
      requires Valid()
      modifies this`currentPage
      ensures Valid() && currentPage == Pagination.NextPage(old(currentPage), TotalPages())
    {
      currentPage := Pagination.NextPage(currentPage, TotalPages());
    }

    /** `»`. */
    method Last()
      modifies this`currentPage
      ensures Valid() && currentPage == TotalPages()
    {
      currentPage := TotalPages();
    }

    /** Opens the edit dialog on a record. */
    method EditClick(r: ScheduleRecord)
      modifies this`editMode, this`editForm
      ensures editMode == Editing(r) && editForm == FormOf(r)
    {
      editMode := Editing(r);
      editForm := FormOf(r);
    }

    /** Opens the dialog for a new record, with every field absent. */
    method CreateClick()
      modifies this`editMode, this`editForm
      ensures editMode == Creating && editForm == EmptyForm
    {
      editMode := Creating;
      editForm := EmptyForm;
    }

    /** Field edits in the dialog. */
    method SetEditForm(f: ScheduleForm)
      modifies this`editForm
      ensures editForm == f
    {
      editForm := f;
    }

    /** Closes the dialog and forgets the form. */
    method CloseEditModal()
      modifies this`editMode, this`editForm
      ensures editMode == NoEdit && editForm == EmptyForm
    {
      editMode := NoEdit;
      editForm := EmptyForm;
    }

    /**
     * `handleSaveEdit`. The guard runs first and sends nothing. An edit
     * replaces the records with the edited id by what the service returns; a
     * creation puts the returned record first, or reloads the list when none
     * comes back, and returns to page 1. A failure keeps the dialog open.
     */
    method SaveEdit(updated: Result<ScheduleRecord, string>,
                    created: Result<Option<ScheduleRecord>, string>,
                    refetched: Result<seq<ScheduleRecord>, string>)
      requires Valid()
      modifies this
      ensures Valid()
      ensures resumen == old(resumen) && historial == old(historial)
      ensures search == old(search) && filters == old(filters)
      ensures deleteTarget == old(deleteTarget) && viewMode == old(viewMode)
      ensures !FormComplete(old(editForm)) ==>
        alert == Some(IncompleteAlert) && calls == old(calls) && horarios == old(horarios)
        && currentPage == old(currentPage) && editMode == old(editMode) && editForm == old(editForm)
      ensures FormComplete(old(editForm)) && old(editMode).NoEdit? ==>
        alert == old(alert) && calls == old(calls) && horarios == old(horarios)
        && currentPage == old(currentPage) && editMode == old(editMode) && editForm == old(editForm)
      ensures FormComplete(old(editForm)) && old(editMode).Editing? ==>
        var id := old(editMode).record.id;
        calls == old(calls) + [UpdateHorario(id, old(editForm))]
        && currentPage == old(currentPage)
        && (updated.Ok? ==>
              horarios == ReplaceById(old(horarios), id, updated.value)
              && editMode == NoEdit && editForm == EmptyForm && alert == Some(UpdatedAlert))
        && (updated.Err? ==>
              horarios == old(horarios) && editMode == old(editMode)
              && editForm == old(editForm) && alert == Some(SaveErrorAlert))
      ensures FormComplete(old(editForm)) && old(editMode).Creating? ==>
        var refetch := created.Ok? && created.value.None?;
        calls == old(calls) + [CreateHorario(old(editForm))] + (if refetch then [GetHorarios] else [])
        && (created.Ok? && created.value.Some? ==>
              horarios == [created.value.value] + old(horarios))
        && (refetch && refetched.Ok? ==> horarios == refetched.value)
        && (created.Ok? && (created.value.Some? || refetched.Ok?) ==>
              currentPage == 1 && editMode == NoEdit && editForm == EmptyForm && alert == Some(CreatedAlert))
        && (created.Err? || (refetch && refetched.Err?) ==>
              horarios == old(horarios) && currentPage == old(currentPage) && editMode == old(editMode)
              && editForm == old(editForm) && alert == Some(SaveErrorAlert))
    {
      if !FormComplete(editForm) {
        alert := Some(IncompleteAlert);
        return;
      }
      match editMode {
        case NoEdit =>
          return;
        case Editing(record) =>
          calls := calls + [UpdateHorario(record.id, editForm)];
          if updated.Err? {
            alert := Some(SaveErrorAlert);
            return;
          }
          horarios := ReplaceById(horarios, record.id, updated.value);
          CloseEditModal();
          alert := Some(UpdatedAlert);
        case Creating =>
          calls := calls + [CreateHorario(editForm)];
          if created.Err? {
            alert := Some(SaveErrorAlert);
            return;
          }
          if created.value.Some? {
            horarios := [created.value.value] + horarios;
          } else {
            calls := calls + [GetHorarios];
            if refetched.Err? {
              alert := Some(SaveErrorAlert);
              return;
            }
            horarios := refetched.value;
          }
          currentPage := 1;
          CloseEditModal();
          alert := Some(CreatedAlert);
      }
    }

    /** Asks for confirmation before deleting `r`. */
    method DeleteClick(r: ScheduleRecord)
      modifies this`deleteTarget
      ensures deleteTarget == Some(r)
    {
      deleteTarget := Some(r);
    }

    /**
     * `confirmDelete`: delete on the server, then reload the whole list. The
     * page is not reset. The dialog closes whatever happens.
     */
    method ConfirmDelete(deleted: Outcome, refetched: Result<seq<ScheduleRecord>, string>)
      requires Valid()
      modifies this
      ensures Valid()
      ensures resumen == old(resumen) && historial == old(historial)
      ensures search == old(search) && filters == old(filters) && currentPage == old(currentPage)
      ensures editMode == old(editMode) && editForm == old(editForm) && viewMode == old(viewMode)
      ensures old(deleteTarget).None? ==>
        deleteTarget == None && calls == old(calls) && horarios == old(horarios) && alert == old(alert)
      ensures old(deleteTarget).Some? ==>
        deleteTarget == None
        && calls == old(calls) + [DeleteHorario(old(deleteTarget).value.id)]
                    + (if deleted.Done? then [GetHorarios] else [])
        && (deleted.Done? && refetched.Ok? ==> horarios == refetched.value && alert == Some(DeletedAlert))
        && (deleted.Failed? || refetched.Err? ==> horarios == old(horarios) && alert == Some(DeleteErrorAlert))
    {
      if deleteTarget.None? {
        return;
      }
      calls := calls + [DeleteHorario(deleteTarget.value.id)];
      if deleted.Failed? {
        alert := Some(DeleteErrorAlert);
      } else {
        calls := calls + [GetHorarios];
        if refetched.Err? {
          alert := Some(DeleteErrorAlert);
        } else {
          horarios := refetched.value;
          alert := Some(DeletedAlert);
        }
      }
      deleteTarget := None;
    }

    /** `handleExport`: an empty table is refused; otherwise one row per listed record. */
    method Export() returns (rows: Option<seq<seq<Cell>>>)
      modifies this`alert
      ensures Filtered() == [] ==> rows == None && alert == Some(NoRecordsToExport)
      ensures Filtered() != [] ==> rows == Some(ExportRows(Filtered())) && alert == old(alert)
    {
      if |Filtered()| == 0 {
        alert := Some(NoRecordsToExport);
        return None;
      }
      rows := Some(ExportRows(Filtered()));
    }

    method ShowTable()
      modifies this`viewMode
      ensures viewMode == TableView
    {
      viewMode := TableView;
    }

    /**
     * `handleShowUpload` and the effect on `viewMode`: entering the upload
     * view fetches the history; a failure is only logged.
     */
    method ShowUpload(fetched: Result<seq<HistoryEntry>, string>)
      modifies this`viewMode, this`historial, this`calls
      ensures viewMode == UploadView
      ensures old(viewMode) == UploadView ==> calls == old(calls) && historial == old(historial)
      ensures old(viewMode) != UploadView ==>
        calls == old(calls) + [GetHorariosHistorial]
        && historial == (if fetched.Ok? then fetched.value else old(historial))
    {
      if viewMode != UploadView {
        viewMode := UploadView;
        calls := calls + [GetHorariosHistorial];
        if fetched.Ok? {
          historial := fetched.value;
        }
      }
    }

    /**
     * `handleUpload`: at least one of the two files is needed; then upload,
     * process (keeping its summary) and reload. Any failure shows its
     * message; success switches to the table. The summary is kept even when
     * the reload that follows it fails.
     */
    method Upload(isiSelected: bool, prelistasSelected: bool,
                  uploaded: Outcome, processed: Result<HorariosResumen, string>,
                  refetched: Result<seq<ScheduleRecord>, string>)
      requires Valid()
      modifies this
      ensures Valid()
      ensures search == old(search) && filters == old(filters) && currentPage == old(currentPage)
      ensures editMode == old(editMode) && editForm == old(editForm) && deleteTarget == old(deleteTarget)
      ensures historial == old(historial)
      ensures !isiSelected && !prelistasSelected ==>
        alert == Some(NoFilesAlert) && calls == old(calls) && horarios == old(horarios) && viewMode == old(viewMode)
        && resumen == old(resumen)
      ensures (isiSelected || prelistasSelected) ==>
        calls == old(calls) + [UploadHorarios(isiSelected, prelistasSelected)]
          + (if uploaded.Done? then [ProcesarHorarios] else [])
          + (if uploaded.Done? && processed.Ok? then [GetHorarios] else [])
        && resumen == (if uploaded.Done? && processed.Ok? then Some(processed.value) else old(resumen))
        && (uploaded.Failed? ==> alert == Some(UploadErrorAlert(uploaded.message)))
        && (uploaded.Done? && processed.Err? ==> alert == Some(UploadErrorAlert(processed.error)))
        && (uploaded.Done? && processed.Ok? && refetched.Err? ==> alert == Some(UploadErrorAlert(refetched.error)))
        && (uploaded.Done? && processed.Ok? && refetched.Ok? ==>
              horarios == refetched.value && viewMode == TableView && alert == Some(ProcessedAlert))
        && (!(uploaded.Done? && processed.Ok? && refetched.Ok?) ==>
              horarios == old(horarios) && viewMode == old(viewMode))
    {
      if !isiSelected && !prelistasSelected {
        alert := Some(NoFilesAlert);
        return;
      }
      calls := calls + [UploadHorarios(isiSelected, prelistasSelected)];
      var failure: Option<string> := None;
      if uploaded.Failed? {
        failure := Some(uploaded.message);
      } else {
        calls := calls + [ProcesarHorarios];
        if processed.Err? {
          failure := Some(processed.error);
        } else {
          resumen := Some(processed.value);
          calls := calls + [GetHorarios];
          if refetched.Err? {
            failure := Some(refetched.error);
          } else {
            horarios := refetched.value;
            viewMode := TableView;
            alert := Some(ProcessedAlert);
          }
        }
      }
      if failure.Some? {
        alert := Some(UploadErrorAlert(failure.value));
      }
    }
  }
}
