/** The reports page: a filter form whose non-empty fields become the query
    of `GET /movimentacoes/acessos` or `GET /movimentacoes/frota`, a summary
    of the filters used for the printed header, and the result table. */
module Reports {
  import opened Domain
  import opened Http
  import Text
  import FleetMovements

  datatype Kind = Acessos | Frota

  /** The endpoint a report kind reads. */
  function ReportEndpoint(kind: Kind): (url: string)
    ensures kind == Acessos ==> url == "/movimentacoes/acessos"
    ensures kind == Frota ==> url == "/movimentacoes/frota"
  {
    if kind == Acessos then "/movimentacoes/acessos" else "/movimentacoes/frota"
  }

  /** The four text filters, empty when not used. */
  datatype Filters = Filters(dataInicio: string, dataFim: string, buscaNome: string, buscaPlaca: string)

  const NoFilters := Filters("", "", "", "")

  const QueryKeys: set<string> := {"data_inicio", "data_fim", "nome", "placa"}

  /** The query a set of filters asks for: each of the four parameters is
      present exactly when its filter is non-empty, and then carries it. */
  function QueryParams(f: Filters): (q: map<string, string>)
    ensures q.Keys <= QueryKeys
    ensures "data_inicio" in q <==> f.dataInicio != ""
    ensures "data_fim" in q <==> f.dataFim != ""
    ensures "nome" in q <==> f.buscaNome != ""
    ensures "placa" in q <==> f.buscaPlaca != ""
    ensures "data_inicio" in q ==> q["data_inicio"] == f.dataInicio
    ensures "data_fim" in q ==> q["data_fim"] == f.dataFim
    ensures "nome" in q ==> q["nome"] == f.buscaNome
    ensures "placa" in q ==> q["placa"] == f.buscaPlaca
  {
    (if f.dataInicio != "" then map["data_inicio" := f.dataInicio] else map[])
    + (if f.dataFim != "" then map["data_fim" := f.dataFim] else map[])
    + (if f.buscaNome != "" then map["nome" := f.buscaNome] else map[])
    + (if f.buscaPlaca != "" then map["placa" := f.buscaPlaca] else map[])
  }

  /** `params` as `handleGerarRelatorio` fills it, one conditional
      assignment per filter. */
  method BuildParams(f: Filters) returns (params: map<string, string>)
    ensures params == QueryParams(f)
  {
    params := map[];
    if f.dataInicio != "" {
      params := params["data_inicio" := f.dataInicio];
    }
    if f.dataFim != "" {
      params := params["data_fim" := f.dataFim];
    }
    if f.buscaNome != "" {
      params := params["nome" := f.buscaNome];
    }
    if f.buscaPlaca != "" {
      params := params["placa" := f.buscaPlaca];
    }
  }

  /** With no filter the whole history is requested. */
  lemma NoFilterNoQuery()
    ensures QueryParams(NoFilters) == map[]
  {
  }

  /** One period label of the summary: a fixed word, or a date rendered in
      the browser's locale (the rendering is not modelled). */
  datatype DateLabel = Fixed(text: string) | LocaleDate(iso: string)

  /** `filtrosUsados`, the header printed above the report. */
  datatype Summary = Summary(tipo: string, inicio: DateLabel, fim: DateLabel, nome: string, placa: string)

  /** The summary of a report: its kind's title, the period with "Início"
      and "Hoje" standing for an open start and end, and the two text
      filters as they were. */
  function SummaryOf(kind: Kind, f: Filters): (s: Summary)
    ensures s.tipo == (if kind == Acessos then "Movimentação de Acessos" else "Movimentação de Frota")
    ensures s.inicio.Fixed? <==> f.dataInicio == ""
    ensures s.inicio.Fixed? ==> s.inicio.text == "Início"
    ensures s.inicio.LocaleDate? ==> s.inicio.iso == f.dataInicio
    ensures s.fim.Fixed? <==> f.dataFim == ""
    ensures s.fim.Fixed? ==> s.fim.text == "Hoje"
    ensures s.fim.LocaleDate? ==> s.fim.iso == f.dataFim
    ensures s.nome == f.buscaNome && s.placa == f.buscaPlaca
  {
    Summary(
      if kind == Acessos then "Movimentação de Acessos" else "Movimentação de Frota",
      if f.dataInicio != "" then LocaleDate(f.dataInicio) else Fixed("Início"),
      if f.dataFim != "" then LocaleDate(f.dataFim) else Fixed("Hoje"),
      f.buscaNome,
      f.buscaPlaca)
  }

  /** The printed header agrees with the query that produced the report:
      a period bound is shown as a date exactly when it was sent. */
  lemma SummaryMatchesQuery(kind: Kind, f: Filters)
    ensures SummaryOf(kind, f).inicio.LocaleDate? <==> "data_inicio" in QueryParams(f)
    ensures SummaryOf(kind, f).fim.LocaleDate? <==> "data_fim" in QueryParams(f)
    ensures "nome" in QueryParams(f) ==> QueryParams(f)["nome"] == SummaryOf(kind, f).nome
    ensures "placa" in QueryParams(f) ==> QueryParams(f)["placa"] == SummaryOf(kind, f).placa
  {
  }

  /** The fields of a fleet row the distance column reads. */
  datatype TripRow = TripRow(kmEntrada: int, kmSaida: Option<int>)

  /** The distance column of a fleet row. */
  datatype DistanceCell = Distance(km: int) | Travelling

  /** `item.km_saida ? km_saida - km_entrada : "VIAGEM"`: a trip shows a
      distance exactly when its arrival odometer is truthy, so a missing
      arrival and an arrival of 0 both read as still travelling. */
  function DistanceOf(row: TripRow): (c: DistanceCell)
    ensures c.Travelling? <==> row.kmSaida.None? || row.kmSaida.value == 0
    ensures c.Distance? ==> c.km + row.kmEntrada == row.kmSaida.value
  {
    if row.kmSaida.Some? && row.kmSaida.value != 0 then Distance(row.kmSaida.value - row.kmEntrada)
    else Travelling
  }

  /** A trip closed through the fleet page with a non-negative departure
      odometer always shows a positive distance in the report. */
  lemma ReturnedTripShowsDistance(trip: FleetMovements.Trip, f: FleetMovements.ReturnForm)
    requires trip.kmEntrada >= 0
    requires FleetMovements.ReturnEffect(trip, f).Request?
    ensures DistanceOf(TripRow(trip.kmEntrada, Some(f.kmChegada.value))).Distance?
    ensures DistanceOf(TripRow(trip.kmEntrada, Some(f.kmChegada.value))).km > 0
  {
  }

  /** The text shown when the table has no rows. */
  function EmptyMessage(summary: Option<Summary>): (m: string)
    ensures m == "Nenhum registro encontrado." <==> summary.Some?
    ensures m == "Utilize os filtros para gerar o relatório." <==> summary.None?
  {
    if summary.Some? then "Nenhum registro encontrado." else "Utilize os filtros para gerar o relatório."
  }

  /** A row of the result table; only the fleet distance column is modelled. */
  type ReportRow = TripRow

  class ReportsPage {
    var tipoRelatorio: Kind
    var dataInicio: string
    var dataFim: string
    var buscaNome: string
    var buscaPlaca: string
    var resultados: seq<ReportRow>
    var loading: bool
    var filtrosUsados: Option<Summary>

    /** The plate filter only ever holds upper-case text. */
    ghost predicate Valid()
      reads this
    {
      Text.IsUpper(buscaPlaca)
    }

    function CurrentFilters(): Filters
      reads this
    {
      Filters(dataInicio, dataFim, buscaNome, buscaPlaca)
    }

    constructor ()
      ensures Valid()
      ensures tipoRelatorio == Acessos && CurrentFilters() == NoFilters
      ensures resultados == [] && !loading && filtrosUsados == None
    {
      tipoRelatorio := Acessos;
      dataInicio, dataFim, buscaNome, buscaPlaca := "", "", "", "";
      resultados := [];
      loading := false;
      filtrosUsados := None;
    }

    /** The plate input's `onChange` stores the text upper-cased. */
    method TypePlate(text: string)
      requires Valid()
      modifies this`buscaPlaca
      ensures Valid()
      ensures buscaPlaca == Text.Upper(text)
    {
      Text.UpperIsUpper(text);
      buscaPlaca := Text.Upper(text);
    }

    /** The name input and the two date inputs store what is entered. */
    method TypeName(text: string)
      requires Valid()
      modifies this`buscaNome
      ensures Valid() && buscaNome == text
    {
      buscaNome := text;
    }

    method SetPeriod(inicio: string, fim: string)
      requires Valid()
      modifies this`dataInicio, this`dataFim
      ensures Valid() && dataInicio == inicio && dataFim == fim
    {
      dataInicio := inicio;
      dataFim := fim;
    }

    /** The report-type select: a new kind discards the previous results. */
    method ChangeKind(kind: Kind)
      requires Valid()
      modifies this`tipoRelatorio, this`resultados, this`filtrosUsados
      ensures Valid()
      ensures tipoRelatorio == kind && resultados == [] && filtrosUsados == None
    {
      tipoRelatorio := kind;
      resultados := [];
      filtrosUsados := None;
    }

    /** The first half of `handleGerarRelatorio`, up to the request: loading
        starts, the previous results and summary are discarded, and the
        request for the current kind and filters is built. The kind and
        filters are returned too: the handler's closure keeps them for the
        second half, whatever the inputs hold by then. */
    method BeginGenerate() returns (endpoint: string, params: map<string, string>, usedKind: Kind, usedFilters: Filters)
      requires Valid()
      modifies this`loading, this`resultados, this`filtrosUsados
      ensures Valid()
      ensures loading && resultados == [] && filtrosUsados == None
      ensures usedKind == tipoRelatorio && usedFilters == CurrentFilters()
      ensures endpoint == ReportEndpoint(usedKind)
      ensures params == QueryParams(usedFilters)
    {
      usedKind := tipoRelatorio;
      usedFilters := Filters(dataInicio, dataFim, buscaNome, buscaPlaca);
      loading := true;
      resultados := [];
      filtrosUsados := None;
      endpoint := ReportEndpoint(tipoRelatorio);
      params := BuildParams(Filters(dataInicio, dataFim, buscaNome, buscaPlaca));
    }

    /** The second half: on success the rows and the summary of the kind
        and filters the request was built from are stored; on failure an
        alert is raised. Loading ends either way. */
    method FinishGenerate(usedKind: Kind, usedFilters: Filters, reply: ListReply<seq<ReportRow>>) returns (alert: Option<string>)
      requires Valid()
      modifies this`loading, this`resultados, this`filtrosUsados
      ensures Valid()
      ensures !loading
      ensures reply.Loaded? ==>
        && resultados == reply.data && alert == None
        && filtrosUsados == Some(SummaryOf(usedKind, usedFilters))
      ensures reply.LoadFailed? ==>
        && resultados == old(resultados) && filtrosUsados == old(filtrosUsados)
        && alert == Some("Erro ao gerar relatório.")
    {
      if reply.Loaded? {
        resultados := reply.data;
        filtrosUsados := Some(SummaryOf(usedKind, usedFilters));
        alert := None;
      } else {
        alert := Some("Erro ao gerar relatório.");
      }
      loading := false;
    }

    /** `limparFiltros`: the four filters, the results and the summary are
        emptied; the report type stays. */
    method ClearFilters()
      requires Valid()
      modifies this`dataInicio, this`dataFim, this`buscaNome, this`buscaPlaca, this`resultados, this`filtrosUsados
      ensures Valid()
      ensures CurrentFilters() == NoFilters && resultados == [] && filtrosUsados == None
      ensures tipoRelatorio == old(tipoRelatorio)
    {
      dataInicio, dataFim, buscaNome, buscaPlaca := "", "", "", "";
      resultados := [];
      filtrosUsados := None;
    }
  }

  /** Clearing after a report brings the page back to its prompt, and the
      next report asks for the whole history of the same kind. */
  method ClearThenGenerate(page: ReportsPage) returns (endpoint: string, params: map<string, string>)
    requires page.Valid()
    modifies page
    ensures EmptyMessage(page.filtrosUsados) == "Utilize os filtros para gerar o relatório."
    ensures endpoint == ReportEndpoint(old(page.tipoRelatorio)) && params == map[]
  {
    page.ClearFilters();
    var usedKind, usedFilters;
    endpoint, params, usedKind, usedFilters := page.BeginGenerate();
    NoFilterNoQuery();
  }

  /** Typing another name or choosing another kind while a report is on its
      way does not change the summary of that report: it names the kind and
      the filters the rows were fetched for. */
  method EditDuringGenerate(rows: seq<ReportRow>) returns (params: map<string, string>, summary: Option<Summary>)
    ensures params == map["nome" := "Ana"]
    ensures summary.Some? && summary.value.nome == "Ana"
    ensures summary.value.tipo == "Movimentação de Acessos"
  {
    var page := new ReportsPage();
    page.TypeName("Ana");
    var endpoint, usedKind, usedFilters;
    endpoint, params, usedKind, usedFilters := page.BeginGenerate();
    assert params == map["nome" := "Ana"];
    page.TypeName("Bia");
    page.ChangeKind(Frota);
    var alert := page.FinishGenerate(usedKind, usedFilters, Loaded(rows));
    summary := page.filtrosUsados;
  }
}
