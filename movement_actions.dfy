/** The administrative page for correcting and deleting movements of either
    kind. Editing copies a listed record into a draft, looks up the person
    and vehicle objects the selection widgets need, and saves the whole
    draft back with `PUT`. */
module MovementActions {
  import opened Domain
  import opened Http
  import Lists
  import Crud

  /** The two tabs, which are also the two record kinds. */
  datatype Kind = Acessos | Frota

  /** The collection path of a record kind. */
  function KindPath(kind: Kind): (p: string)
    ensures p == "/movimentacoes/acessos" <==> kind.Acessos?
    ensures p == "/movimentacoes/frota" <==> kind.Frota?
  {
    assert "/movimentacoes/acessos"[15] != "/movimentacoes/frota"[15];
    if kind == Acessos then "/movimentacoes/acessos" else "/movimentacoes/frota"
  }

  /** A movement as listed by `GET /movimentacoes/acessos` or
      `GET /movimentacoes/frota`. The page copies its fields without
      checking their types, so they are loose values; a field the other
      kind does not have reads as `Undefined`. */
  datatype Row = Row(
    id: Id,
    idPessoa: Json,
    idVeiculo: Json,
    idSetorVisitado: Json,
    idCidadeDeDestino: Json,
    idPostoControleEntrada: Json,
    idPostoControleSaida: Json,
    kmEntrada: Json,
    kmSaida: Json,
    motivoDaVisita: Json,
    motivoSaida: Json,
    observacao: Json)

  /** The reference lists the dialog's widgets and selects draw from. */
  datatype Aux = Aux(
    pessoas: seq<Person>,
    veiculos: seq<Vehicle>,
    setores: seq<Named>,
    postos: seq<Named>,
    cidades: seq<Named>)

  const NoAux := Aux([], [], [], [], [])

  /** `formData`: empty before the first edit, then the draft of the kind
      being edited. The draft is also the body that is saved. */
  datatype Draft =
    | Blank
    | AccessDraft(
        idPessoa: Json,
        pessoaObj: Option<Person>,
        veiculoObj: Option<Vehicle>,
        idVeiculo: Json,
        idSetorVisitado: Json,
        idPostoControleEntrada: Json,
        idPostoControleSaida: Json,
        kmEntrada: Json,
        kmSaida: Json,
        motivoDaVisita: Json,
        observacao: Json)
    | FleetDraft(
        idPessoa: Json,
        pessoaObj: Option<Person>,
        veiculoObj: Option<Vehicle>,
        idVeiculo: Json,
        idCidadeDeDestino: Json,
        idPostoControleEntrada: Json,
        idPostoControleSaida: Json,
        kmEntrada: Json,
        kmSaida: Json,
        motivoSaida: Json,
        observacao: Json)

  /** The kind of record a draft edits. */
  function DraftKind(d: Draft): Option<Kind>
  {
    match d
    case Blank => None
    case AccessDraft(_, _, _, _, _, _, _, _, _, _, _) => Some(Acessos)
    case FleetDraft(_, _, _, _, _, _, _, _, _, _, _) => Some(Frota)
  }

  /** `list.find((x) => x.id === key)`: the first entry whose identifier
      strictly equals the record's field. A missing or non-numeric field
      finds nothing. */
  function PersonFor(pessoas: seq<Person>, key: Json): (r: Option<Person>)
    ensures r.None? <==> forall i :: 0 <= i < |pessoas| ==> Num(pessoas[i].id) != key
    ensures r.Some? ==> r.value in pessoas && Num(r.value.id) == key
    ensures r.Some? ==> exists i :: Lists.FirstMatch(pessoas, (p: Person) => Num(p.id) == key, i) && pessoas[i] == r.value
  {
    Lists.Find(pessoas, (p: Person) => Num(p.id) == key)
  }

  function VehicleFor(veiculos: seq<Vehicle>, key: Json): (r: Option<Vehicle>)
    ensures r.None? <==> forall i :: 0 <= i < |veiculos| ==> Num(veiculos[i].id) != key
    ensures r.Some? ==> r.value in veiculos && Num(r.value.id) == key
    ensures r.Some? ==> exists i :: Lists.FirstMatch(veiculos, (v: Vehicle) => Num(v.id) == key, i) && veiculos[i] == r.value
  {
    Lists.Find(veiculos, (v: Vehicle) => Num(v.id) == key)
  }

  /** The access draft built by `handleEdit`: identifiers of person, vehicle,
      sector and entry post are copied as they are; exit post, both
      odometers, reason and note keep a truthy value and otherwise become
      "" (so an odometer of 0 becomes ""). */
  function AccessDraftOf(row: Row, aux: Aux): (d: Draft)
    ensures d.AccessDraft?
    ensures d.idPessoa == row.idPessoa && d.idVeiculo == row.idVeiculo
    ensures d.idSetorVisitado == row.idSetorVisitado
    ensures d.idPostoControleEntrada == row.idPostoControleEntrada
    ensures d.pessoaObj == PersonFor(aux.pessoas, row.idPessoa)
    ensures d.veiculoObj == VehicleFor(aux.veiculos, row.idVeiculo)
    ensures Truthy(row.kmEntrada) ==> d.kmEntrada == row.kmEntrada
    ensures !Truthy(row.kmEntrada) ==> d.kmEntrada == Str("")
    ensures Truthy(row.kmSaida) ==> d.kmSaida == row.kmSaida
    ensures !Truthy(row.kmSaida) ==> d.kmSaida == Str("")
    ensures Truthy(row.idPostoControleSaida) ==> d.idPostoControleSaida == row.idPostoControleSaida
    ensures !Truthy(row.idPostoControleSaida) ==> d.idPostoControleSaida == Str("")
    ensures Truthy(row.motivoDaVisita) ==> d.motivoDaVisita == row.motivoDaVisita
    ensures !Truthy(row.motivoDaVisita) ==> d.motivoDaVisita == Str("")
    ensures Truthy(row.observacao) ==> d.observacao == row.observacao
    ensures !Truthy(row.observacao) ==> d.observacao == Str("")
  {
    AccessDraft(
      row.idPessoa,
      PersonFor(aux.pessoas, row.idPessoa),
      VehicleFor(aux.veiculos, row.idVeiculo),
      row.idVeiculo,
      row.idSetorVisitado,
      row.idPostoControleEntrada,
      OrEmptyJson(row.idPostoControleSaida),
      OrEmptyJson(row.kmEntrada),
      OrEmptyJson(row.kmSaida),
      OrEmptyJson(row.motivoDaVisita),
      OrEmptyJson(row.observacao))
  }

  /** The fleet draft built by `handleEdit`: unlike the access draft, the
      departure odometer is copied as it is, even when it is 0 or missing. */
  function FleetDraftOf(row: Row, aux: Aux): (d: Draft)
    ensures d.FleetDraft?
    ensures d.idPessoa == row.idPessoa && d.idVeiculo == row.idVeiculo
    ensures d.idCidadeDeDestino == row.idCidadeDeDestino
    ensures d.idPostoControleEntrada == row.idPostoControleEntrada
    ensures d.kmEntrada == row.kmEntrada
    ensures d.pessoaObj == PersonFor(aux.pessoas, row.idPessoa)
    ensures d.veiculoObj == VehicleFor(aux.veiculos, row.idVeiculo)
    ensures Truthy(row.kmSaida) ==> d.kmSaida == row.kmSaida
    ensures !Truthy(row.kmSaida) ==> d.kmSaida == Str("")
    ensures Truthy(row.idPostoControleSaida) ==> d.idPostoControleSaida == row.idPostoControleSaida
    ensures !Truthy(row.idPostoControleSaida) ==> d.idPostoControleSaida == Str("")
    ensures Truthy(row.motivoSaida) ==> d.motivoSaida == row.motivoSaida
    ensures !Truthy(row.motivoSaida) ==> d.motivoSaida == Str("")
    ensures Truthy(row.observacao) ==> d.observacao == row.observacao
    ensures !Truthy(row.observacao) ==> d.observacao == Str("")
  {
    FleetDraft(
      row.idPessoa,
      PersonFor(aux.pessoas, row.idPessoa),
      VehicleFor(aux.veiculos, row.idVeiculo),
      row.idVeiculo,
      row.idCidadeDeDestino,
      row.idPostoControleEntrada,
      OrEmptyJson(row.idPostoControleSaida),
      row.kmEntrada,
      OrEmptyJson(row.kmSaida),
      OrEmptyJson(row.motivoSaida),
      OrEmptyJson(row.observacao))
  }

  /** The draft for the active tab's kind. */
  function DraftOf(kind: Kind, row: Row, aux: Aux): (d: Draft)
    ensures DraftKind(d) == Some(kind)
  {
    match kind
    case Acessos => AccessDraftOf(row, aux)
    case Frota => FleetDraftOf(row, aux)
  }

  /** The two drafts treat a departure odometer of 0 differently: the access
      draft turns it into "", the fleet draft keeps it. */
  lemma ZeroOdometerDiffersByKind(row: Row, aux: Aux)
    requires row.kmEntrada == Num(0)
    ensures AccessDraftOf(row, aux).kmEntrada == Str("")
    ensures FleetDraftOf(row, aux).kmEntrada == Num(0)
  {
  }

  /** The looked-up person is one whose identifier the record names, and no
      earlier entry of the list has it. */
  lemma DraftPersonIsFirstMatch(kind: Kind, row: Row, aux: Aux, i: nat)
    requires i < |aux.pessoas| && Num(aux.pessoas[i].id) == row.idPessoa
    ensures DraftOf(kind, row, aux).pessoaObj.Some?
    ensures Num(DraftOf(kind, row, aux).pessoaObj.value.id) == row.idPessoa
    ensures exists k :: k <= i && Lists.FirstMatch(aux.pessoas, (p: Person) => Num(p.id) == row.idPessoa, k)
                        && DraftOf(kind, row, aux).pessoaObj.value == aux.pessoas[k]
  {
    var found := DraftOf(kind, row, aux).pessoaObj;
    var k :| Lists.FirstMatch(aux.pessoas, (p: Person) => Num(p.id) == row.idPessoa, k) && aux.pessoas[k] == found.value;
    assert k <= i;
  }

  /** The vehicles the dialog offers: all of them for an access record, and
      exactly the company's own vehicles, in the same order, for a trip. */
  function VehicleOptions(kind: Kind, veiculos: seq<Vehicle>): (r: seq<Vehicle>)
    ensures kind == Acessos ==> r == veiculos
    ensures kind == Frota ==> forall i :: 0 <= i < |r| ==> r[i] in veiculos && r[i].frotaPropria
    ensures kind == Frota ==> forall i :: 0 <= i < |veiculos| && veiculos[i].frotaPropria ==> veiculos[i] in r
    ensures Lists.IsSubsequence(r, veiculos)
    ensures kind == Frota ==> forall v :: multiset(r)[v] == if v.frotaPropria then multiset(veiculos)[v] else 0
  {
    if kind == Acessos then
      IsSubsequenceRefl(veiculos);
      veiculos
    else
      Lists.Filter(veiculos, (v: Vehicle) => v.frotaPropria)
  }

  lemma {:induction false} IsSubsequenceRefl<T>(s: seq<T>)
    ensures Lists.IsSubsequence(s, s)
  {
    if s != [] {
      IsSubsequenceRefl(s[1..]);
    }
  }

  /** `loadAuxData`: the five lists are requested only while no person is
      loaded. */
  function AuxRequests(aux: Aux): (r: seq<string>)
    ensures |aux.pessoas| > 0 <==> r == []
    ensures |aux.pessoas| == 0 ==> r == ["/pessoas", "/veiculos", "/setores", "/postos", "/cidades"]
  {
    if |aux.pessoas| > 0 then [] else ["/pessoas", "/veiculos", "/setores", "/postos", "/cidades"]
  }


  class ActionsPage {
    var activeTab: Kind
    var lista: seq<Row>
    var loading: bool
    var showModal: bool
    var editType: Option<Kind>
    var currentItem: Option<Row>
    var aux: Aux
    var formData: Draft

    /** While the dialog is open it edits a record, and the draft has the
        kind that was captured when editing began. */
    ghost predicate Valid()
      reads this
    {
      showModal ==> currentItem.Some? && editType.Some? && DraftKind(formData) == editType
    }

    constructor ()
      ensures Valid()
      ensures activeTab == Acessos && lista == [] && !loading && !showModal
      ensures editType == None && currentItem == None && aux == NoAux && formData == Blank
    {
      activeTab := Acessos;
      lista := [];
      loading := false;
      showModal := false;
      editType := None;
      currentItem := None;
      aux := NoAux;
      formData := Blank;
    }

    /** The tab buttons. */
    method SwitchTab(kind: Kind)
      requires Valid()
      modifies this`activeTab
      ensures Valid() && activeTab == kind
    {
      activeTab := kind;
    }

    /** `loadList`: the active tab's collection is requested; the list is
        replaced on success, an alert is raised on failure, and loading is
        over in both cases. */
    method LoadList(reply: ListReply<seq<Row>>) returns (endpoint: string, alert: Option<string>)
      requires Valid()
      modifies this`lista, this`loading
      ensures Valid()
      ensures endpoint == KindPath(activeTab)
      ensures !loading
      ensures reply.Loaded? ==> lista == reply.data && alert == None
      ensures reply.LoadFailed? ==> lista == old(lista) && alert == Some("Erro ao carregar lista.")
    {
      loading := true;
      endpoint := KindPath(activeTab);
      if reply.Loaded? {
        lista := reply.data;
        alert := None;
      } else {
        alert := Some("Erro ao carregar lista.");
      }
      loading := false;
    }

    /** `loadAuxData`: skipped once people are loaded; otherwise the five
        lists are requested and stored together on success. A failure is
        only logged. */
    method LoadAuxData(reply: ListReply<Aux>) returns (requests: seq<string>)
      requires Valid()
      modifies this`aux
      ensures Valid()
      ensures requests == AuxRequests(old(aux))
      ensures requests == [] ==> aux == old(aux)
      ensures requests != [] && reply.Loaded? ==> aux == reply.data
      ensures requests != [] && reply.LoadFailed? ==> aux == old(aux)
    {
      requests := AuxRequests(aux);
      if |aux.pessoas| > 0 {
        return;
      }
      if reply.Loaded? {
        aux := reply.data;
      }
    }

    /** `handleDelete`: nothing happens unless the warning is confirmed; the
        request targets the record under the active tab's path. */
    method DeleteRecord(id: Id, confirmed: bool, reply: Reply) returns (e: Effect<()>, alert: Option<string>)
      ensures e == Crud.ConfirmedDelete(KindPath(activeTab), id, confirmed)
      ensures !confirmed ==> alert == None
      ensures confirmed && reply.Success? ==> alert == Some("Registro excluído.")
      ensures confirmed && reply.Failure? ==> alert == Some("Erro ao excluir.")
    {
      e := Crud.ConfirmedDelete(KindPath(activeTab), id, confirmed);
      if !confirmed {
        alert := None;
      } else if reply.Success? {
        alert := Some("Registro excluído.");
      } else {
        alert := Some("Erro ao excluir.");
      }
    }

    /** `handleEdit`: remember the record and the active kind, build the
        draft for that kind and open the dialog. */
    method Edit(row: Row)
      requires Valid()
      modifies this`currentItem, this`editType, this`formData, this`showModal
      ensures Valid()
      ensures currentItem == Some(row) && editType == Some(activeTab)
      ensures formData == DraftOf(activeTab, row, aux) && showModal
    {
      currentItem := Some(row);
      editType := Some(activeTab);
      formData := DraftOf(activeTab, row, aux);
      showModal := true;
    }

    /** The person widget's `onChange`: identifier and object change
        together. A cleared widget reports `null`, and `item?.id` is then
        `undefined`, so the saved body carries no `id_pessoa`. */
    method ChoosePerson(item: Option<Person>)
      requires Valid() && showModal
      modifies this`formData
      ensures Valid()
      ensures formData == old(formData).(idPessoa := if item.Some? then Num(item.value.id) else Undefined, pessoaObj := item)
    {
      formData := formData.(idPessoa := if item.Some? then Num(item.value.id) else Undefined, pessoaObj := item);
    }

    /** The vehicle widget's `onChange`; a cleared widget leaves
        `id_veiculo` out of the saved body in the same way. */
    method ChooseVehicle(item: Option<Vehicle>)
      requires Valid() && showModal
      modifies this`formData
      ensures Valid()
      ensures formData == old(formData).(idVeiculo := if item.Some? then Num(item.value.id) else Undefined, veiculoObj := item)
    {
      formData := formData.(idVeiculo := if item.Some? then Num(item.value.id) else Undefined, veiculoObj := item);
    }

    /** The dialog's close button. */
    method CloseModal()
      requires Valid()
      modifies this`showModal
      ensures Valid() && !showModal
    {
      showModal := false;
    }

    /** `handleSave`: the whole draft is sent, unchanged, to the record that
        was edited under the kind captured by `handleEdit`. The dialog
        closes only on success. */
    method Save(reply: Reply) returns (e: Effect<Draft>, alert: string)
      requires Valid() && showModal
      modifies this`showModal
      ensures Valid()
      ensures e == Request(Put, WithId(KindPath(editType.value), currentItem.value.id), formData)
      ensures reply.Success? ==> alert == "Registro atualizado com sucesso!" && !showModal
      ensures reply.Failure? ==> alert == "Erro ao salvar alterações." && showModal
    {
      e := Request(Put, WithId(KindPath(editType.value), currentItem.value.id), formData);
      if reply.Success? {
        alert := "Registro atualizado com sucesso!";
        showModal := false;
      } else {
        alert := "Erro ao salvar alterações.";
      }
    }
  }

  /** Editing an access record and then switching to the fleet tab still
      saves to the access record: the kind is captured by the edit. */
  method EditSwitchSave(row: Row) returns (e: Effect<Draft>)
    ensures e.Request? && e.endpoint == WithId("/movimentacoes/acessos", row.id)
    ensures e.body.AccessDraft? && e.body.idPessoa == row.idPessoa
  {
    var page := new ActionsPage();
    page.Edit(row);
    page.SwitchTab(Frota);
    var alert;
    e, alert := page.Save(Success);
  }

  /** Clearing the person of a record being edited and saving sends a body
      without the person's identifier, and without a person object. */
  method ClearPersonThenSave(row: Row) returns (e: Effect<Draft>)
    ensures e.Request? && e.endpoint == WithId("/movimentacoes/acessos", row.id)
    ensures e.body.AccessDraft? && !InBody(e.body.idPessoa) && e.body.pessoaObj.None?
    ensures e.body.idVeiculo == row.idVeiculo
  {
    var page := new ActionsPage();
    page.Edit(row);
    page.ChoosePerson(None);
    var alert;
    e, alert := page.Save(Success);
  }

  /** A fresh page fetches the five lists on its first tab change; once that
      load has brought a person, every later tab change fetches nothing,
      whatever its reply would have been, and the lists stay as loaded. */
  method AuxLoadedOnce(d: Aux, later: ListReply<Aux>) returns (first: seq<string>, second: seq<string>)
    requires |d.pessoas| > 0
    ensures first == ["/pessoas", "/veiculos", "/setores", "/postos", "/cidades"]
    ensures second == []
  {
    var page := new ActionsPage();
    first := page.LoadAuxData(Loaded(d));
    second := page.LoadAuxData(later);
    assert page.aux == d;
  }

  /** A load whose person list came back empty is repeated on the next tab
      change, as is a load that failed. */
  method EmptyLoadIsRepeated(d: Aux, first: ListReply<Aux>) returns (second: seq<string>)
    requires first.LoadFailed? || |first.data.pessoas| == 0
    ensures second == ["/pessoas", "/veiculos", "/setores", "/postos", "/cidades"]
  {
    var page := new ActionsPage();
    var requests := page.LoadAuxData(first);
    second := page.LoadAuxData(Loaded(d));
  }
}
