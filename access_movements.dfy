/** The gate control page: registering a visitor's entry
    (`POST /movimentacoes/acessos/entrada`) and their exit from the yard
    (`PUT /movimentacoes/acessos/saida/{id}`). Only person, sector and post
    are required on entry, and only the post on exit. */
module AccessMovements {
  import opened Domain
  import opened Http

  datatype Tab = NewEntry | Yard

  /** The "Nova Entrada" form. Selects are `None` while on "Selecione...";
      the odometer is `None` while empty. */
  datatype EntryForm = EntryForm(
    pessoa: Option<Person>,
    veiculo: Option<Vehicle>,
    setorId: Option<Id>,
    postoId: Option<Id>,
    kmEntrada: Option<int>,
    motivo: string,
    observacao: string)

  const EmptyEntry := EntryForm(None, None, None, None, None, "", "")

  /** The exit dialog's form. */
  datatype ExitForm = ExitForm(postoId: Option<Id>, kmSaida: Option<int>, observacao: string)

  const EmptyExit := ExitForm(None, None, "")

  /** A movement in the yard, as listed by `GET /movimentacoes/acessos?status=patio`. */
  datatype Stay = Stay(id: Id)

  /** The request bodies. Optional fields travel as they are, `None` being
      the empty field (or `null` for the vehicle). */
  datatype Body =
    | EntryBody(
        idPessoa: Id,
        idVeiculo: Option<Id>,
        idSetorVisitado: Id,
        idPostoControleEntrada: Id,
        kmEntrada: Option<int>,
        motivoDaVisita: string,
        observacao: string)
    | ExitBody(idPostoControleSaida: Id, kmSaida: Option<int>, observacao: string)

  const EntryEndpoint := "/movimentacoes/acessos/entrada"
  const ExitPath := "/movimentacoes/acessos/saida"
  const MissingEntryFields := "Preencha Pessoa, Setor e Posto de Controle."
  const MissingExitPost := "Informe o posto de saída."
  const ExitFailure := "Erro ao registrar saída."

  /** The guard and payload of `handleRegistrarEntrada`: a request exactly
      when person, sector and post are chosen; the vehicle is its id or
      `null`, and the other fields are copied under the backend's names. */
  function EntryEffect(f: EntryForm): (e: Effect<Body>)
    ensures e.Request? <==> f.pessoa.Some? && f.setorId.Some? && f.postoId.Some?
    ensures !e.Request? ==> e == Rejected(MissingEntryFields)
    ensures e.Request? ==>
      && e.verb == Post && e.endpoint == EntryEndpoint
      && e.body.EntryBody?
      && e.body.idPessoa == f.pessoa.value.id
      && (f.veiculo.None? ==> e.body.idVeiculo.None?)
      && (f.veiculo.Some? ==> e.body.idVeiculo == Some(f.veiculo.value.id))
      && e.body.idSetorVisitado == f.setorId.value
      && e.body.idPostoControleEntrada == f.postoId.value
      && e.body.kmEntrada == f.kmEntrada
      && e.body.motivoDaVisita == f.motivo
      && e.body.observacao == f.observacao
  {
    if f.pessoa.None? || f.setorId.None? || f.postoId.None? then
      Rejected(MissingEntryFields)
    else
      var vehicleId := if f.veiculo.Some? then Some(f.veiculo.value.id) else None;
      Request(Post, EntryEndpoint, EntryBody(
        f.pessoa.value.id, vehicleId, f.setorId.value, f.postoId.value,
        f.kmEntrada, f.motivo, f.observacao))
  }

  /** The guard and payload of the exit: a request exactly when the exit
      post is chosen, sent to that movement with the odometer as typed. */
  function ExitEffect(stay: Stay, f: ExitForm): (e: Effect<Body>)
    ensures e.Request? <==> f.postoId.Some?
    ensures !e.Request? ==> e == Rejected(MissingExitPost)
    ensures e.Request? ==>
      e == Request(Put, WithId(ExitPath, stay.id), ExitBody(f.postoId.value, f.kmSaida, f.observacao))
  {
    if f.postoId.None? then
      Rejected(MissingExitPost)
    else
      Request(Put, WithId(ExitPath, stay.id), ExitBody(f.postoId.value, f.kmSaida, f.observacao))
  }

  /** Whether an entry is accepted depends neither on the vehicle, nor on
      the odometer, nor on the free-text fields. */
  lemma EntryOptionalFieldsDoNotGate(f: EntryForm, g: EntryForm)
    requires f.pessoa == g.pessoa && f.setorId == g.setorId && f.postoId == g.postoId
    ensures EntryEffect(f).Request? == EntryEffect(g).Request?
  {
  }

  /** The exit odometer is never compared with anything: any reading, even
      one below the entry reading, is accepted once the post is chosen. */
  lemma ExitIgnoresOdometer(stay: Stay, f: ExitForm, km: Option<int>)
    ensures ExitEffect(stay, f).Request? == ExitEffect(stay, f.(kmSaida := km)).Request?
  {
  }

  /** Exit requests for different movements target different paths. */
  lemma ExitTargetsTheStay(s1: Stay, s2: Stay, f: ExitForm)
    requires ExitEffect(s1, f).Request? && ExitEffect(s2, f).Request?
    requires ExitEffect(s1, f).endpoint == ExitEffect(s2, f).endpoint
    ensures s1 == s2
  {
    WithIdInjective(ExitPath, s1.id, s2.id);
  }

  class AccessPage {
    var activeTab: Tab
    var formEntrada: EntryForm
    var modalSaidaOpen: bool
    var saidaItem: Option<Stay>
    var formSaida: ExitForm

    /** The exit dialog is only open for a chosen movement. */
    ghost predicate Valid()
      reads this
    {
      modalSaidaOpen ==> saidaItem.Some?
    }

    constructor ()
      ensures Valid()
      ensures activeTab == NewEntry && formEntrada == EmptyEntry
      ensures !modalSaidaOpen && saidaItem == None && formSaida == EmptyExit
    {
      activeTab := NewEntry;
      formEntrada := EmptyEntry;
      modalSaidaOpen := false;
      saidaItem := None;
      formSaida := EmptyExit;
    }

    /** The tab buttons. */
    method ShowTab(tab: Tab)
      requires Valid()
      modifies this`activeTab
      ensures Valid() && activeTab == tab
    {
      activeTab := tab;
    }

    /** The person and vehicle widgets' `onChange`. */
    method ChoosePerson(item: Option<Person>)
      modifies this`formEntrada
      ensures formEntrada == old(formEntrada).(pessoa := item)
    {
      formEntrada := formEntrada.(pessoa := item);
    }

    method ChooseVehicle(item: Option<Vehicle>)
      modifies this`formEntrada
      ensures formEntrada == old(formEntrada).(veiculo := item)
    {
      formEntrada := formEntrada.(veiculo := item);
    }

    /** `handleRegistrarEntrada`. After a successful request the form is
        back in its initial state and the yard tab is shown; a failure
        shows the server's message or a fixed one and changes nothing. */
    method RegisterEntry(reply: Reply) returns (e: Effect<Body>, alert: Option<string>)
      requires Valid()
      modifies this`formEntrada, this`activeTab
      ensures Valid()
      ensures e == EntryEffect(old(formEntrada))
      ensures e.Rejected? ==> alert == Some(e.message) && unchanged(this)
      ensures e.Request? && reply.Success? ==>
        && alert == Some("Entrada registrada com sucesso!")
        && formEntrada == EmptyEntry && activeTab == Yard
      ensures e.Request? && reply.Failure? ==>
        alert == Some(ErrorText(reply.serverError, "Erro ao registrar entrada")) && unchanged(this)
    {
      e := EntryEffect(formEntrada);
      if e.Rejected? {
        alert := Some(e.message);
        return;
      }
      if reply.Success? {
        alert := Some("Entrada registrada com sucesso!");
        formEntrada := EmptyEntry;
        activeTab := Yard;
      } else {
        alert := Some(ErrorText(reply.serverError, "Erro ao registrar entrada"));
      }
    }

    /** `openModalSaida`: remember the movement and start from an empty form. */
    method OpenExit(stay: Stay)
      requires Valid()
      modifies this`saidaItem, this`formSaida, this`modalSaidaOpen
      ensures Valid()
      ensures saidaItem == Some(stay) && formSaida == EmptyExit && modalSaidaOpen
    {
      saidaItem := Some(stay);
      formSaida := EmptyExit;
      modalSaidaOpen := true;
    }

    /** The dialog's close and cancel buttons. */
    method CloseExit()
      requires Valid()
      modifies this`modalSaidaOpen
      ensures Valid() && !modalSaidaOpen
    {
      modalSaidaOpen := false;
    }

    /** `handleRegistrarSaida`, submitted from the open dialog. A failure
        always shows the same message, whatever the server said. */
    method RegisterExit(reply: Reply) returns (e: Effect<Body>, alert: Option<string>)
      requires Valid() && modalSaidaOpen
      modifies this`modalSaidaOpen
      ensures Valid()
      ensures e == ExitEffect(old(saidaItem).value, old(formSaida))
      ensures e.Rejected? ==> alert == Some(e.message) && modalSaidaOpen
      ensures e.Request? && reply.Success? ==> alert == Some("Saída registrada!") && !modalSaidaOpen
      ensures e.Request? && reply.Failure? ==> alert == Some(ExitFailure) && modalSaidaOpen
    {
      e := ExitEffect(saidaItem.value, formSaida);
      if e.Rejected? {
        alert := Some(e.message);
        return;
      }
      if reply.Success? {
        alert := Some("Saída registrada!");
        modalSaidaOpen := false;
      } else {
        alert := Some(ExitFailure);
      }
    }
  }
}
