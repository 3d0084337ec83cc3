/** The fleet control page: starting a trip of a company vehicle
    (`POST /movimentacoes/frota/saida`) and registering its return
    (`PUT /movimentacoes/frota/retorno/{id}`), with the rule that the
    arrival odometer must exceed the departure odometer. */
module FleetMovements {
  import opened Domain
  import opened Http
  import Text

  datatype Tab = NewTrip | Trips

  /** The "Nova Viagem" form. A select is `None` while it shows
      "Selecione..."; an odometer field is `None` while empty. */
  datatype DepartureForm = DepartureForm(
    pessoa: Option<Person>,
    veiculo: Option<Vehicle>,
    postoId: Option<Id>,
    cidadeId: Option<Id>,
    kmSaida: Option<int>,
    motivo: string,
    observacao: string)

  const EmptyDeparture := DepartureForm(None, None, None, None, None, "", "")

  /** The return dialog's form. */
  datatype ReturnForm = ReturnForm(postoId: Option<Id>, kmChegada: Option<int>, observacao: string)

  const EmptyReturn := ReturnForm(None, None, "")

  /** A trip still out, as listed by `GET /movimentacoes/frota?status=saiu`. */
  datatype Trip = Trip(id: Id, kmEntrada: int)

  /** The request bodies, named after the backend's columns. */
  datatype Body =
    | DepartureBody(
        idPessoa: Id,
        idVeiculo: Id,
        idPostoControleEntrada: Id,
        kmEntrada: int,
        idCidadeDeDestino: Id,
        motivoSaida: string,
        observacao: string)
    | ReturnBody(idPostoControleSaida: Id, kmSaida: int, observacao: string)

  const DepartureEndpoint := "/movimentacoes/frota/saida"
  const ReturnPath := "/movimentacoes/frota/retorno"
  const MissingDepartureFields := "Preencha todos os campos obrigatórios."
  const MissingReturnFields := "Preencha Posto e KM de Chegada."

  const OdometerPrefix := "A KM de chegada deve ser maior que a de saída ("

  /** The alert for an arrival odometer that does not exceed the departure:
      the fixed text, then the departure reading in decimal, then ")."; a
      reading that is not negative is quoted as plain digits that read back
      as that number. */
  function OdometerMessage(kmEntrada: int): (m: string)
    ensures |m| > |OdometerPrefix| + 2 && m[..|OdometerPrefix|] == OdometerPrefix && m[|m| - 2..] == ")."
    ensures m[|OdometerPrefix|..|m| - 2] == Text.IntToString(kmEntrada)
    ensures kmEntrada >= 0 ==> Text.ParseDigits(m[|OdometerPrefix|..|m| - 2]) == kmEntrada
  {
    OdometerPrefix + Text.IntToString(kmEntrada) + ")."
  }

  /** The guard and payload of `handleRegistrarSaida`: a request is issued
      exactly when driver, vehicle, post, city and odometer are all filled,
      and it carries their identifiers and values. */
  function DepartureEffect(f: DepartureForm): (e: Effect<Body>)
    ensures e.Request? <==>
      f.pessoa.Some? && f.veiculo.Some? && f.postoId.Some? && f.cidadeId.Some? && f.kmSaida.Some?
    ensures !e.Request? ==> e == Rejected(MissingDepartureFields)
    ensures e.Request? ==>
      && e.verb == Post && e.endpoint == DepartureEndpoint
      && e.body.DepartureBody?
      && e.body.idPessoa == f.pessoa.value.id
      && e.body.idVeiculo == f.veiculo.value.id
      && e.body.idPostoControleEntrada == f.postoId.value
      && e.body.kmEntrada == f.kmSaida.value
      && e.body.idCidadeDeDestino == f.cidadeId.value
      && e.body.motivoSaida == f.motivo
      && e.body.observacao == f.observacao
  {
    if f.pessoa.None? || f.veiculo.None? || f.postoId.None? || f.cidadeId.None? || f.kmSaida.None? then
      Rejected(MissingDepartureFields)
    else
      Request(Post, DepartureEndpoint, DepartureBody(
        f.pessoa.value.id, f.veiculo.value.id, f.postoId.value, f.kmSaida.value,
        f.cidadeId.value, f.motivo, f.observacao))
  }

  /** The guards and payload of `handleRegistrarRetorno`. A request is
      issued exactly when post and odometer are filled and the odometer is
      strictly above the trip's departure odometer; it targets that trip. */
  function ReturnEffect(trip: Trip, f: ReturnForm): (e: Effect<Body>)
    ensures e.Request? <==> f.postoId.Some? && f.kmChegada.Some? && f.kmChegada.value > trip.kmEntrada
    ensures (f.postoId.None? || f.kmChegada.None?) ==> e == Rejected(MissingReturnFields)
    ensures f.postoId.Some? && f.kmChegada.Some? && f.kmChegada.value <= trip.kmEntrada ==>
      e == Rejected(OdometerMessage(trip.kmEntrada))
    ensures e.Request? ==>
      e == Request(Put, WithId(ReturnPath, trip.id),
                   ReturnBody(f.postoId.value, f.kmChegada.value, f.observacao))
  {
    if f.postoId.None? || f.kmChegada.None? then
      Rejected(MissingReturnFields)
    else if f.kmChegada.value <= trip.kmEntrada then
      Rejected(OdometerMessage(trip.kmEntrada))
    else
      Request(Put, WithId(ReturnPath, trip.id), ReturnBody(f.postoId.value, f.kmChegada.value, f.observacao))
  }

  /** No return request ever lowers or keeps the odometer, and the distance
      it implies is positive. */
  lemma ReturnRequestsAdvanceOdometer(trip: Trip, f: ReturnForm)
    requires ReturnEffect(trip, f).Request?
    ensures ReturnEffect(trip, f).body.kmSaida - trip.kmEntrada > 0
  {
  }

  /** The rejection message names the departure odometer: different
      departure readings give different messages, since the quoted part is
      the reading's own rendering. */
  lemma OdometerMessageQuotesDeparture(a: int, b: int)
    ensures OdometerMessage(a) == OdometerMessage(b) ==> a == b
  {
  }

  /** Return requests for two different trips target two different paths. */
  lemma ReturnTargetsTheTrip(t1: Trip, t2: Trip, f: ReturnForm)
    requires ReturnEffect(t1, f).Request? && ReturnEffect(t2, f).Request?
    requires ReturnEffect(t1, f).endpoint == ReturnEffect(t2, f).endpoint
    ensures t1.id == t2.id
  {
    WithIdInjective(ReturnPath, t1.id, t2.id);
  }

  class FleetPage {
    var activeTab: Tab
    var formSaida: DepartureForm
    var modalRetornoOpen: bool
    var retornoItem: Option<Trip>
    var formRetorno: ReturnForm

    /** The return dialog is only open for a chosen trip. */
    ghost predicate Valid()
      reads this
    {
      modalRetornoOpen ==> retornoItem.Some?
    }

    constructor ()
      ensures Valid()
      ensures activeTab == NewTrip && formSaida == EmptyDeparture
      ensures !modalRetornoOpen && retornoItem == None && formRetorno == EmptyReturn
    {
      activeTab := NewTrip;
      formSaida := EmptyDeparture;
      modalRetornoOpen := false;
      retornoItem := None;
      formRetorno := EmptyReturn;
    }

    /** The tab buttons. */
    method ShowTab(tab: Tab)
      requires Valid()
      modifies this`activeTab
      ensures Valid() && activeTab == tab
    {
      activeTab := tab;
    }

    /** The driver and vehicle widgets' `onChange`. */
    method ChooseDriver(item: Option<Person>)
      modifies this`formSaida
      ensures formSaida == old(formSaida).(pessoa := item)
    {
      formSaida := formSaida.(pessoa := item);
    }

    method ChooseVehicle(item: Option<Vehicle>)
      modifies this`formSaida
      ensures formSaida == old(formSaida).(veiculo := item)
    {
      formSaida := formSaida.(veiculo := item);
    }

    /** `handleRegistrarSaida`. Bad input is rejected with no request. After
        a successful request the form returns to its initial state and the
        trips tab is shown; after a failure nothing changes and the server's
        message (or a fixed one) is shown. */
    method RegisterDeparture(reply: Reply) returns (e: Effect<Body>, alert: Option<string>)
      requires Valid()
      modifies this`formSaida, this`activeTab
      ensures Valid()
      ensures e == DepartureEffect(old(formSaida))
      ensures e.Rejected? ==> alert == Some(e.message) && unchanged(this)
      ensures e.Request? && reply.Success? ==>
        && alert == Some("Viagem iniciada com sucesso!")
        && formSaida == EmptyDeparture && activeTab == Trips
      ensures e.Request? && reply.Failure? ==>
        alert == Some(ErrorText(reply.serverError, "Erro ao iniciar viagem")) && unchanged(this)
    {
      e := DepartureEffect(formSaida);
      if e.Rejected? {
        alert := Some(e.message);
        return;
      }
      if reply.Success? {
        alert := Some("Viagem iniciada com sucesso!");
        formSaida := EmptyDeparture;
        activeTab := Trips;
      } else {
        alert := Some(ErrorText(reply.serverError, "Erro ao iniciar viagem"));
      }
    }

    /** `openModalRetorno`: remember the trip and start from an empty form. */
    method OpenReturn(trip: Trip)
      requires Valid()
      modifies this`retornoItem, this`formRetorno, this`modalRetornoOpen
      ensures Valid()
      ensures retornoItem == Some(trip) && formRetorno == EmptyReturn && modalRetornoOpen
    {
      retornoItem := Some(trip);
      formRetorno := EmptyReturn;
      modalRetornoOpen := true;
    }

    /** The dialog's cancel button. */
    method CloseReturn()
      requires Valid()
      modifies this`modalRetornoOpen
      ensures Valid() && !modalRetornoOpen
    {
      modalRetornoOpen := false;
    }

    /** `handleRegistrarRetorno`, submitted from the open dialog. The dialog
        closes only after a successful request. */
    method RegisterReturn(reply: Reply) returns (e: Effect<Body>, alert: Option<string>)
      requires Valid() && modalRetornoOpen
      modifies this`modalRetornoOpen
      ensures Valid()
      ensures e == ReturnEffect(old(retornoItem).value, old(formRetorno))
      ensures e.Rejected? ==> alert == Some(e.message) && modalRetornoOpen
      ensures e.Request? && reply.Success? ==>
        alert == Some("Retorno registrado! Veículo disponível no pátio.") && !modalRetornoOpen
      ensures e.Request? && reply.Failure? ==>
        alert == Some(ErrorText(reply.serverError, "Erro ao registrar retorno")) && modalRetornoOpen
    {
      e := ReturnEffect(retornoItem.value, formRetorno);
      if e.Rejected? {
        alert := Some(e.message);
        return;
      }
      if reply.Success? {
        alert := Some("Retorno registrado! Veículo disponível no pátio.");
        modalRetornoOpen := false;
      } else {
        alert := Some(ErrorText(reply.serverError, "Erro ao registrar retorno"));
      }
    }
  }

  /** A trip leaves at 50000 km; a return at the same 50000 km is refused
      before any request, and one at 50120 km is sent, a distance of 120 km. */
  method OdometerScenario(driver: Person, car: Vehicle, post: Id, city: Id)
    returns (first: Effect<Body>, second: Effect<Body>)
    ensures first == Rejected(OdometerMessage(50000))
    ensures second == Request(Put, WithId(ReturnPath, 1), ReturnBody(post, 50120, ""))
    ensures second.body.kmSaida - 50000 == 120
  {
    var page := new FleetPage();
    page.formSaida := DepartureForm(Some(driver), Some(car), Some(post), Some(city), Some(50000), "", "");
    var start, startAlert := page.RegisterDeparture(Success);
    assert start.Request? && start.body.kmEntrada == 50000;
    page.OpenReturn(Trip(1, start.body.kmEntrada));
    page.formRetorno := ReturnForm(Some(post), Some(50000), "");
    var alert;
    first, alert := page.RegisterReturn(Success);
    page.formRetorno := ReturnForm(Some(post), Some(50120), "");
    second, alert := page.RegisterReturn(Success);
  }
}
