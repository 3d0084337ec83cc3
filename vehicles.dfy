/** The vehicle registry: a searchable list, a dialog that creates or edits
    a vehicle (the plate is upper-cased as it is typed), and confirmed deletion. */
module Vehicles {
  import opened Domain
  import opened Http
  import opened Text
  import Lists
  import Crud

  const Resource := "/veiculos"

  /** The dialog's fields. */
  datatype VehicleForm = VehicleForm(placa: string, modelo: string, cor: string, frotaPropria: bool)

  const EmptyVehicle := VehicleForm("", "", "", false)

  /** The search as written: `placa.toLowerCase().includes(t) ||
      modelo.toLowerCase().includes(t)`. `None` stands for the `TypeError`
      thrown when the plate does not match and the model is `null`. */
  function MatchesAsWritten(v: Vehicle, term: string): (r: Option<bool>)
    ensures r.None? <==> !Contains(Lower(v.placa), Lower(term)) && v.modelo.None?
    ensures r.Some? ==> r.value == (Contains(Lower(v.placa), Lower(term))
                                   || Contains(Lower(v.modelo.value), Lower(term)))
  {
    if Contains(Lower(v.placa), Lower(term)) then Some(true)
    else if v.modelo.None? then None
    else Some(Contains(Lower(v.modelo.value), Lower(term)))
  }

  /** A vehicle with no model breaks the search for any term its plate
      does not contain. */
  lemma NullModelBreaksSearch()
    ensures MatchesAsWritten(Vehicle(1, "ABC1234", None, None, false), "x").None?
  {
    var plate := Lower("ABC1234");
    assert forall i :: 0 <= i < |plate| ==> plate[i] != 'x';
    assert Lower("x")[0] == 'x';
    AbsentCharNotContained(plate, Lower("x"), 0);
  }

  /** The search with a missing model read as "", as the edit dialog reads
      it: plate or model, both ignoring case. */
  predicate VehicleMatches(v: Vehicle, term: string)
    ensures term == "" ==> VehicleMatches(v, term)
    ensures VehicleMatches(v, term) ==> |term| <= |v.placa| || |term| <= |OrEmpty(v.modelo)|
  {
    ContainsEmpty(Lower(v.placa));
    Contains(Lower(v.placa), Lower(term)) || Contains(Lower(OrEmpty(v.modelo)), Lower(term))
  }

  /** Wherever the search as written gives an answer, the corrected search
      gives the same one; it only differs where the original throws. */
  lemma CorrectedSearchAgrees(v: Vehicle, term: string)
    ensures MatchesAsWritten(v, term).Some? ==> MatchesAsWritten(v, term).value == VehicleMatches(v, term)
    ensures v.modelo.Some? ==> MatchesAsWritten(v, term) == Some(VehicleMatches(v, term))
  {
  }

  /** `filteredVeiculos` (corrected): exactly the matching vehicles, in order. */
  function FilteredVehicles(veiculos: seq<Vehicle>, term: string): (r: seq<Vehicle>)
    ensures forall i :: 0 <= i < |r| ==> r[i] in veiculos && VehicleMatches(r[i], term)
    ensures forall i :: 0 <= i < |veiculos| && VehicleMatches(veiculos[i], term) ==> veiculos[i] in r
    ensures Lists.IsSubsequence(r, veiculos)
    ensures forall v :: multiset(r)[v] == if VehicleMatches(v, term) then multiset(veiculos)[v] else 0
  {
    Lists.Filter(veiculos, (v: Vehicle) => VehicleMatches(v, term))
  }

  /** The search ignores the case of the term, in plate and model alike. */
  lemma SearchIgnoresCase(v: Vehicle, term: string)
    ensures VehicleMatches(v, Upper(term)) == VehicleMatches(v, term)
  {
    LowerOfUpper(term);
  }

  /** `handleOpenModal`: the edit draft turns a missing model or colour into
      ""; a new draft is empty and not part of the fleet. */
  function DraftFor(editing: Option<Vehicle>): (f: VehicleForm)
    ensures editing.None? ==> f == EmptyVehicle && !f.frotaPropria
    ensures editing.Some? ==>
      && f.placa == editing.value.placa
      && f.modelo == OrEmpty(editing.value.modelo)
      && f.cor == OrEmpty(editing.value.cor)
      && f.frotaPropria == editing.value.frotaPropria
  {
    if editing.None? then EmptyVehicle
    else
      var v := editing.value;
      VehicleForm(v.placa, OrEmpty(v.modelo), OrEmpty(v.cor), v.frotaPropria)
  }

  const MissingFields := "Placa e Modelo são obrigatórios."

  /** `handleSave`: rejected without a request when plate or model is
      empty; otherwise the form goes to the edited vehicle or to the
      collection. */
  function SaveEffect(editing: Option<Vehicle>, f: VehicleForm): (e: Effect<VehicleForm>)
    ensures e.Request? <==> f.placa != "" && f.modelo != ""
    ensures !e.Request? ==> e == Rejected(MissingFields)
    ensures e.Request? ==> e.body == f
    ensures e.Request? && editing.Some? ==> e.verb == Put && e.endpoint == WithId(Resource, editing.value.id)
    ensures e.Request? && editing.None? ==> e.verb == Post && e.endpoint == Resource
  {
    if f.placa == "" || f.modelo == "" then Rejected(MissingFields)
    else Crud.Upsert(Resource, Crud.IdOf(editing, (v: Vehicle) => v.id), f)
  }

  /** A listed vehicle with no model cannot be saved back unchanged: the
      dialog shows the model as "" and the save is rejected. */
  lemma NullModelBlocksResave(v: Vehicle)
    requires v.modelo.None?
    ensures SaveEffect(Some(v), DraftFor(Some(v))) == Rejected(MissingFields)
  {
  }

  /** A listed vehicle with plate and model is written back in place. */
  lemma EditThenSaveWritesBack(v: Vehicle)
    requires v.placa != "" && v.modelo.Some? && v.modelo.value != ""
    ensures SaveEffect(Some(v), DraftFor(Some(v))) ==
      Request(Put, WithId(Resource, v.id), VehicleForm(v.placa, v.modelo.value, OrEmpty(v.cor), v.frotaPropria))
  {
  }

  const DeleteFailure := "Erro ao excluir veículo. Ele pode ter histórico de acessos."

  class VehiclesPage {
    var searchTerm: string
    var showModal: bool
    var editingVeiculo: Option<Vehicle>
    var formData: VehicleForm

    /** A closed dialog never leaves a vehicle marked as being edited. */
    ghost predicate Valid()
      reads this
    {
      !showModal ==> editingVeiculo.None?
    }

    constructor ()
      ensures Valid()
      ensures searchTerm == "" && !showModal && editingVeiculo == None && formData == EmptyVehicle
    {
      searchTerm := "";
      showModal := false;
      editingVeiculo := None;
      formData := EmptyVehicle;
    }

    /** The vehicles the table shows. */
    function Visible(veiculos: seq<Vehicle>): (r: seq<Vehicle>)
      reads this
      ensures forall i :: 0 <= i < |r| ==> r[i] in veiculos && VehicleMatches(r[i], searchTerm)
      ensures forall i :: 0 <= i < |veiculos| && VehicleMatches(veiculos[i], searchTerm) ==> veiculos[i] in r
      ensures forall v :: multiset(r)[v] == if VehicleMatches(v, searchTerm) then multiset(veiculos)[v] else 0
    {
      FilteredVehicles(veiculos, searchTerm)
    }

    method Search(term: string)
      requires Valid()
      modifies this`searchTerm
      ensures Valid() && searchTerm == term
    {
      searchTerm := term;
    }

    /** `handleOpenModal`, for a listed vehicle or for a new one. */
    method OpenModal(editing: Option<Vehicle>)
      requires Valid()
      modifies this`editingVeiculo, this`formData, this`showModal
      ensures Valid()
      ensures editingVeiculo == editing && formData == DraftFor(editing) && showModal
    {
      editingVeiculo := editing;
      formData := DraftFor(editing);
      showModal := true;
    }

    /** The plate input stores what is typed, upper-cased; nothing else in
        the form changes. */
    method TypePlate(text: string)
      requires Valid()
      modifies this`formData
      ensures Valid()
      ensures formData == old(formData).(placa := Upper(text))
      ensures IsUpper(formData.placa)
    {
      UpperIsUpper(text);
      formData := formData.(placa := Upper(text));
    }

    /** `handleCloseModal`. */
    method CloseModal()
      modifies this`showModal, this`editingVeiculo
      ensures Valid()
      ensures !showModal && editingVeiculo == None
    {
      showModal := false;
      editingVeiculo := None;
    }

    /** `handleSave`. */
    method Save(reply: Reply) returns (e: Effect<VehicleForm>, alert: string)
      requires Valid()
      modifies this`showModal, this`editingVeiculo
      ensures Valid()
      ensures e == SaveEffect(old(editingVeiculo), formData)
      ensures e.Rejected? ==> alert == e.message && unchanged(this)
      ensures e.Request? && reply.Success? ==>
        && alert == (if old(editingVeiculo).Some? then "Veículo atualizado!" else "Veículo cadastrado!")
        && !showModal && editingVeiculo == None
      ensures e.Request? && reply.Failure? ==>
        alert == ErrorText(reply.serverError, "Erro ao salvar.") && unchanged(this)
    {
      e := SaveEffect(editingVeiculo, formData);
      if e.Rejected? {
        alert := e.message;
        return;
      }
      if reply.Success? {
        alert := if editingVeiculo.Some? then "Veículo atualizado!" else "Veículo cadastrado!";
        CloseModal();
      } else {
        alert := ErrorText(reply.serverError, "Erro ao salvar.");
      }
    }
  }

  /** `handleDelete`: a request only after confirmation; a failure always
      blames the vehicle's access history. */
  method DeleteVehicle(id: Id, confirmed: bool, reply: Reply) returns (e: Effect<()>, alert: Option<string>)
    ensures e == Crud.ConfirmedDelete(Resource, id, confirmed)
    ensures alert.Some? <==> confirmed && reply.Failure?
    ensures alert.Some? ==> alert.value == DeleteFailure
  {
    e := Crud.ConfirmedDelete(Resource, id, confirmed);
    alert := if confirmed && reply.Failure? then Some(DeleteFailure) else None;
  }
}
