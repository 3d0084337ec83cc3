/** The people registry: a searchable list, a dialog that creates or edits
    a person, confirmed deletion, and the coloured badge of a person type. */
module People {
  import opened Domain
  import opened Http
  import opened Text
  import Lists
  import Crud

  const Resource := "/pessoas"

  /** The dialog's fields. The type select is `None` on "Selecione...". */
  datatype PersonForm = PersonForm(nome: string, documento: string, telefone: string, tipoPessoaId: Option<Id>)

  const EmptyPerson := PersonForm("", "", "", None)

  /** The search: the name ignores case, the document is matched as typed. */
  predicate PersonMatches(p: Person, term: string)
    ensures term == "" ==> PersonMatches(p, term)
    ensures Contains(p.documento, term) ==> PersonMatches(p, term)
    ensures PersonMatches(p, term) ==> |term| <= |p.nome| || |term| <= |p.documento|
  {
    ContainsEmpty(Lower(p.nome));
    Contains(Lower(p.nome), Lower(term)) || Contains(p.documento, term)
  }

  /** `filteredPessoas`: exactly the matching people, in list order. */
  function FilteredPeople(pessoas: seq<Person>, term: string): (r: seq<Person>)
    ensures forall i :: 0 <= i < |r| ==> r[i] in pessoas && PersonMatches(r[i], term)
    ensures forall i :: 0 <= i < |pessoas| && PersonMatches(pessoas[i], term) ==> pessoas[i] in r
    ensures Lists.IsSubsequence(r, pessoas)
    ensures forall p :: multiset(r)[p] == if PersonMatches(p, term) then multiset(pessoas)[p] else 0
  {
    Lists.Filter(pessoas, (p: Person) => PersonMatches(p, term))
  }

  /** An empty search lists everyone. */
  lemma EmptySearchListsEveryone(pessoas: seq<Person>)
    ensures FilteredPeople(pessoas, "") == pessoas
  {
    forall i | 0 <= i < |pessoas| ensures PersonMatches(pessoas[i], "") {
      ContainsEmpty(Lower(pessoas[i].nome));
    }
    Lists.FilterKeepsAll(pessoas, (p: Person) => PersonMatches(p, ""));
  }

  /** Typing the term in capitals finds the same names. */
  lemma NameSearchIgnoresCase(p: Person, term: string)
    ensures Contains(Lower(p.nome), Lower(Upper(term))) == Contains(Lower(p.nome), Lower(term))
  {
    LowerOfUpper(term);
  }

  /** The document search is case-sensitive: a document "AB1" is not found
      by "ab" (unless the name matches). */
  lemma DocumentSearchIsCaseSensitive()
    ensures !PersonMatches(Person(1, "Rui", "AB1", None, 1, None), "ab")
  {
    var name := Lower("Rui");
    assert name[0] == 'r' && name[1] == 'u' && name[2] == 'i';
    assert Lower("ab")[0] == 'a';
    AbsentCharNotContained(name, Lower("ab"), 0);
    AbsentCharNotContained("AB1", "ab", 0);
  }

  /** `handleOpenModal`: the edit draft copies the person with a missing
      phone as ""; a new draft is all empty. */
  function DraftFor(editing: Option<Person>): (f: PersonForm)
    ensures editing.None? ==> f == EmptyPerson
    ensures editing.Some? ==>
      && f.nome == editing.value.nome && f.documento == editing.value.documento
      && f.telefone == OrEmpty(editing.value.telefone)
      && f.tipoPessoaId == Some(editing.value.tipoPessoaId)
  {
    if editing.None? then EmptyPerson
    else
      var p := editing.value;
      PersonForm(p.nome, p.documento, OrEmpty(p.telefone), Some(p.tipoPessoaId))
  }

  const MissingFields := "Preencha os campos obrigatórios."

  /** `handleSave`: rejected without a request when name, document or type
      is empty; otherwise the form is sent, to the edited person with `PUT`
      or as a new person with `POST`. */
  function SaveEffect(editing: Option<Person>, f: PersonForm): (e: Effect<PersonForm>)
    ensures e.Request? <==> f.nome != "" && f.documento != "" && f.tipoPessoaId.Some?
    ensures !e.Request? ==> e == Rejected(MissingFields)
    ensures e.Request? ==> e.body == f
    ensures e.Request? && editing.Some? ==> e.verb == Put && e.endpoint == WithId(Resource, editing.value.id)
    ensures e.Request? && editing.None? ==> e.verb == Post && e.endpoint == Resource
  {
    if f.nome == "" || f.documento == "" || f.tipoPessoaId.None? then Rejected(MissingFields)
    else Crud.Upsert(Resource, Crud.IdOf(editing, (p: Person) => p.id), f)
  }

  /** Opening a listed person and saving at once writes that person back
      under its own identifier, with the phone normalised to "". */
  lemma EditThenSaveWritesBack(p: Person)
    requires p.nome != "" && p.documento != ""
    ensures SaveEffect(Some(p), DraftFor(Some(p))) ==
      Request(Put, WithId(Resource, p.id), PersonForm(p.nome, p.documento, OrEmpty(p.telefone), Some(p.tipoPessoaId)))
  {
  }

  /** Saving a fresh dialog without typing anything never reaches the backend. */
  lemma UntouchedNewDraftIsRejected()
    ensures SaveEffect(None, DraftFor(None)) == Rejected(MissingFields)
  {
  }

  /** The badge style of a person type. */
  datatype Badge = Blue | Green | Amber | Gray

  function BadgeClass(b: Badge): (c: string)
    ensures c == "bg-blue-100 text-blue-700 border-blue-200" <==> b == Blue
    ensures c == "bg-green-100 text-green-700 border-green-200" <==> b == Green
    ensures c == "bg-amber-100 text-amber-700 border-amber-200" <==> b == Amber
    ensures c == "bg-gray-100 text-gray-700 border-gray-200" <==> b == Gray
  {
    match b
    case Blue => "bg-blue-100 text-blue-700 border-blue-200"
    case Green => "bg-green-100 text-green-700 border-green-200"
    case Amber => "bg-amber-100 text-amber-700 border-amber-200"
    case Gray => "bg-gray-100 text-gray-700 border-gray-200"
  }

  /** `getTypeColor`: the three known types, whatever their case, get their
      own style; a missing or unknown type gets the grey one. */
  function TypeColor(tipo: Option<string>): (b: Badge)
    ensures b == Blue <==> tipo.Some? && Lower(tipo.value) == "colaborador"
    ensures b == Green <==> tipo.Some? && Lower(tipo.value) == "visitante"
    ensures b == Amber <==> tipo.Some? && Lower(tipo.value) == "terceiro"
  {
    if tipo.None? then Gray
    else
      var t := Lower(tipo.value);
      if t == "colaborador" then Blue
      else if t == "visitante" then Green
      else if t == "terceiro" then Amber
      else Gray
  }

  /** The badge does not depend on how the type name is capitalised. */
  lemma TypeColorIgnoresCase(tipo: string)
    ensures TypeColor(Some(Upper(tipo))) == TypeColor(Some(tipo))
    ensures TypeColor(Some(Lower(tipo))) == TypeColor(Some(tipo))
  {
    LowerOfUpper(tipo);
    LowerIdempotent(tipo);
  }

  class PeoplePage {
    var searchTerm: string
    var showModal: bool
    var editingPessoa: Option<Person>
    var formData: PersonForm

    /** A closed dialog never leaves a person marked as being edited. */
    ghost predicate Valid()
      reads this
    {
      !showModal ==> editingPessoa.None?
    }

    constructor ()
      ensures Valid()
      ensures searchTerm == "" && !showModal && editingPessoa == None && formData == EmptyPerson
    {
      searchTerm := "";
      showModal := false;
      editingPessoa := None;
      formData := EmptyPerson;
    }

    /** The people the table shows. */
    function Visible(pessoas: seq<Person>): (r: seq<Person>)
      reads this
      ensures forall i :: 0 <= i < |r| ==> r[i] in pessoas && PersonMatches(r[i], searchTerm)
      ensures forall i :: 0 <= i < |pessoas| && PersonMatches(pessoas[i], searchTerm) ==> pessoas[i] in r
      ensures forall p :: multiset(r)[p] == if PersonMatches(p, searchTerm) then multiset(pessoas)[p] else 0
    {
      FilteredPeople(pessoas, searchTerm)
    }

    method Search(term: string)
      requires Valid()
      modifies this`searchTerm
      ensures Valid() && searchTerm == term
    {
      searchTerm := term;
    }

    /** `handleOpenModal`, for a listed person or for a new one. */
    method OpenModal(editing: Option<Person>)
      requires Valid()
      modifies this`editingPessoa, this`formData, this`showModal
      ensures Valid()
      ensures editingPessoa == editing && formData == DraftFor(editing) && showModal
    {
      editingPessoa := editing;
      formData := DraftFor(editing);
      showModal := true;
    }

    /** `handleCloseModal`. */
    method CloseModal()
      modifies this`showModal, this`editingPessoa
      ensures Valid()
      ensures !showModal && editingPessoa == None
    {
      showModal := false;
      editingPessoa := None;
    }

    /** `handleSave`: the dialog closes after a successful request and stays
        open, showing the server's message or a fixed one, after a failure. */
    method Save(reply: Reply) returns (e: Effect<PersonForm>, alert: string)
      requires Valid()
      modifies this`showModal, this`editingPessoa
      ensures Valid()
      ensures e == SaveEffect(old(editingPessoa), formData)
      ensures e.Rejected? ==> alert == e.message && unchanged(this)
      ensures e.Request? && reply.Success? ==>
        && alert == (if old(editingPessoa).Some? then "Pessoa atualizada com sucesso!" else "Pessoa cadastrada com sucesso!")
        && !showModal && editingPessoa == None
      ensures e.Request? && reply.Failure? ==>
        alert == ErrorText(reply.serverError, "Erro ao salvar dados.") && unchanged(this)
    {
      e := SaveEffect(editingPessoa, formData);
      if e.Rejected? {
        alert := e.message;
        return;
      }
      if reply.Success? {
        alert := if editingPessoa.Some? then "Pessoa atualizada com sucesso!" else "Pessoa cadastrada com sucesso!";
        CloseModal();
      } else {
        alert := ErrorText(reply.serverError, "Erro ao salvar dados.");
      }
    }
  }

  /** `handleDelete`: a request only after confirmation; only a failure
      raises an alert. */
  method DeletePerson(id: Id, confirmed: bool, reply: Reply) returns (e: Effect<()>, alert: Option<string>)
    ensures e == Crud.ConfirmedDelete(Resource, id, confirmed)
    ensures alert.Some? <==> confirmed && reply.Failure?
    ensures alert.Some? ==> alert.value == ErrorText(reply.serverError, "Erro ao excluir.")
  {
    e := Crud.ConfirmedDelete(Resource, id, confirmed);
    if confirmed && reply.Failure? {
      alert := Some(ErrorText(reply.serverError, "Erro ao excluir."));
    } else {
      alert := None;
    }
  }
}
