/** The registry page shape shared by sectors and control posts: a single
    required name, created or renamed through a dialog, and confirmed
    deletion. The two pages differ only in their path and messages. */
module NameRegistry {
  import opened Domain
  import opened Http
  import Crud

  /** A page's path and the messages it shows. */
  datatype Texts = Texts(
    resource: string,
    updated: string,
    created: string,
    saveFailure: string,
    deleteFailure: string)

  const MissingName := "Nome é obrigatório"

  /** The body `{ nome }`. */
  datatype NameBody = NameBody(nome: string)

  /** `handleOpenModal`: the edited entry's name, or "" for a new one. */
  function DraftFor(editing: Option<Named>): (nome: string)
    ensures editing.Some? ==> nome == editing.value.nome
    ensures editing.None? ==> nome == ""
  {
    if editing.Some? then editing.value.nome else ""
  }

  /** `handleSave`: an empty name is refused without a request; otherwise
      `{ nome }` renames the edited entry or creates a new one. */
  function SaveEffect(t: Texts, editing: Option<Named>, nome: string): (e: Effect<NameBody>)
    ensures e.Request? <==> nome != ""
    ensures !e.Request? ==> e == Rejected(MissingName)
    ensures e.Request? ==> e.body == NameBody(nome)
    ensures e.Request? && editing.Some? ==> e.verb == Put && e.endpoint == WithId(t.resource, editing.value.id)
    ensures e.Request? && editing.None? ==> e.verb == Post && e.endpoint == t.resource
  {
    if nome == "" then Rejected(MissingName)
    else Crud.Upsert(t.resource, Crud.IdOf(editing, (n: Named) => n.id), NameBody(nome))
  }

  /** Opening an entry and saving at once writes its name back in place. */
  lemma EditThenSaveWritesBack(t: Texts, n: Named)
    requires n.nome != ""
    ensures SaveEffect(t, Some(n), DraftFor(Some(n))) == Request(Put, WithId(t.resource, n.id), NameBody(n.nome))
  {
  }

  /** A new entry's dialog saved untouched is refused. */
  lemma UntouchedNewEntryIsRejected(t: Texts)
    ensures SaveEffect(t, None, DraftFor(None)) == Rejected(MissingName)
  {
  }

  class NamePage {
    const texts: Texts
    var showModal: bool
    var editing: Option<Named>
    var nome: string

    constructor (texts: Texts)
      ensures this.texts == texts && !showModal && editing == None && nome == ""
    {
      this.texts := texts;
      showModal := false;
      editing := None;
      nome := "";
    }

    /** `handleOpenModal`, for a listed entry or for a new one. */
    method OpenModal(entry: Option<Named>)
      modifies this`editing, this`nome, this`showModal
      ensures editing == entry && nome == DraftFor(entry) && showModal
    {
      editing := entry;
      nome := DraftFor(entry);
      showModal := true;
    }

    /** The dialog's close and cancel buttons only hide it; the next
        `OpenModal` replaces the entry being edited. */
    method CloseModal()
      modifies this`showModal
      ensures !showModal
    {
      showModal := false;
    }

    /** `handleSave`: the dialog closes only after a successful request; a
        failure shows the page's fixed message. */
    method Save(reply: Reply) returns (e: Effect<NameBody>, alert: string)
      modifies this`showModal
      ensures e == SaveEffect(texts, editing, nome)
      ensures e.Rejected? ==> alert == e.message && showModal == old(showModal)
      ensures e.Request? && reply.Success? ==>
        alert == (if editing.Some? then texts.updated else texts.created) && !showModal
      ensures e.Request? && reply.Failure? ==> alert == texts.saveFailure && showModal == old(showModal)
    {
      e := SaveEffect(texts, editing, nome);
      if e.Rejected? {
        alert := e.message;
        return;
      }
      if reply.Success? {
        alert := if editing.Some? then texts.updated else texts.created;
        showModal := false;
      } else {
        alert := texts.saveFailure;
      }
    }

    /** `handleDelete`: a request only after confirmation; a failure shows
        the page's fixed message. */
    method DeleteEntry(id: Id, confirmed: bool, reply: Reply) returns (e: Effect<()>, alert: Option<string>)
      ensures e == Crud.ConfirmedDelete(texts.resource, id, confirmed)
      ensures alert.Some? <==> confirmed && reply.Failure?
      ensures alert.Some? ==> alert.value == texts.deleteFailure
    {
      e := Crud.ConfirmedDelete(texts.resource, id, confirmed);
      alert := if confirmed && reply.Failure? then Some(texts.deleteFailure) else None;
    }
  }
}
