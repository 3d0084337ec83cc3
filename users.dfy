/** The system users page (administrators only): a dialog that creates or
    edits a login. A password is demanded for a new user only; an edit
    always sends the form, with the password field as it stands. */
module Users {
  import opened Domain
  import opened Http
  import Crud

  const Resource := "/usuarios"

  /** A user as listed by `GET /usuarios`. */
  datatype Account = Account(id: Id, nome: string, email: string, tipoDeUsuario: string, ativo: bool)

  /** The dialog's fields. */
  datatype UserForm = UserForm(nome: string, email: string, senha: string, tipoDeUsuario: string, ativo: bool)

  /** The new-user draft: an active operator with empty texts. */
  const NewUser := UserForm("", "", "", "operador", true)

  const MissingPassword := "Senha é obrigatória para novos usuários."

  /** `handleOpenModal`: an edit copies the account and blanks the password;
      a new draft is `NewUser`. */
  function DraftFor(editing: Option<Account>): (f: UserForm)
    ensures editing.None? ==> f == NewUser && f.tipoDeUsuario == "operador" && f.ativo
    ensures editing.Some? ==>
      && f.nome == editing.value.nome && f.email == editing.value.email
      && f.tipoDeUsuario == editing.value.tipoDeUsuario && f.ativo == editing.value.ativo
    ensures f.senha == ""
  {
    if editing.None? then NewUser
    else
      var a := editing.value;
      UserForm(a.nome, a.email, "", a.tipoDeUsuario, a.ativo)
  }

  /** `handleSave`: an edit is always sent with `PUT`; a creation is sent
      with `POST` only when a password was typed. */
  function SaveEffect(editingId: Option<Id>, f: UserForm): (e: Effect<UserForm>)
    ensures e.Request? <==> editingId.Some? || f.senha != ""
    ensures !e.Request? ==> e == Rejected(MissingPassword)
    ensures e.Request? ==> e.body == f
    ensures editingId.Some? ==> e.verb == Put && e.endpoint == WithId(Resource, editingId.value)
    ensures editingId.None? && e.Request? ==> e.verb == Post && e.endpoint == Resource
  {
    if editingId.Some? then Crud.Upsert(Resource, editingId, f)
    else if f.senha == "" then Rejected(MissingPassword)
    else Crud.Upsert(Resource, editingId, f)
  }

  /** Opening a user and saving at once sends an empty password: the page
      relies on the backend to keep the stored one. */
  lemma EditSendsEmptyPassword(a: Account)
    ensures SaveEffect(Some(a.id), DraftFor(Some(a))).Request?
    ensures SaveEffect(Some(a.id), DraftFor(Some(a))).body.senha == ""
  {
  }

  /** A new user's dialog saved untouched is refused before any request. */
  lemma UntouchedNewUserIsRejected()
    ensures SaveEffect(None, DraftFor(None)) == Rejected(MissingPassword)
  {
  }

  class UsersPage {
    var showModal: bool
    var editingId: Option<Id>
    var formData: UserForm

    /** A closed dialog never leaves a user marked as being edited. */
    ghost predicate Valid()
      reads this
    {
      !showModal ==> editingId.None?
    }

    constructor ()
      ensures Valid()
      ensures !showModal && editingId == None && formData == NewUser
    {
      showModal := false;
      editingId := None;
      formData := NewUser;
    }

    /** `handleOpenModal`, for a listed user or for a new one. */
    method OpenModal(editing: Option<Account>)
      requires Valid()
      modifies this`editingId, this`formData, this`showModal
      ensures Valid()
      ensures editingId == Crud.IdOf(editing, (a: Account) => a.id)
      ensures formData == DraftFor(editing) && showModal
    {
      editingId := Crud.IdOf(editing, (a: Account) => a.id);
      formData := DraftFor(editing);
      showModal := true;
    }

    /** `handleCloseModal`. */
    method CloseModal()
      modifies this`showModal, this`editingId
      ensures Valid()
      ensures !showModal && editingId == None
    {
      showModal := false;
      editingId := None;
    }

    /** `handleSave`. */
    method Save(reply: Reply) returns (e: Effect<UserForm>, alert: string)
      requires Valid()
      modifies this`showModal, this`editingId
      ensures Valid()
      ensures e == SaveEffect(old(editingId), formData)
      ensures e.Rejected? ==> alert == e.message && unchanged(this)
      ensures e.Request? && reply.Success? ==>
        && alert == (if old(editingId).Some? then "Usuário atualizado!" else "Usuário criado!")
        && !showModal && editingId == None
      ensures e.Request? && reply.Failure? ==>
        alert == ErrorText(reply.serverError, "Erro ao salvar usuário.") && unchanged(this)
    {
      e := SaveEffect(editingId, formData);
      if e.Rejected? {
        alert := e.message;
        return;
      }
      if reply.Success? {
        alert := if editingId.Some? then "Usuário atualizado!" else "Usuário criado!";
        CloseModal();
      } else {
        alert := ErrorText(reply.serverError, "Erro ao salvar usuário.");
      }
    }
  }

  /** `handleDelete`: a request only after confirmation; a failure shows a
      fixed message. */
  method DeleteUser(id: Id, confirmed: bool, reply: Reply) returns (e: Effect<()>, alert: Option<string>)
    ensures e == Crud.ConfirmedDelete(Resource, id, confirmed)
    ensures alert.Some? <==> confirmed && reply.Failure?
    ensures alert.Some? ==> alert.value == "Erro ao excluir usuário."
  {
    e := Crud.ConfirmedDelete(Resource, id, confirmed);
    alert := if confirmed && reply.Failure? then Some("Erro ao excluir usuário.") else None;
  }
}
