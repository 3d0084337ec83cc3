/** The control posts page: the shared single-name registry under `/postos`. */
module Posts {
  import opened Domain
  import opened Http
  import NameRegistry

  const PostTexts := NameRegistry.Texts(
    "/postos",
    "Posto atualizado!",
    "Posto criado!",
    "Erro ao salvar posto.",
    "Não é possível excluir postos com movimentações.")

  /** Saving a post: an empty name is refused; otherwise `{ nome }` goes to
      `/postos/{id}` when renaming and to `/postos` when creating. */
  function SavePost(editing: Option<Named>, nome: string): (e: Effect<NameRegistry.NameBody>)
    ensures e.Request? <==> nome != ""
    ensures e.Request? ==> e.body == NameRegistry.NameBody(nome)
    ensures e.Request? && editing.Some? ==> e.verb == Put && e.endpoint == WithId("/postos", editing.value.id)
    ensures e.Request? && editing.None? ==> e.verb == Post && e.endpoint == "/postos"
  {
    NameRegistry.SaveEffect(PostTexts, editing, nome)
  }

  /** The posts page, as first rendered. */
  method NewPostsPage() returns (page: NameRegistry.NamePage)
    ensures fresh(page) && page.texts == PostTexts
    ensures !page.showModal && page.editing == None && page.nome == ""
  {
    page := new NameRegistry.NamePage(PostTexts);
  }

  /** Deleting a post: a request to `/postos/{id}` only after
      confirmation; a failure shows the page's fixed explanation. */
  method DeletePost(page: NameRegistry.NamePage, id: Id, confirmed: bool, reply: Reply)
    returns (e: Effect<()>, alert: Option<string>)
    requires page.texts == PostTexts
    ensures e.Request? <==> confirmed
    ensures confirmed ==> e == Request(Delete, WithId("/postos", id), ())
    ensures alert.Some? <==> confirmed && reply.Failure?
    ensures alert.Some? ==> alert.value == "Não é possível excluir postos com movimentações."
  {
    e, alert := page.DeleteEntry(id, confirmed, reply);
  }
}
