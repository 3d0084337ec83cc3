/** The sectors page: the shared single-name registry under `/setores`. */
module Sectors {
  import opened Domain
  import opened Http
  import NameRegistry

  const SectorTexts := NameRegistry.Texts(
    "/setores",
    "Setor atualizado!",
    "Setor criado!",
    "Erro ao salvar setor.",
    "Não é possível excluir setores que possuem histórico de acesso.")

  /** Saving a sector: an empty name is refused; otherwise `{ nome }` goes to
      `/setores/{id}` when renaming and to `/setores` when creating. */
  function SaveSector(editing: Option<Named>, nome: string): (e: Effect<NameRegistry.NameBody>)
    ensures e.Request? <==> nome != ""
    ensures e.Request? ==> e.body == NameRegistry.NameBody(nome)
    ensures e.Request? && editing.Some? ==> e.verb == Put && e.endpoint == WithId("/setores", editing.value.id)
    ensures e.Request? && editing.None? ==> e.verb == Post && e.endpoint == "/setores"
  {
    NameRegistry.SaveEffect(SectorTexts, editing, nome)
  }

  /** The sectors page, as first rendered. */
  method NewSectorsPage() returns (page: NameRegistry.NamePage)
    ensures fresh(page) && page.texts == SectorTexts
    ensures !page.showModal && page.editing == None && page.nome == ""
  {
    page := new NameRegistry.NamePage(SectorTexts);
  }

  /** Deleting a sector: a request to `/setores/{id}` only after
      confirmation; a failure shows the page's fixed explanation. */
  method DeleteSector(page: NameRegistry.NamePage, id: Id, confirmed: bool, reply: Reply)
    returns (e: Effect<()>, alert: Option<string>)
    requires page.texts == SectorTexts
    ensures e.Request? <==> confirmed
    ensures confirmed ==> e == Request(Delete, WithId("/setores", id), ())
    ensures alert.Some? <==> confirmed && reply.Failure?
    ensures alert.Some? ==> alert.value == "Não é possível excluir setores que possuem histórico de acesso."
  {
    e, alert := page.DeleteEntry(id, confirmed, reply);
  }
}
