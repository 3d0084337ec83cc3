/** The two decisions every registry page repeats: create or update, and
    delete only after confirmation. */
module Crud {
  import opened Domain
  import opened Http

  /** `editing ? api.put(`${resource}/${id}`, body) : api.post(resource, body)`. */
  function Upsert<B>(resource: string, editing: Option<Id>, body: B): (e: Effect<B>)
    ensures e.Request? && e.body == body
    ensures editing.Some? ==> e.verb == Put && e.endpoint == WithId(resource, editing.value)
    ensures editing.None? ==> e.verb == Post && e.endpoint == resource
  {
    if editing.Some? then Request(Put, WithId(resource, editing.value), body)
    else Request(Post, resource, body)
  }

  /** `if (window.confirm(...)) api.delete(`${resource}/${id}`)`: the answer
      to the confirmation dialog is an input. */
  function ConfirmedDelete(resource: string, id: Id, confirmed: bool): (e: Effect<()>)
    ensures e.Request? <==> confirmed
    ensures confirmed ==> e == Request(Delete, WithId(resource, id), ())
    ensures !confirmed ==> e == NoOp
  {
    if confirmed then Request(Delete, WithId(resource, id), ()) else NoOp
  }

  /** The identifier of the record being edited, if any. */
  function IdOf<T>(editing: Option<T>, id: T -> Id): Option<Id>
  {
    if editing.Some? then Some(id(editing.value)) else None
  }
}
