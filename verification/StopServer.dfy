/** The register behind a stop control: one tenant flag, changed only by this
    operator, read back after every change. A request may be applied or not, its
    read-back may fail, and its reply may be lost; a lost one has landed or
    failed by the time the loss is noticed. */
module StopServer {
  import opened Lists

  datatype Ask = Set(next: bool) | Observe(requested: bool)

  /** `tenant` is the read-back, absent when it could not be read; `durable` is
      present only after a change. */
  datatype Reply = Reply(requested: bool, tenant: Option<bool>, confirmed: bool, durable: Option<bool>)

  function Requested(ask: Ask): bool {
    match ask case Set(next) => next case Observe(requested) => requested
  }

  function Applied(armed: bool, ask: Ask, applies: bool): bool {
    if ask.Set? && applies then ask.next else armed
  }

  function ReadBack(armed: bool, ask: Ask, readable: bool, durable: Option<bool>): Reply {
    var tenant := if readable then Some(armed) else None;
    Reply(Requested(ask), tenant, tenant == Some(Requested(ask)), if ask.Set? then durable else None)
  }

  predicate Truthful(reply: Reply, armed: bool) {
    && (reply.tenant.Some? ==> reply.tenant.value == armed)
    && (reply.confirmed <==> reply.tenant == Some(reply.requested))
  }
}
