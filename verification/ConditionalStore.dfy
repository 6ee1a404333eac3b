/** How the store answers a compare-and-swap. */
module ConditionalStore {

  /** Truthfully, refusing it without contention, or carrying it out and reporting a refusal. */
  datatype Reply = Truthful | Spurious | Unreported

  /** A compare-and-swap against revision `rev` takes effect. */
  predicate Applies(current: nat, rev: nat, reply: Reply) {
    current == rev && !reply.Spurious?
  }

  /** It takes effect and is reported so. */
  predicate Confirmed(current: nat, rev: nat, reply: Reply) {
    current == rev && reply.Truthful?
  }
}
