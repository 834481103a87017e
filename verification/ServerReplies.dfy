/** How a request to a server can turn out. */
module ServerReplies {

  /** A request takes effect or not, and reports success or not; success is reported only for
      what took effect. */
  datatype Reply = Done | DoneButFailed | NotDone {
    predicate Ok() { Done? }

    predicate TookEffect() { !NotDone? }
  }
}
