/** The events of a lobby stream, as the server writes them and the client reads them. */
module Events {
  datatype EndReason = Left | Closed | Expired
  datatype Event = SyncRequired(revision: int) | LobbyChanged(revision: int) | MembershipEnded(reason: EndReason) | AuthExpired

  predicate Terminal(e: Event) {
    e.MembershipEnded? || e.AuthExpired?
  }
}
