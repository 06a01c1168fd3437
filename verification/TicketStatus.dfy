/** The states of a ticket, shared by every table that speaks of one. */
module TicketStatus {
  datatype Status = Accepted | Planned | Running | Waiting | Completed | Failed | Cancelled

  predicate Terminal(s: Status) {
    s in {Completed, Failed, Cancelled}
  }
}
