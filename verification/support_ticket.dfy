/**
 * Support tickets and their human-readable "TKT" identifiers, drawn from the same counter
 * collection as orders under a separate counter name.
 */
module SupportTicket {
  import SequenceIds

  const TicketCounter: string := "ticketId"
  const TicketPrefix: string := "TKT"

  /** A ticket document; "" stands for an unset ticketId. */
  class Ticket {
    var ticketId: string
    var isNew: bool
    var resolved: bool
    const issue: string

    /** `new SupportTicket({...})`, optionally with a preset ticketId; resolved defaults to false. */
    constructor (issue: string, ticketId: string)
      ensures this.issue == issue && this.ticketId == ticketId
      ensures isNew && !resolved
    {
      this.issue := issue;
      this.ticketId := ticketId;
      isNew := true;
      resolved := false;
    }

    /**
     * `save()` with its pre-save hook: a new ticket without an id draws the next "ticketId"
     * value and becomes "TKT" + that value padded to five digits; a preset id or a saved
     * ticket keeps its id and draws nothing. The order counter is never touched.
     */
    method Save(counters: SequenceIds.Counters)
      modifies this`ticketId, this`isNew, counters
      ensures old(isNew) && old(ticketId) == "" ==>
        && counters.values == old(counters.values)[TicketCounter := old(counters.Current(TicketCounter)) + 1]
        && ticketId == SequenceIds.SequenceId(TicketPrefix, old(counters.Current(TicketCounter)) + 1)
      ensures !(old(isNew) && old(ticketId) == "") ==> ticketId == old(ticketId) && counters.values == old(counters.values)
      ensures counters.Current("orderId") == old(counters.Current("orderId"))
      ensures !isNew
    {
      if isNew && ticketId == "" {
        var n := counters.Next(TicketCounter);
        ticketId := SequenceIds.SequenceId(TicketPrefix, n);
      }
      isNew := false;
    }
  }

  /** Two new tickets saved one after the other get different ids. */
  method SaveTwo(a: Ticket, b: Ticket, counters: SequenceIds.Counters)
    requires a != b && a.isNew && b.isNew && a.ticketId == "" && b.ticketId == ""
    modifies a, b, counters
    ensures a.ticketId != b.ticketId
  {
    a.Save(counters);
    b.Save(counters);
    SequenceIds.SequenceIdInjective(TicketPrefix, counters.Current(TicketCounter) - 1, counters.Current(TicketCounter));
  }
}
