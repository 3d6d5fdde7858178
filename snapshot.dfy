/**
 * `get_current_queue` (app.py): the snapshot of the store's queue is reduced
 * to its largest active ticket, with -1 when the store serves nobody.
 *
 * Tickets are natural numbers: every entry of the feed is cut before its
 * first dash, so the integer read from it has no sign.
 */
module Snapshot {

  /** `max(tickets, default=-1)` */
  function MaxTicket(tickets: seq<nat>): (r: int)
    ensures tickets == [] ==> r == -1
    ensures tickets != [] ==> r in tickets
    ensures forall i :: 0 <= i < |tickets| ==> tickets[i] <= r
  {
    if tickets == [] then -1
    else
      var rest := MaxTicket(tickets[1..]);
      if tickets[0] >= rest then tickets[0] else rest
  }

  /** The largest active ticket (or -1) together with the unchanged list. */
  function CurrentQueue(tickets: seq<nat>): (r: (int, seq<nat>))
    ensures r.1 == tickets
    ensures r.0 == -1 <==> tickets == []
    ensures tickets != [] ==> r.0 in tickets && forall i :: 0 <= i < |tickets| ==> tickets[i] <= r.0
  {
    (MaxTicket(tickets), tickets)
  }
}
