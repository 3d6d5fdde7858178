/**
 * What the bot says to a chat. Message texts come from the localization
 * tables; here a message is its kind, its chat and the values the template
 * is filled with.
 */
module Messages {

  datatype Message =
    /** the store has closed; no more updates will follow */
    | StoreClosed(chatId: int, language: string)
    /** the user's table is almost ready, with the queue now being served */
    | FinalCall(chatId: int, language: string, queue: seq<nat>)
    /** still `tablesLeft` tables to go, with the queue now being served */
    | AlmostReady(chatId: int, language: string, queue: seq<nat>, tablesLeft: int)
    /** the reply that confirms a ticket number was recorded */
    | Entered(chatId: int, language: string, queueNumber: int)
    /** the reply to `/cancel` */
    | Goodbye(chatId: int, language: string)

  /**
   * The attributes of a localization table: the fields and the methods of the
   * `Messages` record in src/localization.py, the table app.py imports.
   */
  const TableAttributes: set<string> := {
    "language_text", "welcome", "choose_langauage", "choose_store",
    "store_chosen", "ask_queue_number", "current_queue_is", "store_closed",
    "entered_queue_pls_wait", "bad_queue_input", "almost_ready",
    "still_have_n_tables", "help_msg", "display_store_info",
    "store_chosen_ask_queue_number", "almost_ready_queue_now",
    "final_call_queue_now"
  }

  /** The table attribute app.py reads to write the text of `m`. */
  function AttributeOf(m: Message): string {
    match m
    case StoreClosed(_, _) => "this_store_closed_no_more_msgs"
    case FinalCall(_, _, _) => "final_call_queue_now"
    case AlmostReady(_, _, _, _) => "almost_ready_queue_now"
    case Entered(_, _, _) => "entered_queue_pls_wait"
    case Goodbye(_, _) => "goodbye"
  }

  /** The text of `m` can be written: reading its attribute does not raise `AttributeError`. */
  predicate Writable(m: Message) {
    AttributeOf(m) in TableAttributes
  }

  /**
   * The tables define the texts of the alerts, the final call and the ticket
   * confirmation, but neither the closed notice nor the goodbye.
   */
  lemma WritableMessages(m: Message)
    ensures Writable(m) <==> !m.StoreClosed? && !m.Goodbye?
  {
  }

  /** The chat transport: every message sent, in order. */
  class Outbox {
    var sent: seq<Message>

    constructor ()
      ensures sent == []
    {
      sent := [];
    }

    method Send(m: Message)
      modifies this
      ensures sent == old(sent) + [m]
    {
      sent := sent + [m];
    }
  }
}
