/**
 * The handlers of app.py that start, stop and query a chat's monitor:
 * `handle_queue_input`, `cancel` and `show_queue_info`.
 *
 * Each takes the user's record (`context.user_data`), the bot's job queue and
 * the chat transport; the job queue keeps at most one live monitor per chat.
 */
module Handlers {
  import opened Wrappers
  import opened Dal
  import opened Snapshot
  import opened Messages
  import opened Jobs
  import opened Monitor

  /**
   * `handle_queue_input`: records the ticket number and the chat, removes
   * every monitor of the chat, starts a new one over the same record and
   * confirms. The stored alert stage is not reset.
   */
  method HandleQueueInput(username: string, queueNumber: int, chatId: int,
                          data: UserData, queue: JobQueue, bot: Outbox)
    requires queue.Valid()
    modifies data, queue, queue.jobs, bot
    ensures queue.Valid()
    ensures data.entries == old(data.entries)[QueueNumber := Number(queueNumber)][ChatId := Number(chatId)]
    ensures |queue.jobs| == |old(queue.jobs)| + 1
    ensures var job := queue.jobs[|old(queue.jobs)|];
      && queue.jobs == old(queue.jobs) + [job]
      && fresh(job) && job.name == chatId && job.data == data && !job.removed
      && LiveNamed(queue.jobs, chatId) == [job]
    ensures forall j :: j in old(queue.jobs) ==> j.removed == (old(j.removed) || j.name == chatId)
    ensures bot.sent == old(bot.sent) + [Entered(chatId, LanguageOf(old(data.entries)), queueNumber)]
  {
    SaveQueueNumber(username, queueNumber, data);
    SaveChatId(username, chatId, data);
    var lan := GetLanguage(username, data);
    // The reply goes to the transport, which the job queue does not share,
    // so sending it before the replacement leaves the outcome unchanged.
    bot.Send(Entered(chatId, lan, queueNumber));
    var job := queue.Replace(chatId, data);
    assert queue.jobs[|old(queue.jobs)|] == job;
  }

  /**
   * `cancel` as meant: says goodbye and removes every monitor of the chat.
   * The rest of the model uses this handler.
   */
  method Cancel(chatId: int, data: UserData, queue: JobQueue, bot: Outbox)
    requires queue.Valid()
    modifies queue.jobs, bot
    ensures queue.Valid()
    ensures LiveNamed(queue.jobs, chatId) == []
    ensures forall j :: j in queue.jobs ==> j.removed == (old(j.removed) || j.name == chatId)
    ensures bot.sent == old(bot.sent) + [Goodbye(chatId, LanguageOf(data.entries))]
  {
    var lan := GetLanguage("", data);
    bot.Send(Goodbye(chatId, lan));
    queue.RemoveNamed(chatId);
  }

  /**
   * `cancel` as written: the goodbye is written from the table attribute
   * `goodbye` before it is sent, and the tables define no such attribute, so
   * the handler raises `AttributeError` there. The reply and the removal loop
   * that follow are never reached, which is why this method is given neither
   * the transport nor the job queue and may change nothing.
   */
  method CancelAsWritten(chatId: int, data: UserData) returns (raised: bool)
    ensures raised
  {
    var lan := GetLanguage("", data);
    var reply := Goodbye(chatId, lan);
    WritableMessages(reply);
    raised := !Writable(reply);
  }

  /** The reply of `show_queue_info`. */
  datatype Status =
    /** no usable monitor: the help text is shown */
    | Help
    /** the store serves nobody: no reply */
    | Silent
    /** the queue now being served and the tables left before the user's ticket */
    | Progress(language: string, queue: seq<nat>, tablesLeft: int)

  /** Python truthiness of a stored value. */
  predicate Truthy(v: Value) {
    match v
    case Text(s) => s != ""
    case Number(n) => n != 0
  }

  /** A monitor record that a status query can use: a store and a non-zero ticket. */
  predicate HasQueueInfo(m: Record) {
    StoreId in m && Truthy(m[StoreId]) && QueueNumber in m && Truthy(m[QueueNumber])
  }

  /**
   * `show_queue_info`: looks up the chat's first live monitor and reports the
   * tables left before its ticket, using `tickets`, the snapshot the feed
   * gives for the monitor's store. Nothing is changed.
   */
  method ShowQueueInfo(chatId: int, data: UserData, queue: JobQueue, tickets: seq<nat>)
    returns (status: Status)
    ensures var live := LiveNamed(queue.jobs, chatId);
      status.Help? <==> live == [] || !HasQueueInfo(live[0].data.entries)
    ensures var live := LiveNamed(queue.jobs, chatId);
      status.Silent? <==> live != [] && HasQueueInfo(live[0].data.entries) && tickets == []
    ensures status.Progress? ==>
      var m := LiveNamed(queue.jobs, chatId)[0].data.entries;
      && status.language == LanguageOf(data.entries)
      && status.queue == tickets
      && tickets != []
      && status.tablesLeft == m[QueueNumber].number - MaxTicket(tickets)
      && forall i :: 0 <= i < |tickets| ==> status.tablesLeft <= m[QueueNumber].number - tickets[i]
  {
    var lan := GetLanguage("", data);
    var jobs := LiveNamed(queue.jobs, chatId);
    if jobs != [] {
      var record := jobs[0].data.entries;
      var userQueue := if QueueNumber in record then record[QueueNumber] else Number(0);
      var storeId := StoreIdOf(record);
      if storeId.None? || !Truthy(Text(storeId.value)) || !Truthy(userQueue) {
        return Help;
      }
      var (maxQueue, queueNumbers) := CurrentQueue(tickets);
      if maxQueue == -1 {
        return Silent;
      }
      return Progress(lan, queueNumbers, userQueue.number - maxQueue);
    }
    return Help;
  }

  /**
   * A new ticket keeps the stage stored by an earlier monitor of the user: if
   * that monitor had sent the last intermediate alert, the new one sends no
   * intermediate alert at all, whatever the snapshot.
   */
  lemma CarriedStageSilencesAlerts(m: Record, queueNumber: int, chatId: int, tickets: seq<nat>)
    requires StoredProgress(m) >= FinalStage - 1
    ensures StoredProgress(m[QueueNumber := Number(queueNumber)][ChatId := Number(chatId)]) == StoredProgress(m)
    ensures !TickOf(m[QueueNumber := Number(queueNumber)][ChatId := Number(chatId)], tickets).Advance?
  {
  }
}
