/**
 * One tick of the per-user queue monitor, `poll_queue` (app.py), and what a
 * run of ticks does.
 *
 * A tick reads the job's record, takes the store's current snapshot, and
 * either says nothing, announces that the store has closed, sends an
 * "almost ready" alert for a new stage, or sends the final call. The record
 * is read with `user_data[key]`, which raises when the key is missing; the
 * raised error ends the tick before anything is sent or written, and the job
 * keeps its place in the queue.
 *
 * `TickOf` is the tick as it is meant to run. `TickAsWritten` is the tick as
 * the code runs it: the closed notice reads a text the localization tables
 * do not define, so that tick raises before it sends and before it removes
 * its job.
 */
module Monitor {
  import opened Dal
  import opened Alerts
  import opened Snapshot
  import opened Messages
  import opened Jobs

  /** The stage at which the final call is sent: `len(ALERT_LIST)`. */
  const FinalStage: nat := |AlertList|

  /** What one tick decides. */
  datatype Tick =
    /** `user_data[missing]` raised: nothing is sent, nothing changes */
    | Crashed(missing: Key)
    /** the text of `message` is missing from the tables: nothing is sent, nothing changes */
    | Unwritable(message: Message)
    /** the stage reached is not above the one last notified */
    | Quiet(stage: nat)
    /** no ticket is being served: the store is taken to be closed */
    | Closed(chatId: int, language: string)
    /** the last stage is reached */
    | Final(chatId: int, language: string, queue: seq<nat>)
    /** an intermediate stage above the one last notified is reached */
    | Advance(chatId: int, language: string, queue: seq<nat>, tablesLeft: int, stage: nat)

  /** The record holds every key a tick reads unconditionally. */
  predicate Ready(m: Record) {
    Language in m && StoreId in m && ChatId in m && QueueNumber in m
  }

  /** The decision of `poll_queue` on record `m` when the feed shows `tickets`. */
  function TickOf(m: Record, tickets: seq<nat>): Tick {
    if Language !in m then Crashed(Language)
    else if StoreId !in m then Crashed(StoreId)
    else
      var (maxQueue, queue) := CurrentQueue(tickets);
      if maxQueue == -1 then
        if ChatId !in m then Crashed(ChatId) else Closed(m[ChatId].number, m[Language].text)
      else if QueueNumber !in m then Crashed(QueueNumber)
      else
        var tablesLeft := m[QueueNumber].number - maxQueue;
        var stage := Stage(tablesLeft, AlertList);
        if stage <= StoredProgress(m) then Quiet(stage)
        else if ChatId !in m then Crashed(ChatId)
        else if stage == FinalStage then Final(m[ChatId].number, m[Language].text, queue)
        else Advance(m[ChatId].number, m[Language].text, queue, tablesLeft, stage)
  }

  /** The messages a tick sends. */
  function SentBy(t: Tick): seq<Message> {
    match t
    case Crashed(_) => []
    case Unwritable(_) => []
    case Quiet(_) => []
    case Closed(c, l) => [StoreClosed(c, l)]
    case Final(c, l, q) => [FinalCall(c, l, q)]
    case Advance(c, l, q, left, _) => [AlmostReady(c, l, q, left)]
  }

  /** A tick that removes its own job. */
  predicate Stops(t: Tick) {
    t.Closed? || t.Final?
  }

  /** The record after a tick. */
  function After(m: Record, t: Tick): Record {
    if t.Advance? then m[WaitProgress := Number(t.stage)] else m
  }

  /**
   * `poll_queue`: one tick of `job`, with `tickets` the snapshot the feed
   * gives for the job's store at this moment.
   */
  method PollQueue(job: Job, bot: Outbox, tickets: seq<nat>)
    modifies job, job.data, bot
    ensures var t := TickOf(old(job.data.entries), tickets);
      && bot.sent == old(bot.sent) + SentBy(t)
      && job.removed == (old(job.removed) || Stops(t))
      && job.data.entries == After(old(job.data.entries), t)
  {
    var userData := job.data;
    ghost var m := userData.entries;
    if Language !in userData.entries {
      assert TickOf(m, tickets) == Crashed(Language);
      return;
    }
    var lan := userData.entries[Language].text;
    if StoreId !in userData.entries {
      assert TickOf(m, tickets) == Crashed(StoreId);
      return;
    }
    var (maxQueue, queueNumbers) := CurrentQueue(tickets);
    if maxQueue == -1 {
      if ChatId !in userData.entries {
        assert TickOf(m, tickets) == Crashed(ChatId);
        return;
      }
      assert TickOf(m, tickets) == Closed(m[ChatId].number, lan);
      bot.Send(StoreClosed(userData.entries[ChatId].number, lan));
      job.ScheduleRemoval();
      return;
    }
    if QueueNumber !in userData.entries {
      assert TickOf(m, tickets) == Crashed(QueueNumber);
      return;
    }
    var tablesLeft := userData.entries[QueueNumber].number - maxQueue;
    var curWaitProgress := GetWaitProgress(tablesLeft);
    var stored := if WaitProgress in userData.entries then userData.entries[WaitProgress].number else 0;
    if curWaitProgress <= stored {
      assert TickOf(m, tickets) == Quiet(curWaitProgress);
      return;
    }
    if ChatId !in userData.entries {
      assert TickOf(m, tickets) == Crashed(ChatId);
      return;
    }
    if curWaitProgress == |AlertList| {
      assert TickOf(m, tickets) == Final(m[ChatId].number, lan, queueNumbers);
      bot.Send(FinalCall(userData.entries[ChatId].number, lan, queueNumbers));
      job.ScheduleRemoval();
      return;
    }
    assert TickOf(m, tickets) == Advance(m[ChatId].number, lan, queueNumbers, tablesLeft, curWaitProgress);
    bot.Send(AlmostReady(userData.entries[ChatId].number, lan, queueNumbers, tablesLeft));
    userData.entries := userData.entries[WaitProgress := Number(curWaitProgress)];
  }

  /**
   * `poll_queue` as written: the message a tick decides on is written before
   * it is sent, and a text missing from the tables raises `AttributeError`,
   * which ends the tick with no effect. Every other tick is the intended one.
   */
  function TickAsWritten(m: Record, tickets: seq<nat>): (t: Tick)
    ensures forall i :: 0 <= i < |SentBy(t)| ==> Writable(SentBy(t)[i])
    ensures t == TickOf(m, tickets) || (SentBy(t) == [] && !Stops(t) && After(m, t) == m)
  {
    var intended := TickOf(m, tickets);
    if SentBy(intended) != [] && !Writable(SentBy(intended)[0]) then Unwritable(SentBy(intended)[0])
    else intended
  }

  /**
   * As written, the closed notice is the one tick that does not run as
   * intended: with the store closed it raises, sends nothing and keeps the
   * job, so the job goes on polling the closed store.
   */
  lemma ClosedStoreKeepsPollingAsWritten(m: Record, tickets: seq<nat>)
    requires Ready(m)
    ensures TickAsWritten(m, tickets) == TickOf(m, tickets) <==> tickets != []
    ensures tickets == [] ==>
      && TickAsWritten(m, tickets) == Unwritable(StoreClosed(m[ChatId].number, m[Language].text))
      && SentBy(TickAsWritten(m, tickets)) == []
      && !Stops(TickAsWritten(m, tickets))
  {
    WritableMessages(StoreClosed(m[ChatId].number, m[Language].text));
    if tickets != [] {
      var t := TickOf(m, tickets);
      if SentBy(t) != [] {
        WritableMessages(SentBy(t)[0]);
      }
    }
  }

  /** An empty snapshot closes the monitor, and only an empty one does. */
  lemma ClosedExactlyWhenEmpty(m: Record, tickets: seq<nat>)
    requires Ready(m)
    ensures TickOf(m, tickets).Closed? <==> tickets == []
    ensures tickets == [] ==> SentBy(TickOf(m, tickets)) == [StoreClosed(m[ChatId].number, m[Language].text)]
    ensures tickets == [] ==> After(m, TickOf(m, tickets)) == m
  {
  }

  /**
   * With tickets being served, a tick is quiet exactly when the stage reached
   * is not above the stored one; then it sends nothing, keeps the job and
   * changes nothing. Stage 0 is never notified.
   */
  lemma QuietUnlessHigherStage(m: Record, tickets: seq<nat>)
    requires Ready(m) && tickets != [] && StoredProgress(m) >= 0
    ensures var stage := Stage(m[QueueNumber].number - MaxTicket(tickets), AlertList);
      TickOf(m, tickets).Quiet? <==> stage <= StoredProgress(m)
    ensures TickOf(m, tickets).Quiet? ==> SentBy(TickOf(m, tickets)) == [] && !Stops(TickOf(m, tickets))
    ensures TickOf(m, tickets).Quiet? ==> After(m, TickOf(m, tickets)) == m
    ensures Stage(m[QueueNumber].number - MaxTicket(tickets), AlertList) == 0 ==> TickOf(m, tickets).Quiet?
  {
  }

  /**
   * An intermediate alert carries the tables left, records the new stage and
   * keeps the job; the stage is above the stored one and below the final.
   */
  lemma AdvanceRecordsStage(m: Record, tickets: seq<nat>)
    requires TickOf(m, tickets).Advance?
    ensures var t := TickOf(m, tickets);
      && Ready(m) && tickets != []
      && t.tablesLeft == m[QueueNumber].number - MaxTicket(tickets)
      && t.stage == Stage(t.tablesLeft, AlertList)
      && StoredProgress(m) < t.stage < FinalStage
      && StoredProgress(After(m, t)) == t.stage
      && SentBy(t) == [AlmostReady(m[ChatId].number, m[Language].text, tickets, t.tablesLeft)]
      && !Stops(t)
  {
  }

  /**
   * The final call is sent when at most two tables are left and it was not
   * sent before; it removes the job and leaves the stored stage alone.
   */
  lemma FinalWhenTwoLeft(m: Record, tickets: seq<nat>)
    requires Ready(m) && tickets != []
    ensures TickOf(m, tickets).Final? <==>
      m[QueueNumber].number - MaxTicket(tickets) <= 2 && StoredProgress(m) < FinalStage
    ensures TickOf(m, tickets).Final? ==>
      && Stops(TickOf(m, tickets))
      && After(m, TickOf(m, tickets)) == m
      && SentBy(TickOf(m, tickets)) == [FinalCall(m[ChatId].number, m[Language].text, tickets)]
  {
    StageBands(m[QueueNumber].number - MaxTicket(tickets), AlertList, FinalStage);
  }

  /**
   * The stored stage never goes down, rises only with an alert, and stays
   * below the final stage once it starts there.
   */
  lemma StoredProgressMonotone(m: Record, tickets: seq<nat>)
    ensures StoredProgress(After(m, TickOf(m, tickets))) >= StoredProgress(m)
    ensures StoredProgress(After(m, TickOf(m, tickets))) > StoredProgress(m) <==> TickOf(m, tickets).Advance?
    ensures 0 <= StoredProgress(m) < FinalStage ==> 0 <= StoredProgress(After(m, TickOf(m, tickets))) < FinalStage
    ensures var t := TickOf(m, tickets);
      && (t.Advance? ==> StoredProgress(m) < t.stage < FinalStage && StoredProgress(After(m, t)) == t.stage)
      && (t.Final? ==> StoredProgress(m) < FinalStage)
      && (!t.Advance? ==> After(m, t) == m)
  {
  }

  /** The ticks of one job fed `snapshots` one per interval, up to its removal. */
  function Run(m: Record, snapshots: seq<seq<nat>>): (ticks: seq<Tick>)
    ensures |ticks| <= |snapshots|
    ensures forall i :: 0 <= i < |ticks| - 1 ==> !Stops(ticks[i])
    ensures |ticks| == |snapshots| || (ticks != [] && Stops(ticks[|ticks| - 1]))
    ensures snapshots != [] ==> ticks[0] == TickOf(m, snapshots[0])
    decreases |snapshots|
  {
    if snapshots == [] then []
    else
      var t := TickOf(m, snapshots[0]);
      [t] + (if Stops(t) then [] else Run(After(m, t), snapshots[1..]))
  }

  /** The stage an alert announces: its own stage, or the final one. */
  function NotifiedBy(t: Tick): seq<nat> {
    match t
    case Advance(_, _, _, _, stage) => [stage]
    case Final(_, _, _) => [FinalStage]
    case _ => []
  }

  /** The stages announced by a sequence of ticks, in order. */
  function Notified(ticks: seq<Tick>): seq<nat> {
    if ticks == [] then [] else NotifiedBy(ticks[0]) + Notified(ticks[1..])
  }

  predicate StrictlyIncreasing(s: seq<nat>) {
    forall i, j :: 0 <= i < j < |s| ==> s[i] < s[j]
  }

  /** Putting a smaller stage in front keeps a sequence of stages increasing. */
  lemma IncreasingCons(head: seq<nat>, tail: seq<nat>, low: int)
    requires |head| <= 1 && StrictlyIncreasing(tail)
    requires forall i :: 0 <= i < |tail| ==> low < tail[i]
    requires forall i :: 0 <= i < |head| ==> head[i] <= low
    ensures StrictlyIncreasing(head + tail)
  {
  }

  /**
   * Whatever the snapshots, even when the queue seems to move backwards, the
   * stages a monitor announces strictly increase and all lie above the stage
   * stored when it started.
   */
  lemma {:induction false} RunAlertsIncrease(m: Record, snapshots: seq<seq<nat>>)
    ensures StrictlyIncreasing(Notified(Run(m, snapshots)))
    ensures forall i :: 0 <= i < |Notified(Run(m, snapshots))| ==>
      StoredProgress(m) < Notified(Run(m, snapshots))[i] <= FinalStage
    decreases |snapshots|
  {
    if snapshots != [] {
      var t := TickOf(m, snapshots[0]);
      var rest := if Stops(t) then [] else Run(After(m, t), snapshots[1..]);
      assert Run(m, snapshots) == [t] + rest;
      assert ([t] + rest)[1..] == rest;
      assert Notified([t] + rest) == NotifiedBy(t) + Notified(rest);
      StoredProgressMonotone(m, snapshots[0]);
      var low := StoredProgress(After(m, t));
      if !Stops(t) {
        RunAlertsIncrease(After(m, t), snapshots[1..]);
      } else {
        assert Notified(rest) == [];
      }
      IncreasingCons(NotifiedBy(t), Notified(rest), if t.Final? then FinalStage else low);
    }
  }

  /** The record of the example below: ticket 50 in chat 7, in English. */
  function TicketFifty(): Record {
    map[Language := Text("en"), StoreId := Text("42"), ChatId := Number(7), QueueNumber := Number(50)]
  }

  /** Eleven tables left: stage 0, no alert. */
  lemma TicketFiftyQuiet()
    ensures TickOf(TicketFifty(), [39]) == Quiet(0)
  {
    assert MaxTicket([39]) == 39;
  }

  /** Nine tables left: the first alert, which is recorded. */
  lemma TicketFiftyAlert()
    ensures TickOf(TicketFifty(), [38, 41]) == Advance(7, "en", [38, 41], 9, 1)
    ensures After(TicketFifty(), Advance(7, "en", [38, 41], 9, 1)) == TicketFifty()[WaitProgress := Number(1)]
  {
    assert MaxTicket([38, 41]) == 41;
  }

  /** One table left after the first alert: the final call. */
  lemma TicketFiftyFinal()
    ensures TickOf(TicketFifty()[WaitProgress := Number(1)], [49]) == Final(7, "en", [49])
  {
    assert MaxTicket([49]) == 49;
  }

  /** After the first alert, one table left ends the run with the final call. */
  lemma TicketFiftyRunFinal()
    ensures Run(TicketFifty()[WaitProgress := Number(1)], [[49], [49]]) == [Final(7, "en", [49])]
  {
    TicketFiftyFinal();
  }

  /** From nine tables left on: the alert, then the final call. */
  lemma TicketFiftyRunAlert()
    ensures Run(TicketFifty(), [[38, 41], [49], [49]])
      == [Advance(7, "en", [38, 41], 9, 1), Final(7, "en", [49])]
  {
    TicketFiftyAlert();
    TicketFiftyRunFinal();
    assert [[38, 41], [49], [49]][1..] == [[49], [49]];
  }

  /**
   * Ticket 50 under the thresholds 10, 5 and 2: eleven tables left is quiet,
   * nine gives the first alert, one gives the final call, which ends the
   * monitor so a repeated snapshot is never seen.
   */
  lemma TicketFiftyExample()
    ensures Run(TicketFifty(), [[39], [38, 41], [49], [49]])
      == [Quiet(0), Advance(7, "en", [38, 41], 9, 1), Final(7, "en", [49])]
  {
    TicketFiftyQuiet();
    TicketFiftyRunAlert();
    assert [[39], [38, 41], [49], [49]][1..] == [[38, 41], [49], [49]];
  }
}
