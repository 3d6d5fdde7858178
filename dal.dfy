/**
 * The per-user key/value record (`context.user_data`) and the `ContextDal`
 * accessors over it (src/dal.py).
 *
 * The record is a dictionary shared by reference: the job that polls the
 * queue for a user holds the very same dictionary as its context, so it is a
 * class whose single field is reassigned in place.
 */
module Dal {
  import opened Wrappers

  /** The keys the bot stores in `user_data`. */
  datatype Key = Language | QueueNumber | StoreId | ChatId | WaitProgress

  /** The values stored under them: strings or integers. */
  datatype Value = Text(text: string) | Number(number: int)

  /** Keys whose values are strings; all others hold integers. */
  predicate IsTextKey(k: Key) {
    k == Language || k == StoreId
  }

  /** Every key holds a value of the kind its writer stores there. */
  predicate WellTyped(m: map<Key, Value>) {
    forall k :: k in m ==> (m[k].Text? <==> IsTextKey(k))
  }

  type Record = m: map<Key, Value> | WellTyped(m) witness map[]

  /** The language used when none was chosen. */
  const DefaultLanguage: string := "zh"

  /** `user_data.get('language', 'zh')` */
  function LanguageOf(m: Record): string {
    if Language in m then m[Language].text else DefaultLanguage
  }

  /** `user_data.get('queue_number')` */
  function QueueNumberOf(m: Record): Option<int> {
    if QueueNumber in m then Some(m[QueueNumber].number) else None
  }

  /** `user_data.get('store_id')` */
  function StoreIdOf(m: Record): Option<string> {
    if StoreId in m then Some(m[StoreId].text) else None
  }

  /** `user_data.get('chat_id')` */
  function ChatIdOf(m: Record): Option<int> {
    if ChatId in m then Some(m[ChatId].number) else None
  }

  /** `user_data.get('wait_progress', 0)`: the last alert stage sent. */
  function StoredProgress(m: Record): int {
    if WaitProgress in m then m[WaitProgress].number else 0
  }

  /** A user's `user_data` dictionary. */
  class UserData {
    var entries: Record

    constructor ()
      ensures entries == map[]
    {
      entries := map[];
    }
  }

  // The ContextDal accessors. Each takes the user name the source passes and
  // ignores it: what they read and write is the record alone.

  method SaveLanguage(username: string, language: string, data: UserData)
    modifies data
    ensures data.entries == old(data.entries)[Language := Text(language)]
  {
    data.entries := data.entries[Language := Text(language)];
  }

  method GetLanguage(username: string, data: UserData) returns (language: string)
    ensures Language in data.entries ==> language == data.entries[Language].text
    ensures Language !in data.entries ==> language == DefaultLanguage
  {
    language := LanguageOf(data.entries);
  }

  method SaveQueueNumber(username: string, queueNumber: int, data: UserData)
    modifies data
    ensures data.entries == old(data.entries)[QueueNumber := Number(queueNumber)]
  {
    data.entries := data.entries[QueueNumber := Number(queueNumber)];
  }

  method GetQueueNumber(username: string, data: UserData) returns (queueNumber: Option<int>)
    ensures queueNumber.Some? <==> QueueNumber in data.entries
    ensures queueNumber.Some? ==> Number(queueNumber.value) == data.entries[QueueNumber]
  {
    queueNumber := QueueNumberOf(data.entries);
  }

  method SaveStoreId(username: string, storeId: string, data: UserData)
    modifies data
    ensures data.entries == old(data.entries)[StoreId := Text(storeId)]
  {
    data.entries := data.entries[StoreId := Text(storeId)];
  }

  method GetStoreId(username: string, data: UserData) returns (storeId: Option<string>)
    ensures storeId.Some? <==> StoreId in data.entries
    ensures storeId.Some? ==> Text(storeId.value) == data.entries[StoreId]
  {
    storeId := StoreIdOf(data.entries);
  }

  method SaveChatId(username: string, chatId: int, data: UserData)
    modifies data
    ensures data.entries == old(data.entries)[ChatId := Number(chatId)]
  {
    data.entries := data.entries[ChatId := Number(chatId)];
  }

  method GetChatId(username: string, data: UserData) returns (chatId: Option<int>)
    ensures chatId.Some? <==> ChatId in data.entries
    ensures chatId.Some? ==> Number(chatId.value) == data.entries[ChatId]
  {
    chatId := ChatIdOf(data.entries);
  }

  /** Reading a key back after saving it gives the saved value. */
  lemma SaveThenGet(m: Record, language: string, queueNumber: int, storeId: string, chatId: int)
    ensures LanguageOf(m[Language := Text(language)]) == language
    ensures QueueNumberOf(m[QueueNumber := Number(queueNumber)]) == Some(queueNumber)
    ensures StoreIdOf(m[StoreId := Text(storeId)]) == Some(storeId)
    ensures ChatIdOf(m[ChatId := Number(chatId)]) == Some(chatId)
  {
  }

  /** Before any save, the getters give their defaults. */
  lemma GetBeforeSave()
    ensures LanguageOf(map[]) == "zh"
    ensures QueueNumberOf(map[]) == None && StoreIdOf(map[]) == None && ChatIdOf(map[]) == None
    ensures StoredProgress(map[]) == 0
  {
  }

  /** A save writes its own key and leaves what every other key reads unchanged. */
  lemma SaveKeepsOtherKeys(m: Record, k: Key, v: Value, other: Key)
    requires (v.Text? <==> IsTextKey(k)) && other != k
    ensures WellTyped(m[k := v])
    ensures other in m[k := v] <==> other in m
    ensures other in m ==> m[k := v][other] == m[other]
  {
  }
}
