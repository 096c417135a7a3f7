/**
 * What one run of the polling worker does to the world, as pure functions: the
 * stored update cursor, the per-chat configuration (table and cache), the translation
 * cache, the messages sent, the provider calls made, the retry delays slept and the
 * offsets polled. An exception that escapes the worker ends the run; it is recorded
 * as `crashed`, with every effect made before it kept.
 */
module Dispatch {
  import opened Php
  import opened Catalog
  import opened Detect
  import opened Callback
  import opened ConfigStore
  import opened Translation

  // ---------------------------------------------------------------------------
  // Inputs and state

  /** What an update holds, read with `?? null`: a callback query, or anything else read as a message. */
  datatype Body =
    | CallbackQuery(chatId: Option<int>, data: Option<string>)
    | Message(chatId: Option<int>, text: Option<string>, messageId: Option<int>)

  datatype Update = Update(updateId: int, body: Body)

  /** One sendMessage request; an absent field is left out of the query string. */
  datatype Outgoing = Outgoing(chatId: int, text: Option<string>, replyTo: Option<int>, keyboard: Option<Keyboard>)

  /**
   * What the worker reads but never changes: the allow-list setting (comma-separated
   * chat ids), the effective OpenAI key, the digest function and the three providers.
   */
  datatype Env = Env(
    allowList: string,
    apiKey: Option<string>,
    md5: string -> string,
    detect: string -> Option<string>,
    translate: (string, string) -> Option<string>,
    gpt: nat -> GptResponse)

  datatype World = World(
    cursor: Option<int>,                // Redis "Telegram:LastUpdate:<token>"
    configCache: Cache,                 // Redis "Telegram:GroupConfig:<chat>"
    table: Table,                       // telegram_group_configs
    translations: map<string, string>,  // Redis "translation:<source>:<dest>:<md5>"
    outbox: seq<Outgoing>,
    gptRequests: seq<GptRequest>,
    backoffs: seq<int>,                 // usleep delays, in milliseconds
    googleCalls: seq<GoogleCall>,
    polls: seq<int>,                    // the offsets of getUpdates, in order
    crashed: bool)

  const LanguagePrompt: string := "请选择翻译目标语言："
  const ModelPrompt: string := "请选择翻译翻譯模組："
  const ChatIdPrefix: string := "ChatId："
  const LanguageUpdated: string := "语言已更新为："
  const ModelUpdated: string := "翻译模组已更新为："

  const ModelCommand: string := "/model"
  const LanguageCommand: string := "/lang"
  const ChatIdCommand: string := "/chatId"

  function Send(w: World, m: Outgoing): World {
    w.(outbox := w.outbox + [m])
  }

  // ---------------------------------------------------------------------------
  // checkWhiteChatId

  /** checkWhiteChatId: `in_array` of the id among the comma-separated entries, with loose comparison. */
  predicate Allowed(allowList: string, chat: int)
    ensures Allowed(allowList, chat) ==>
      exists i :: 0 <= i < |Explode(allowList)| && NumericInt(Explode(allowList)[i]) == Some(chat)
    ensures (exists i :: 0 <= i < |Explode(allowList)| && NumericInt(Explode(allowList)[i]) == Some(chat)) ==>
      Allowed(allowList, chat)
    ensures allowList == "" ==> !Allowed(allowList, chat)
  {
    var entries := Explode(allowList);
    assert forall i :: 0 <= i < |entries| ==> (LooseEqualsInt(chat, entries[i]) <==> NumericInt(entries[i]) == Some(chat));
    assert allowList == "" ==> entries == [""] && NumericInt("").None?;
    exists i :: 0 <= i < |entries| && LooseEqualsInt(chat, entries[i])
  }

  /**
   * Entries are read as PHP 8 numbers: padding around an id is allowed, and an entry that
   * is not numeric admits no chat, not even chat 0.
   */
  lemma AllowedEntriesLoose()
    ensures Allowed(" 42", 42) && !Allowed(" 42", 4)
    ensures !Allowed("abc", 0) && !Allowed("", 0)
  {
    assert Allowed(" 42", 42) && !Allowed(" 42", 4) by {
      LooseEqualsIntPadded();
      SingleEntry(" 42", 42);
      SingleEntry(" 42", 4);
    }
    assert !Allowed("abc", 0) by {
      NotNumericWithLetter("abc", 0);
      SingleEntry("abc", 0);
    }
  }

  /** An allow-list without a comma is one entry. */
  lemma SingleEntry(entry: string, chat: int)
    requires ',' !in entry
    ensures Allowed(entry, chat) <==> NumericInt(entry) == Some(chat)
  {
    assert Implode([entry]) == entry;
    ExplodeImplode([entry]);
  }

  lemma AllowedBy(allowList: string, chat: int, i: int)
    requires 0 <= i < |Explode(allowList)| && LooseEqualsInt(chat, Explode(allowList)[i])
    ensures Allowed(allowList, chat)
  {
  }

  /** The decimal renderings of some ids, in order. */
  function Renderings(ids: seq<int>): (r: seq<string>)
    ensures |r| == |ids|
    ensures forall i :: 0 <= i < |ids| ==> r[i] == DecimalString(ids[i])
    decreases |ids|
  {
    if ids == [] then [] else [DecimalString(ids[0])] + Renderings(ids[1..])
  }

  /** A rendering has no comma. */
  lemma DecimalStringCommaFree(n: int)
    ensures ',' !in DecimalString(n)
  {
    var m: nat := if n < 0 then -n else n;
    var d := NatString(m);
    assert forall i :: 0 <= i < |d| ==> d[i] != ',';
    if n < 0 {
      var s := DecimalString(n);
      assert s == "-" + d;
      assert forall i :: 0 <= i < |s| ==> s[i] != ',' by {
        forall i | 0 <= i < |s| ensures s[i] != ',' {
          if i > 0 { assert s[i] == d[i - 1]; }
        }
      }
    }
  }

  /** An allow-list written as comma-separated decimal ids admits exactly those ids. */
  lemma AllowListOfIds(ids: seq<int>, chat: int)
    requires |ids| >= 1
    ensures Allowed(Implode(Renderings(ids)), chat) <==> chat in ids
  {
    var parts := Renderings(ids);
    forall i | 0 <= i < |parts| ensures ',' !in parts[i] {
      DecimalStringCommaFree(ids[i]);
    }
    ExplodeImplode(parts);
    forall i | 0 <= i < |ids| ensures NumericInt(parts[i]) == Some(ids[i]) {
      NumericIntOfDecimal(ids[i]);
    }
  }

  // ---------------------------------------------------------------------------
  // The messages the worker sends

  /** sendLanguageOptions. */
  function LanguageOptions(chat: int): (m: Outgoing)
    ensures m.chatId == chat && m.replyTo.None? && m.keyboard.Some? && |m.keyboard.value| == |Languages|
    ensures forall i :: 0 <= i < |Languages| ==>
      |m.keyboard.value[i]| == 1 && m.keyboard.value[i][0].text == Languages[i].name
      && DecodeCallback(m.keyboard.value[i][0].callbackData) == SetLanguage(Languages[i].code)
  {
    LanguageKeyboardShape();
    Outgoing(chat, Some(LanguagePrompt), None, Some(LanguageKeyboard()))
  }

  /** sendModelOptions. */
  function ModelOptionsMessage(chat: int): (m: Outgoing)
    ensures m.chatId == chat && m.replyTo.None? && m.keyboard.Some? && |m.keyboard.value| == |ModelOptions|
    ensures forall i :: 0 <= i < |ModelOptions| ==>
      |m.keyboard.value[i]| == 1 && m.keyboard.value[i][0].text == ModelOptions[i].caption
      && DecodeCallback(m.keyboard.value[i][0].callbackData) == SetModel(DecimalString(ModelOptions[i].id))
      && ModelNameByKey(DecimalString(ModelOptions[i].id)) == Some(TranslateModel[ModelOptions[i].id])
  {
    ModelKeyboardShape();
    ModelOptionsInCatalog();
    assert DecimalString(1) == "1" && DecimalString(2) == "2";
    Outgoing(chat, Some(ModelPrompt), None, Some(ModelKeyboard()))
  }

  /** sendChatId. */
  function ChatIdMessage(chat: int): (m: Outgoing)
    ensures m.chatId == chat && m.replyTo.None? && m.keyboard.None?
    ensures m.text.Some? && StartsWith(m.text.value, ChatIdPrefix)
    ensures NumericInt(m.text.value[|ChatIdPrefix|..]) == Some(chat)
  {
    NumericIntOfDecimal(chat);
    var text := ChatIdPrefix + DecimalString(chat);
    assert text[..|ChatIdPrefix|] == ChatIdPrefix && text[|ChatIdPrefix|..] == DecimalString(chat);
    Outgoing(chat, Some(text), None, None)
  }

  /**
   * The confirmation text of setTelegramGroupConfig. A language is named through the
   * catalog with its fallback; a model id is looked up in TRANSLATE_MODEL, and None is
   * the undefined key, which throws.
   */
  function Confirmation(write: ConfigWrite): (text: Option<string>)
    ensures write.WriteLanguage? ==> text == Some(LanguageUpdated + LanguageName(write.code))
    ensures write.WriteModel? ==> (text.Some? <==> write.id == "1" || write.id == "2")
  {
    match write
    case WriteLanguage(code) => Some(LanguageUpdated + LanguageName(code))
    case WriteModel(id) =>
      ModelNameByKeySpec(id);
      match ModelNameByKey(id)
      case Some(name) => Some(ModelUpdated + name)
      case None => None
  }

  // ---------------------------------------------------------------------------
  // Handling one update

  /**
   * setChatChannelConfig: upsert, then delete the cached copy. A write the table
   * rejects throws before anything changes.
   */
  function SaveConfig(w: World, chat: int, write: ConfigWrite): (r: World)
    ensures r.crashed == (w.crashed || Upsert(w.table, chat, write).None?)
    ensures Upsert(w.table, chat, write).None? ==> r == w.(crashed := true)
    ensures Upsert(w.table, chat, write).Some? ==>
      r == w.(table := Upsert(w.table, chat, write).value, configCache := Invalidate(w.configCache, chat))
  {
    match Upsert(w.table, chat, write)
    case None => w.(crashed := true)
    case Some(table) => w.(table := table, configCache := Invalidate(w.configCache, chat))
  }

  /**
   * setTelegramGroupConfig: save, then confirm; an undefined model key throws after
   * the write.
   */
  function SetConfig(w: World, chat: int, write: ConfigWrite): (r: World)
    ensures Appends(w, r)
    ensures r.crashed != w.crashed ==> r.outbox == w.outbox
  {
    var saved := SaveConfig(w, chat, write);
    if Upsert(w.table, chat, write).None? then saved
    else
      match Confirmation(write)
      case None => saved.(crashed := true)
      case Some(text) => Send(saved, Outgoing(chat, Some(text), None, None))
  }

  /** Handling leaves the cursor and the polls alone and sends at most one message. */
  predicate Appends(w: World, r: World) {
    && r.cursor == w.cursor && r.polls == w.polls
    && |w.outbox| <= |r.outbox| <= |w.outbox| + 1 && r.outbox[..|w.outbox|] == w.outbox
  }

  /** `!$chatId` for a chat id read with `?? null`. */
  predicate NoChat(chatId: Option<int>) {
    chatId.None? || chatId.value == 0
  }

  /** processCallBack. */
  function ProcessCallBack(env: Env, w: World, chatId: Option<int>, data: Option<string>): (r: World)
    ensures Appends(w, r)
    ensures r.crashed != w.crashed ==> r.outbox == w.outbox
  {
    if NoChat(chatId) then w
    else if !Allowed(env.allowList, chatId.value) then w
    else if FalsyOrNull(data) then w
    else
      match DecodeCallback(data.value)
      case SetLanguage(code) => SetConfig(w, chatId.value, WriteLanguage(code))
      case SetModel(id) => SetConfig(w, chatId.value, WriteModel(id))
      case Unrecognized => w
  }

  /** The translate branch of handle for a configured chat: pick the engine, reply threaded. */
  function Translate(env: Env, w: World, chat: int, row: Row, text: string, messageId: Option<int>): (r: World)
    ensures Appends(w, r) && |r.outbox| == |w.outbox| + 1
    ensures r.outbox[|w.outbox|].chatId == chat && r.outbox[|w.outbox|].replyTo == messageId
    ensures r.outbox[|w.outbox|].keyboard.None?
    ensures r.table == w.table && r.configCache == w.configCache && r.crashed == w.crashed
  {
    if row.modelId == GoogleTranslate then
      var g := GoogleTrans(env.detect, env.translate, row.targetLanguage, text);
      Send(w.(googleCalls := w.googleCalls + g.calls), Outgoing(chat, g.result, messageId, None))
    else if row.modelId == ChatGpt then
      var o := ChatGptTrans(env.apiKey, env.md5, env.gpt, |w.gptRequests|, w.translations, row.targetLanguage, text);
      var w1 := w.(translations := o.cache, gptRequests := w.gptRequests + o.requests, backoffs := w.backoffs + o.delays);
      Send(w1, Outgoing(chat, Some(o.result), messageId, None))
    else Send(w, Outgoing(chat, Some(""), messageId, None))
  }

  /** The message branch of handle. */
  function HandleMessage(env: Env, w: World, chatId: Option<int>, text: Option<string>, messageId: Option<int>): (r: World)
    ensures Appends(w, r) && r.table == w.table && r.crashed == w.crashed
  {
    if NoChat(chatId) then w
    else if !Allowed(env.allowList, chatId.value) then w
    else
      var chat := chatId.value;
      var t := text.GetOr("");
      if t == ModelCommand then Send(w, ModelOptionsMessage(chat))
      else if t == LanguageCommand then Send(w, LanguageOptions(chat))
      else if t == ChatIdCommand then Send(w, ChatIdMessage(chat))
      else
        var read := ReadThrough(w.configCache, w.table, chat);
        var w1 := w.(configCache := read.cache);
        match read.config
        case None => Send(w1, LanguageOptions(chat))
        case Some(row) => Translate(env, w1, chat, row, t, messageId)
  }

  /** Classify an update; handling never touches the cursor or the polls. */
  function Dispatch(env: Env, w: World, body: Body): (r: World)
    ensures Appends(w, r)
    ensures r.crashed != w.crashed ==> body.CallbackQuery? && r.outbox == w.outbox
  {
    match body
    case CallbackQuery(chatId, data) => ProcessCallBack(env, w, chatId, data)
    case Message(chatId, text, messageId) => HandleMessage(env, w, chatId, text, messageId)
  }

  /** One update of the foreach: store its id as the cursor first, then handle it. */
  function Step(env: Env, w: World, u: Update): (r: World)
    ensures r.cursor == Some(u.updateId) && r.polls == w.polls
    ensures |w.outbox| <= |r.outbox| <= |w.outbox| + 1 && r.outbox[..|w.outbox|] == w.outbox
  {
    Dispatch(env, w.(cursor := Some(u.updateId)), u.body)
  }

  /** The foreach over one batch; an exception ends it (and the run). */
  function RunBatch(env: Env, w: World, batch: seq<Update>): (r: World)
    ensures r.polls == w.polls
    ensures |w.outbox| <= |r.outbox| && r.outbox[..|w.outbox|] == w.outbox
    ensures w.crashed ==> r == w
    decreases |batch|
  {
    if batch == [] || w.crashed then w else RunBatch(env, Step(env, w, batch[0]), batch[1..])
  }

  /**
   * One update of a batch that has not crashed: if `w` runs the rest of the batch as
   * `start` runs all of it, so does the state after the update's step.
   */
  lemma RunBatchUnfold(env: Env, start: World, w: World, after: World, batch: seq<Update>, i: nat)
    requires !w.crashed && i < |batch|
    requires RunBatch(env, w, batch[i..]) == RunBatch(env, start, batch)
    requires after == Step(env, w, batch[i])
    ensures RunBatch(env, after, batch[i + 1..]) == RunBatch(env, start, batch)
  {
    assert batch[i..][1..] == batch[i + 1..];
  }

  /** getUpdates with this offset returns the update with this id (ids at or after the offset). */
  predicate Requested(offset: int, id: int) {
    id >= offset
  }

  /** An update id the cursor has not acknowledged: after the cursor, or any positive id when none is stored. */
  predicate Unacknowledged(cursor: Option<int>, id: int) {
    id > cursor.GetOr(0)
  }

  /**
   * The offset of the next getUpdates: the stored cursor plus one, an absent cursor read
   * as 0. The updates it asks for are exactly those the cursor has not acknowledged.
   */
  function NextOffset(w: World): (offset: int)
    ensures forall id :: Requested(offset, id) <==> Unacknowledged(w.cursor, id)
  {
    w.cursor.GetOr(0) + 1
  }

  /** The polling loop over the batches the successive polls return. */
  function RunAll(env: Env, w: World, batches: seq<seq<Update>>): (r: World)
    ensures |w.polls| <= |r.polls| <= |w.polls| + |batches|
    ensures r.polls[..|w.polls|] == w.polls
    ensures |w.outbox| <= |r.outbox| && r.outbox[..|w.outbox|] == w.outbox
    decreases |batches|
  {
    if batches == [] || w.crashed then w
    else
      var b := RunBatch(env, w.(polls := w.polls + [NextOffset(w)]), batches[0]);
      var r := RunAll(env, b, batches[1..]);
      assert r.polls[..|w.polls|] == b.polls[..|w.polls|] == w.polls;
      assert r.outbox[..|w.outbox|] == b.outbox[..|w.outbox|] == w.outbox;
      r
  }

  /**
   * One poll of a run that has not crashed: if `w` runs the remaining batches as `start`
   * runs them all, so does the state after recording the poll and running its batch.
   */
  lemma RunAllUnfold(env: Env, start: World, w: World, polled: World, after: World, batches: seq<seq<Update>>, n: nat)
    requires !w.crashed && n < |batches|
    requires RunAll(env, w, batches[n..]) == RunAll(env, start, batches)
    requires polled == w.(polls := w.polls + [NextOffset(w)])
    requires after == RunBatch(env, polled, batches[n])
    ensures RunAll(env, after, batches[n + 1..]) == RunAll(env, start, batches)
  {
    assert batches[n..][1..] == batches[n + 1..];
  }

  // ---------------------------------------------------------------------------
  // The cursor and the polls

  /** The first update of a batch sets the cursor, and the rest of the batch runs from there. */
  lemma RunBatchFirst(env: Env, w: World, batch: seq<Update>)
    requires !w.crashed && batch != []
    ensures exists w1: World ::
      w1.cursor == Some(batch[0].updateId) && RunBatch(env, w, batch) == RunBatch(env, w1, batch[1..])
  {
    var w1 := Step(env, w, batch[0]);
    assert RunBatch(env, w, batch) == RunBatch(env, w1, batch[1..]);
  }

  /** A batch handled without an exception leaves the cursor at the id of its last update. */
  lemma {:induction false} RunBatchCursorLast(env: Env, w: World, batch: seq<Update>)
    requires !w.crashed && batch != []
    ensures var r := RunBatch(env, w, batch);
      !r.crashed ==> r.cursor == Some(batch[|batch| - 1].updateId)
    decreases |batch|
  {
    RunBatchFirst(env, w, batch);
    var w1: World :| w1.cursor == Some(batch[0].updateId) && RunBatch(env, w, batch) == RunBatch(env, w1, batch[1..]);
    if !w1.crashed && |batch| > 1 {
      RunBatchCursorLast(env, w1, batch[1..]);
      assert batch[1..][|batch[1..]| - 1] == batch[|batch| - 1];
    }
  }

  /**
   * After a batch the cursor is the id of the last update handled: the last of the
   * batch unless an exception cut it short. The polls are untouched.
   */
  lemma {:induction false} RunBatchCursor(env: Env, w: World, batch: seq<Update>)
    requires !w.crashed && batch != []
    ensures var r := RunBatch(env, w, batch);
      && r.polls == w.polls
      && (exists i :: 0 <= i < |batch| && r.cursor == Some(batch[i].updateId))
      && (!r.crashed ==> r.cursor == Some(batch[|batch| - 1].updateId))
    decreases |batch|
  {
    RunBatchCursorLast(env, w, batch);
    RunBatchFirst(env, w, batch);
    var w1: World :| w1.cursor == Some(batch[0].updateId) && RunBatch(env, w, batch) == RunBatch(env, w1, batch[1..]);
    var r := RunBatch(env, w1, batch[1..]);
    if w1.crashed || |batch| == 1 {
      assert r.cursor == Some(batch[0].updateId);
    } else {
      RunBatchCursor(env, w1, batch[1..]);
      var i :| 0 <= i < |batch[1..]| && r.cursor == Some(batch[1..][i].updateId);
      assert r.cursor == Some(batch[i + 1].updateId);
    }
  }

  /** With ascending ids (as getUpdates returns them) the cursor of a whole batch is its largest id. */
  lemma CursorIsLargestWhenAscending(env: Env, w: World, batch: seq<Update>)
    requires !w.crashed && batch != []
    requires forall i, j :: 0 <= i < j < |batch| ==> batch[i].updateId < batch[j].updateId
    requires !RunBatch(env, w, batch).crashed
    ensures var c := RunBatch(env, w, batch).cursor;
      c.Some? && forall i :: 0 <= i < |batch| ==> batch[i].updateId <= c.value
  {
    RunBatchCursorLast(env, w, batch);
    forall i | 0 <= i < |batch| ensures batch[i].updateId <= batch[|batch| - 1].updateId {
      if i < |batch| - 1 {
        assert batch[i].updateId < batch[|batch| - 1].updateId;
      }
    }
  }

  /** An empty batch changes nothing. */
  lemma EmptyBatch(env: Env, w: World)
    ensures RunBatch(env, w, []) == w
  {
  }

  /** The first poll of a run asks for the stored cursor plus one (1 when nothing is stored). */
  lemma FirstPoll(env: Env, w: World, batches: seq<seq<Update>>)
    requires !w.crashed && batches != []
    ensures var r := RunAll(env, w, batches);
      |r.polls| > |w.polls| && r.polls[|w.polls|] == NextOffset(w)
  {
    var p := w.(polls := w.polls + [NextOffset(w)]);
    var b := RunBatch(env, p, batches[0]);
    var r := RunAll(env, b, batches[1..]);
    assert r.polls[..|b.polls|] == b.polls;
    assert r.polls[|w.polls|] == b.polls[|w.polls|];
  }

  /** After a batch handled to its end, the next poll asks for the last id plus one. */
  lemma NextPollFollowsLastUpdate(env: Env, w: World, batches: seq<seq<Update>>)
    requires !w.crashed && |batches| >= 2 && batches[0] != []
    requires !RunBatch(env, w.(polls := w.polls + [NextOffset(w)]), batches[0]).crashed
    ensures var r := RunAll(env, w, batches);
      |r.polls| >= |w.polls| + 2
      && r.polls[|w.polls| + 1] == batches[0][|batches[0]| - 1].updateId + 1
  {
    var p := w.(polls := w.polls + [NextOffset(w)]);
    var b := RunBatch(env, p, batches[0]);
    RunBatchCursorLast(env, p, batches[0]);
    assert |b.polls| == |w.polls| + 1;
    assert NextOffset(b) == batches[0][|batches[0]| - 1].updateId + 1;
    FirstPoll(env, b, batches[1..]);
    assert RunAll(env, w, batches) == RunAll(env, b, batches[1..]);
  }

  // ---------------------------------------------------------------------------
  // Classification

  /** An update without a chat, or from a chat off the allow list, only moves the cursor. */
  lemma StrangerIgnored(env: Env, w: World, u: Update)
    requires NoChat(u.body.chatId) || !Allowed(env.allowList, u.body.chatId.value)
    ensures Step(env, w, u) == w.(cursor := Some(u.updateId))
  {
  }

  /** A callback with empty data, or with data of neither prefix, only moves the cursor. */
  lemma IgnoredCallback(env: Env, w: World, id: int, chatId: Option<int>, data: Option<string>)
    requires FalsyOrNull(data) || (!StartsWith(data.value, LangPrefix) && !StartsWith(data.value, ModelPrefix))
    ensures Step(env, w, Update(id, CallbackQuery(chatId, data))) == w.(cursor := Some(id))
  {
  }

  /** The three commands send their prompt and nothing else. */
  lemma CommandsReply(env: Env, w: World, id: int, chat: int, messageId: Option<int>)
    requires chat != 0 && Allowed(env.allowList, chat)
    ensures Step(env, w, Update(id, Message(Some(chat), Some(ModelCommand), messageId)))
         == Send(w.(cursor := Some(id)), ModelOptionsMessage(chat))
    ensures Step(env, w, Update(id, Message(Some(chat), Some(LanguageCommand), messageId)))
         == Send(w.(cursor := Some(id)), LanguageOptions(chat))
    ensures Step(env, w, Update(id, Message(Some(chat), Some(ChatIdCommand), messageId)))
         == Send(w.(cursor := Some(id)), Outgoing(chat, Some("ChatId：" + DecimalString(chat)), None, None))
  {
  }

  /** Text not a command, whose chat is allowed: the case the translate branch handles. */
  predicate TranslatableText(env: Env, chat: int, text: string) {
    chat != 0 && Allowed(env.allowList, chat) && text != ModelCommand && text != LanguageCommand && text != ChatIdCommand
  }

  /** Any other text from a chat with no configuration gets the language keyboard and no translation. */
  lemma UnconfiguredChatPrompted(env: Env, w: World, id: int, chat: int, text: string, messageId: Option<int>)
    requires TranslatableText(env, chat, text)
    requires ReadThrough(w.configCache, w.table, chat).config.None?
    ensures var r := Step(env, w, Update(id, Message(Some(chat), Some(text), messageId)));
      && r.outbox == w.outbox + [LanguageOptions(chat)]
      && r.gptRequests == w.gptRequests && r.googleCalls == w.googleCalls && r.backoffs == w.backoffs
      && r.translations == w.translations && r.table == w.table && r.crashed == w.crashed
  {
    var w1 := w.(cursor := Some(id));
    var read := ReadThrough(w1.configCache, w1.table, chat);
    assert Step(env, w, Update(id, Message(Some(chat), Some(text), messageId)))
        == HandleMessage(env, w1, Some(chat), Some(text), messageId);
    assert HandleMessage(env, w1, Some(chat), Some(text), messageId) == Send(w1.(configCache := read.cache), LanguageOptions(chat));
  }

  /**
   * For a configured chat the one reply goes to that chat, threaded on the incoming
   * message; an engine other than 1 or 2 replies with the empty string and calls nobody.
   */
  lemma TranslationReplyThreaded(env: Env, w: World, id: int, chat: int, text: string, messageId: Option<int>)
    requires TranslatableText(env, chat, text)
    requires ReadThrough(w.configCache, w.table, chat).config.Some?
    ensures var r := Step(env, w, Update(id, Message(Some(chat), Some(text), messageId)));
      var row := ReadThrough(w.configCache, w.table, chat).config.value;
      && |r.outbox| == |w.outbox| + 1 && r.outbox[..|w.outbox|] == w.outbox
      && r.outbox[|w.outbox|].chatId == chat
      && r.outbox[|w.outbox|].replyTo == messageId
      && r.outbox[|w.outbox|].keyboard.None?
      && r.table == w.table && r.crashed == w.crashed
      && (row.modelId != GoogleTranslate && row.modelId != ChatGpt ==>
            r.outbox[|w.outbox|].text == Some("") && r.gptRequests == w.gptRequests && r.googleCalls == w.googleCalls)
      && (row.modelId == GoogleTranslate ==>
            r.outbox[|w.outbox|].text == GoogleTrans(env.detect, env.translate, row.targetLanguage, text).result
            && r.gptRequests == w.gptRequests)
      && (row.modelId == ChatGpt ==>
            r.outbox[|w.outbox|].text
              == Some(ChatGptTrans(env.apiKey, env.md5, env.gpt, |w.gptRequests|, w.translations, row.targetLanguage, text).result)
            && r.googleCalls == w.googleCalls)
  {
  }

  // ---------------------------------------------------------------------------
  // Callbacks and the configuration

  /** A callback chat that passes the chat guards: present, non-zero and on the allow-list. */
  predicate SelectionFrom(env: Env, chat: int) {
    chat != 0 && Allowed(env.allowList, chat)
  }

  /** A selection from an allowed chat is stored through setTelegramGroupConfig, after the cursor. */
  lemma SelectionStep(env: Env, w: World, id: int, chat: int, sel: Selection)
    requires SelectionFrom(env, chat) && !sel.Unrecognized?
    ensures Step(env, w, Update(id, CallbackQuery(Some(chat), Some(EncodeSelection(sel)))))
         == SetConfig(w.(cursor := Some(id)), chat, if sel.SetLanguage? then WriteLanguage(sel.code) else WriteModel(sel.id))
  {
    DecodeEncode(sel);
    var data := EncodeSelection(sel);
    assert |data| >= 5;
    assert !Falsy(data);
  }

  /** Choosing a language stores it, drops the cached copy and confirms it by name. */
  lemma LanguageChosen(env: Env, w: World, id: int, chat: int, code: string)
    requires SelectionFrom(env, chat) && !w.crashed
    ensures var r := Step(env, w, Update(id, CallbackQuery(Some(chat), Some(LangPrefix + code))));
      && !r.crashed && chat in r.table && r.table[chat].targetLanguage == code
      && r.table[chat].modelId == (if chat in w.table then w.table[chat].modelId else DefaultModel)
      && chat !in r.configCache
      && r.outbox == w.outbox + [Outgoing(chat, Some(LanguageUpdated + LanguageName(code)), None, None)]
  {
    SelectionStep(env, w, id, chat, SetLanguage(code));
  }

  /** A code outside the catalog is stored all the same, and confirmed with the fallback name. */
  lemma UnknownLanguageStored(env: Env, w: World, id: int, chat: int, code: string)
    requires SelectionFrom(env, chat) && !w.crashed
    requires code !in Codes(Languages)
    ensures var r := Step(env, w, Update(id, CallbackQuery(Some(chat), Some(LangPrefix + code))));
      && chat in r.table && r.table[chat].targetLanguage == code
      && r.outbox == w.outbox + [Outgoing(chat, Some(LanguageUpdated + UnknownLanguage), None, None)]
  {
    LanguageNameSpec(code);
    LanguageChosen(env, w, id, chat, code);
  }

  /** Choosing engine 1 or 2 for a configured chat stores it and confirms it by its catalog name. */
  lemma ModelChosen(env: Env, w: World, id: int, chat: int, key: string)
    requires SelectionFrom(env, chat) && chat in w.table && !w.crashed
    requires key == "1" || key == "2"
    ensures var r := Step(env, w, Update(id, CallbackQuery(Some(chat), Some(ModelPrefix + key))));
      && !r.crashed
      && r.table == w.table[chat := w.table[chat].(modelId := if key == "1" then GoogleTranslate else ChatGpt)]
      && chat !in r.configCache
      && r.outbox == w.outbox + [Outgoing(chat, Some(ModelUpdated + (if key == "1" then "Google Translate" else "Chat GPT")), None, None)]
  {
    SelectionStep(env, w, id, chat, SetModel(key));
    ModelNameByKeySpec(key);
    assert DigitsValue(key) == (if key == "1" then 1 else 2);
  }

  /**
   * Choosing an engine for a chat that has no row throws before anything is written:
   * the language column has no default. No reply is sent.
   */
  lemma ModelBeforeLanguageThrows(env: Env, w: World, id: int, chat: int, key: string)
    requires SelectionFrom(env, chat) && chat !in w.table
    ensures Step(env, w, Update(id, CallbackQuery(Some(chat), Some(ModelPrefix + key))))
         == w.(cursor := Some(id), crashed := true)
  {
    SelectionStep(env, w, id, chat, SetModel(key));
  }

  /**
   * An engine id outside the catalog (callback data the keyboard never sends) that the
   * column accepts, for a chat that has a row, is written and the cached copy dropped,
   * and then the confirmation lookup throws: no reply, and the run ends. Later messages
   * of that chat are answered with "".
   */
  lemma UnknownModelWrittenThenThrows(env: Env, w: World, id: int, chat: int, key: string)
    requires SelectionFrom(env, chat) && chat in w.table
    requires ColumnSmallInt(key).Some? && key != "1" && key != "2"
    ensures var r := Step(env, w, Update(id, CallbackQuery(Some(chat), Some(ModelPrefix + key))));
      && r.crashed && chat in r.table && r.table[chat].modelId == ColumnSmallInt(key).value
      && chat !in r.configCache && r.outbox == w.outbox
  {
    SelectionStep(env, w, id, chat, SetModel(key));
    var w1 := w.(cursor := Some(id));
    var saved := SaveConfig(w1, chat, WriteModel(key));
    assert Upsert(w1.table, chat, WriteModel(key)).Some?;
    assert Confirmation(WriteModel(key)).None?;
    assert SetConfig(w1, chat, WriteModel(key)) == saved.(crashed := true);
  }

  /** After a language is chosen, the next read of that chat's configuration finds it. */
  lemma ChosenLanguageIsRead(env: Env, w: World, id: int, chat: int, code: string)
    requires SelectionFrom(env, chat) && !w.crashed
    ensures var r := Step(env, w, Update(id, CallbackQuery(Some(chat), Some(LangPrefix + code))));
      var read := ReadThrough(r.configCache, r.table, chat);
      read.config.Some? && read.config.value.targetLanguage == code
  {
    LanguageChosen(env, w, id, chat, code);
  }

  /** Updates from strangers alone leave everything but the cursor as it was. */
  lemma {:induction false} StrangersLeaveNoTrace(env: Env, w: World, batch: seq<Update>)
    requires forall i :: 0 <= i < |batch| ==> NoChat(batch[i].body.chatId) || !Allowed(env.allowList, batch[i].body.chatId.value)
    ensures RunBatch(env, w, batch).(cursor := w.cursor) == w
    decreases |batch|
  {
    if batch != [] && !w.crashed {
      StrangerIgnored(env, w, batch[0]);
      var w1 := Step(env, w, batch[0]);
      StrangersLeaveNoTrace(env, w1, batch[1..]);
      assert RunBatch(env, w1, batch[1..]).(cursor := w1.cursor) == w1;
    }
  }
}
