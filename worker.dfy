/**
 * The console command itself: an object whose fields are the state the command
 * changes (the cursor and the configuration in Redis and the table, the translation
 * cache, and the records of what it sent, asked and slept), with one method per
 * method of the command. Each method is tied to the function of the Dispatch or
 * Translation module that specifies it, so what is proved there holds of the command.
 */
module Worker {
  import opened Php
  import opened Catalog
  import opened Detect
  import opened Callback
  import opened ConfigStore
  import opened Translation
  import opened Dispatch

  class FetchTelegramMessages {
    const env: Env

    var cursor: Option<int>
    var configCache: Cache
    var table: Table
    var translations: map<string, string>
    var outbox: seq<Outgoing>
    var gptRequests: seq<GptRequest>
    var backoffs: seq<int>
    var googleCalls: seq<GoogleCall>
    var polls: seq<int>
    /** An exception escaped: the command has ended. */
    var crashed: bool

    /** The state of the command as a value. */
    ghost function Current(): World
      reads this
    {
      World(cursor, configCache, table, translations, outbox, gptRequests, backoffs, googleCalls, polls, crashed)
    }

    constructor (env: Env, start: World)
      ensures this.env == env && Current() == start
    {
      this.env := env;
      cursor := start.cursor;
      configCache := start.configCache;
      table := start.table;
      translations := start.translations;
      outbox := start.outbox;
      gptRequests := start.gptRequests;
      backoffs := start.backoffs;
      googleCalls := start.googleCalls;
      polls := start.polls;
      crashed := start.crashed;
    }

    // -------------------------------------------------------------------------
    // handle

    /** handle: poll at the cursor plus one, then handle the batch the poll returned. */
    method Handle(batches: seq<seq<Update>>)
      modifies this
      ensures Current() == RunAll(env, old(Current()), batches)
    {
      var stored := GetLastUpdateId();
      var lastUpdateId := stored.GetOr(0);
      var n := 0;
      while n < |batches| && !crashed
        invariant 0 <= n <= |batches|
        invariant lastUpdateId == cursor.GetOr(0)
        invariant RunAll(env, Current(), batches[n..]) == RunAll(env, old(Current()), batches)
        decreases |batches| - n
      {
        ghost var before := Current();
        assert NextOffset(before) == lastUpdateId + 1;
        var updates := GetContentTelegram(lastUpdateId, batches[n]);
        ghost var polled := Current();
        lastUpdateId := HandleBatch(updates, lastUpdateId);
        RunAllUnfold(env, old(Current()), before, polled, Current(), batches, n);
        n := n + 1;
      }
    }

    /**
     * getContentTelegram: ask for the updates after `lastUpdateId`; `response` is what
     * this poll returns, already decoded.
     */
    method GetContentTelegram(lastUpdateId: int, response: seq<Update>) returns (updates: seq<Update>)
      modifies this
      ensures updates == response
      ensures Current() == old(Current()).(polls := old(polls) + [lastUpdateId + 1])
    {
      polls := polls + [lastUpdateId + 1];
      return response;
    }

    /** The foreach over one batch: store each update's id as the cursor, then handle the update. */
    method HandleBatch(batch: seq<Update>, lastIn: int) returns (lastUpdateId: int)
      requires lastIn == cursor.GetOr(0)
      modifies this
      ensures lastUpdateId == cursor.GetOr(0)
      ensures Current() == RunBatch(env, old(Current()), batch)
    {
      lastUpdateId := lastIn;
      var i := 0;
      while i < |batch| && !crashed
        invariant 0 <= i <= |batch|
        invariant lastUpdateId == cursor.GetOr(0)
        invariant RunBatch(env, Current(), batch[i..]) == RunBatch(env, old(Current()), batch)
        decreases |batch| - i
      {
        ghost var before := Current();
        lastUpdateId := HandleUpdate(batch[i]);
        RunBatchUnfold(env, old(Current()), before, Current(), batch, i);
        i := i + 1;
      }
    }

    /** One pass of the foreach: store the update's id as the cursor, then dispatch on its kind. */
    method HandleUpdate(message: Update) returns (lastUpdateId: int)
      modifies this
      ensures lastUpdateId == message.updateId && cursor == Some(lastUpdateId)
      ensures Current() == Step(env, old(Current()), message)
    {
      lastUpdateId := SetLastUpdateId(message.updateId);
      ghost var mid := Current();
      match message.body {
        case CallbackQuery(chatId, data) =>
          ProcessCallBack(chatId, data);
          assert Current() == Dispatch.Dispatch(env, mid, message.body);
        case Message(chatId, text, messageId) =>
          HandleMessage(chatId, text, messageId);
          assert Current() == Dispatch.Dispatch(env, mid, message.body);
      }
    }

    /** The body of the foreach for an update that is not a callback. */
    method HandleMessage(chatId: Option<int>, text: Option<string>, messageId: Option<int>)
      modifies this
      ensures Current() == Dispatch.HandleMessage(env, old(Current()), chatId, text, messageId)
    {
      if NoChat(chatId) {
        return;
      }
      var chat := chatId.value;
      var allowed := CheckWhiteChatId(chat);
      if !allowed {
        return;
      }
      var t := text.GetOr("");
      if t == ModelCommand {
        SendModelOptions(chat);
      } else if t == LanguageCommand {
        SendLanguageOptions(chat);
      } else if t == ChatIdCommand {
        SendChatId(chat);
      } else {
        var config := GetTelegramGroupConfig(chat);
        if config.None? {
          SendLanguageOptions(chat);
          return;
        }
        var row := config.value;
        var reply: Option<string>;
        if row.modelId == GoogleTranslate {
          reply := GoogleTrans(row.targetLanguage, t);
        } else if row.modelId == ChatGpt {
          var translated := ChatGptTrans(row.targetLanguage, t);
          reply := Some(translated);
        } else {
          reply := Some("");
        }
        SendTelegram(Outgoing(chat, reply, messageId, None));
      }
    }

    /** processCallBack. */
    method ProcessCallBack(chatId: Option<int>, data: Option<string>)
      modifies this
      ensures Current() == Dispatch.ProcessCallBack(env, old(Current()), chatId, data)
    {
      if NoChat(chatId) {
        return;
      }
      var chat := chatId.value;
      var allowed := CheckWhiteChatId(chat);
      if !allowed {
        return;
      }
      if FalsyOrNull(data) {
        return;
      }
      var callbackData := data.value;
      if StartsWith(callbackData, LangPrefix) {
        var langCode := Substr(callbackData, 5);
        SetTelegramGroupConfig(chat, WriteLanguage(langCode));
      } else if StartsWith(callbackData, ModelPrefix) {
        var modelId := Substr(callbackData, 6);
        SetTelegramGroupConfig(chat, WriteModel(modelId));
      }
    }

    // -------------------------------------------------------------------------
    // Prompts

    /** sendLanguageOptions: one row per language, in table order. */
    method SendLanguageOptions(chat: int)
      modifies this
      ensures Current() == Send(old(Current()), LanguageOptions(chat))
    {
      var keyboard: Keyboard := [];
      var i := 0;
      while i < |Languages|
        invariant 0 <= i <= |Languages|
        invariant |keyboard| == i
        invariant forall j :: 0 <= j < i ==> keyboard[j] == [Button(Languages[j].name, LangPrefix + Languages[j].code)]
      {
        keyboard := keyboard + [[Button(Languages[i].name, LangPrefix + Languages[i].code)]];
        i := i + 1;
      }
      assert keyboard == LanguageKeyboard();
      SendTelegram(Outgoing(chat, Some(LanguagePrompt), None, Some(keyboard)));
    }

    /** sendChatId. */
    method SendChatId(chat: int)
      modifies this
      ensures Current() == Send(old(Current()), ChatIdMessage(chat))
    {
      SendTelegram(Outgoing(chat, Some(ChatIdPrefix + DecimalString(chat)), None, None));
    }

    /** sendModelOptions: one row per engine, the id rendered into the callback data. */
    method SendModelOptions(chat: int)
      modifies this
      ensures Current() == Send(old(Current()), ModelOptionsMessage(chat))
    {
      var keyboard: Keyboard := [];
      var i := 0;
      while i < |ModelOptions|
        invariant 0 <= i <= |ModelOptions|
        invariant |keyboard| == i
        invariant forall j :: 0 <= j < i ==>
          keyboard[j] == [Button(ModelOptions[j].caption, ModelPrefix + DecimalString(ModelOptions[j].id))]
      {
        keyboard := keyboard + [[Button(ModelOptions[i].caption, ModelPrefix + DecimalString(ModelOptions[i].id))]];
        i := i + 1;
      }
      assert keyboard == ModelKeyboard();
      SendTelegram(Outgoing(chat, Some(ModelPrompt), None, Some(keyboard)));
    }

    /** sendTelegram: the message is sent (appended to what was sent). */
    method SendTelegram(m: Outgoing)
      modifies this
      ensures Current() == Send(old(Current()), m)
    {
      outbox := outbox + [m];
    }

    // -------------------------------------------------------------------------
    // The configuration

    /** setChatChannelConfig; `saved` is false when the write threw. */
    method SetChatChannelConfig(chat: int, write: ConfigWrite) returns (saved: bool)
      modifies this
      ensures saved == Upsert(old(table), chat, write).Some?
      ensures Current() == SaveConfig(old(Current()), chat, write)
    {
      var updated := Upsert(table, chat, write);
      if updated.None? {
        crashed := true;
        return false;
      }
      table := updated.value;
      configCache := configCache - {chat};
      return true;
    }

    /** getTelegramGroupConfig. */
    method GetTelegramGroupConfig(chat: int) returns (config: Option<Row>)
      modifies this
      ensures var read := ReadThrough(old(configCache), old(table), chat);
        config == read.config && Current() == old(Current()).(configCache := read.cache)
    {
      config := if chat in configCache then configCache[chat] else None;
      if config.None? {
        config := if chat in table then Some(table[chat]) else None;
        configCache := configCache[chat := config];
      }
    }

    /** setTelegramGroupConfig. */
    method SetTelegramGroupConfig(chat: int, write: ConfigWrite)
      modifies this
      ensures Current() == SetConfig(old(Current()), chat, write)
    {
      var saved := SetChatChannelConfig(chat, write);
      if !saved {
        return;
      }
      var message: string;
      match write {
        case WriteLanguage(langCode) =>
          message := LanguageUpdated + LanguageName(langCode);
        case WriteModel(modelId) =>
          var name := ModelNameByKey(modelId);
          if name.None? {
            crashed := true;
            return;
          }
          message := ModelUpdated + name.value;
      }
      SendTelegram(Outgoing(chat, Some(message), None, None));
    }

    /** setLastUpdateId. */
    method SetLastUpdateId(lastUpdateId: int) returns (r: int)
      modifies this
      ensures r == lastUpdateId
      ensures Current() == old(Current()).(cursor := Some(lastUpdateId))
    {
      cursor := Some(lastUpdateId);
      return lastUpdateId;
    }

    /** getLastUpdateId: the stored cursor, None when nothing is stored. */
    method GetLastUpdateId() returns (r: Option<int>)
      ensures r == cursor
    {
      return cursor;
    }

    /** checkWhiteChatId: some comma-separated entry of the setting reads as the chat id. */
    method CheckWhiteChatId(chat: int) returns (allowed: bool)
      ensures allowed == Allowed(env.allowList, chat)
    {
      var whiteChatIds := Explode(env.allowList);
      allowed := exists i :: 0 <= i < |whiteChatIds| && LooseEqualsInt(chat, whiteChatIds[i]);
    }

    // -------------------------------------------------------------------------
    // The engines

    /** googleTrans. */
    method GoogleTrans(channelTargetLang: string, text: string) returns (r: Option<string>)
      modifies this
      ensures var g := Translation.GoogleTrans(env.detect, env.translate, channelTargetLang, text);
        r == g.result && Current() == old(Current()).(googleCalls := old(googleCalls) + g.calls)
    {
      var originalLanguage := env.detect(text);
      googleCalls := googleCalls + [DetectCall(text)];
      var dest := channelTargetLang;
      if SameLanguage(originalLanguage, channelTargetLang) {
        dest := GoogleChinese;
      }
      r := env.translate(text, dest);
      googleCalls := googleCalls + [TranslateCall(text, dest)];
    }

    /** chatGPTTrans: guards, direction, cache, then at most three attempts. */
    method ChatGptTrans(channelTargetLang: string, text: string) returns (r: string)
      modifies this
      ensures var o := Translation.ChatGptTrans(env.apiKey, env.md5, env.gpt, |old(gptRequests)|, old(translations),
                                                channelTargetLang, text);
        r == o.result
        && Current() == old(Current()).(translations := o.cache, gptRequests := old(gptRequests) + o.requests,
                                        backoffs := old(backoffs) + o.delays)
    {
      if Falsy(text) || Falsy(channelTargetLang) {
        return text;
      }
      if FalsyOrNull(env.apiKey) {
        return text;
      }
      var found := Find(GptLanguages, channelTargetLang);
      if found.None? {
        return text;
      }
      var targetLangName := found.value;
      var isSimplifiedChinese := IsSimplifiedChinese(text);
      var isTargetLangText := IsTextInLanguage(text, channelTargetLang);
      var sourceLang := SimplifiedChinese;
      var destLang := targetLangName;
      if isSimplifiedChinese {
        sourceLang := SimplifiedChinese;
        destLang := targetLangName;
      } else if isTargetLangText {
        sourceLang := targetLangName;
        destLang := SimplifiedChinese;
      }
      var cacheKey := CacheKey(Direction(sourceLang, destLang), env.md5(text));
      assert !Guarded(env.apiKey, channelTargetLang, text);
      assert Direction(sourceLang, destLang) == DirectionFor(channelTargetLang, text);
      assert cacheKey == KeyFor(env.md5, channelTargetLang, text);
      if cacheKey in translations && !Falsy(translations[cacheKey]) {
        CacheHitNoCall(env.apiKey, env.md5, env.gpt, |gptRequests|, translations, channelTargetLang, text);
        return translations[cacheKey];
      }
      ChatGptTransMiss(env.apiKey, env.md5, env.gpt, |gptRequests|, translations, channelTargetLang, text);
      var translated := RequestTranslation(GptRequest(sourceLang, destLang, text), cacheKey);
      return translated.GetOr(text);
    }

    /**
     * The retry loop of chatGPTTrans on the requests from number `first` on: at most
     * three attempts, a retry only after a 429 before the last, with the delay doubling
     * from 2000 ms. It returns the truthy completion (None is every way of giving up),
     * the number of calls made and the delays slept before the retries.
     */
    method RetryLoop(first: nat) returns (result: Option<string>, calls: nat, delays: seq<int>)
      ensures Attempts(result, calls, delays) == Retry(env.gpt, first, 1, InitialDelay)
    {
      var maxRetries := MaxRetries;
      var retryDelay := InitialDelay;
      var attempt := 1;
      calls := 0;
      delays := [];
      result := None;
      ghost var total := Retry(env.gpt, first, 1, InitialDelay);
      while attempt <= maxRetries
        invariant 1 <= attempt <= MaxRetries + 1 && calls == attempt - 1 && result == None
        invariant var a := Retry(env.gpt, first, attempt, retryDelay);
          total == Attempts(a.translated, calls + a.calls, delays + a.delays)
        decreases MaxRetries + 1 - attempt
      {
        var response := env.gpt(first + calls);
        RetryStep(env.gpt, first, attempt, retryDelay);
        calls := calls + 1;
        match response {
          case Completion(translatedText) =>
            if Truthy(translatedText) {
              result := translatedText;
            }
            return;
          case HttpError(statusCode) =>
            if !(statusCode == Some(TooManyRequests) && attempt < maxRetries) {
              return;
            }
            assert delays + ([retryDelay] + Retry(env.gpt, first, attempt + 1, retryDelay * 2).delays)
                == (delays + [retryDelay]) + Retry(env.gpt, first, attempt + 1, retryDelay * 2).delays;
            delays := delays + [retryDelay];
            retryDelay := retryDelay * 2;
          case Failure =>
            return;
        }
        attempt := attempt + 1;
      }
    }

    /**
     * The requests of one translation: the retry loop's calls are recorded, its delays
     * slept, and a truthy completion is cached under the key.
     */
    method RequestTranslation(request: GptRequest, cacheKey: string) returns (translated: Option<string>)
      modifies this
      ensures var a := Retry(env.gpt, |old(gptRequests)|, 1, InitialDelay);
        && translated == a.translated
        && Current() == old(Current()).(
             translations := if a.translated.Some? then old(translations)[cacheKey := a.translated.value] else old(translations),
             gptRequests := old(gptRequests) + Repeat(request, a.calls),
             backoffs := old(backoffs) + a.delays)
    {
      var result, calls, delays := RetryLoop(|gptRequests|);
      gptRequests := gptRequests + Repeat(request, calls);
      backoffs := backoffs + delays;
      if result.Some? {
        translations := translations[cacheKey := result.value];
      }
      return result;
    }
  }
}
