# FetchTelegramMessages as a verified model

This project models the Laravel console command `telegram:fetch`. The command is a long-polling Telegram bot that translates the messages of group chats on an allow-list.

- **Polling.** The command reads the stored update cursor from Redis. With nothing stored it starts at 0. On each round it asks `getUpdates` for `offset = cursor + 1`. For every update it stores the update's id as the new cursor before handling the update.
- **Allow-list.** Only chats on the comma-separated allow-list (`TELEGRAM_WHITE_CHAT_IDS`) are served. The list is compared with PHP's loose `in_array`. Updates without a chat, or from other chats, only move the cursor.
- **Commands.** `/model` and `/lang` answer with an inline keyboard. `/chatId` answers with the chat's id.
- **Callbacks.** A button sends `lang_<code>` or `model_<id>`. The callback upserts the chat's row in `telegram_group_configs`, deletes the Redis copy of the row, and confirms the change by name. Other callback data is ignored.
- **Configuration reads.** Reads are cache-aside: a non-empty cached value is used. Otherwise the row is read from the table and cached; a missing row is cached as JSON `null`.
- **Unconfigured chats.** Any other text from a chat without a row gets the language keyboard.
- **Configured chats.** Text from a configured chat is translated by the chat's engine. The reply is threaded on the incoming message.
  - Engine 1 is Google Translate: it detects the text's language, then translates. When the detected language already is the target, the text goes into Simplified Chinese instead.
  - Engine 2 is ChatGPT. It is guarded by the text, the target, the API key and the five supported languages. Its direction flips to Chinese when the text is already in the target language and is not Simplified Chinese. It answers from a Redis cache keyed by the direction and the md5 of the text. Otherwise it makes at most three provider calls, retrying only on HTTP 429 after 2000 ms and then 4000 ms.
  - Any other engine id replies with the empty string.

Modules, in dependency order:

- `Php` (php.dfy): the PHP semantics the command relies on. These are `explode`/`implode` on commas, `substr`, `str_starts_with`, truthiness, decimal rendering of integers, array-key casting, and the integer-numeric-string rule behind `int == string`.
- `Catalog` (catalog.dfy): the engine constants and `TRANSLATE_MODEL` of `TelegramGroupConfigEnum`, the language tables of the command, and their lookups.
- `Detect` (detect.dfy): the script detectors (`isSimplifiedChinese`, `isTextInLanguage`) over code points, and the choice of translation direction for both engines.
- `Callback` (callback.dfy): the two inline keyboards, and the decoding of callback data with its round trip.
- `ConfigStore` (config_store.dfy): the table with its column rules, the Redis cache, upsert-then-invalidate, and read-through.
- `Translation` (translation.dfy): `googleTrans` and `chatGPTTrans`, including the retry loop as a recursive specification.
- `Dispatch` (dispatch.dfy): the whole command as functions on a `World` value. A `World` holds the cursor, the cache, the table, the translation cache, the messages sent, the provider requests, the back-off delays, the Google calls, the polls, and whether an exception ended the run. The module covers one update (`Step`), one batch (`RunBatch`) and a run of batches (`RunAll`), with the lemmas about them.
- `Worker` (worker.dfy): the class `FetchTelegramMessages`, whose fields are that state and whose methods are the command's methods. Each method's `ensures` ties its new state to the `Dispatch` or `Translation` function that specifies it, so the lemmas proved there are about the command. The `for ($attempt …)` retry loop and the loops that build the keyboards are `while` loops with invariants.

The environment is a parameter (`Dispatch.Env`). It holds the allow-list, the API key, the md5 function, the Google endpoints as functions of their request, and the ChatGPT endpoint as a function of the global call number, so any sequence of responses can be supplied. The updates `getUpdates` returns are the elements of a finite sequence of batches.

An exception that escapes `handle` ends the command. The model records it as `crashed`, and nothing changes after it. There are two such exceptions: the table refuses a write, or the confirmation of an unknown engine id reads an undefined key of `TRANSLATE_MODEL`.

Three consequences of the code are stated outright:

- The cursor after a batch is the id of the last update handled, since each update's id is stored in turn. It is the largest id only when the ids ascend (`CursorIsLargestWhenAscending`).
- Every `lang_` suffix is stored, even a code outside the catalog. Such a code is confirmed as `未知语言`.
- A `model_` id outside the catalog that the column accepts, for a chat that already has a row, is written to the table first. Only then does the confirmation read `TRANSLATE_MODEL` at that id and throw. An id the column refuses, or any id for a chat without a row, throws with nothing written.

## Model

| member | source | states |
|---|---|---|
| Php.Substr | app/Console/Commands/FetchTelegramMessages.php:118-121 | `substr($s, $n)` is the tail from position n, and "" when n is past the end |
| Php.Explode | app/Console/Commands/FetchTelegramMessages.php:569 | `explode(',', s)` always yields at least one piece, and no piece contains a comma |
| Php.ImplodeExplode | app/Console/Commands/FetchTelegramMessages.php:569 | joining the pieces of `explode` with commas gives the string back |
| Php.ExplodeImplode | app/Console/Commands/FetchTelegramMessages.php:569 | splitting a comma-join of at least one comma-free piece gives the pieces back |
| Php.NatString | app/Console/Commands/FetchTelegramMessages.php:153 | the rendering of a natural number is a non-empty digit string, with a leading zero only for 0 |
| Php.NatStringValue | app/Console/Commands/FetchTelegramMessages.php:153 | the decimal rendering of a natural number reads back as that number |
| Php.DecimalString | app/Console/Commands/FetchTelegramMessages.php:153 | the rendering of an integer is a minus sign exactly when it is negative, followed by the digits of its absolute value |
| Php.CanonicalDigitsRender | app/Console/Commands/FetchTelegramMessages.php:525 | a canonical digit string (no leading zero) is the rendering of its value |
| Php.ArrayKey | app/Console/Commands/FetchTelegramMessages.php:525 | a string used as an array key becomes an integer key only when it is the decimal rendering of that integer |
| Php.ArrayKeyOfDecimal | app/Console/Commands/FetchTelegramMessages.php:525 | the rendering of any integer is cast back to that integer key |
| Php.NumericIntOfDecimal | app/Console/Commands/FetchTelegramMessages.php:570 | the rendering of an integer reads back as that integer under PHP's numeric-string rule |
| Php.NumericInt | app/Console/Commands/FetchTelegramMessages.php:570 | a digit string reads as its value, and a minus sign followed by digits reads as the negated value |
| Php.LooseEqualsInt | app/Console/Commands/FetchTelegramMessages.php:570 | `int == string` holds exactly when the string reads as an integer numeric string of that value |
| Php.LooseEqualsIntPadded | app/Console/Commands/FetchTelegramMessages.php:570 | `42 == " 42"` holds: white space around the number is allowed |
| Php.LooseEqualsIntRefusesText | app/Console/Commands/FetchTelegramMessages.php:570 | `0 == "abc"`, `0 == ""` and `4 == "4a"` are false: a string that is not numeric equals no integer |
| Php.NotNumericWithLetter | app/Console/Commands/FetchTelegramMessages.php:570 | a string with a character that is no digit, sign or white space is not an integer numeric string |
| Php.LooseEqualsStringsSpec | app/Console/Commands/FetchTelegramMessages.php:185 | two strings are loosely equal exactly when they are identical or both read as the same integer; "01" equals "1", and "ja" does not equal "JA" |
| Catalog.Find | app/Console/Commands/FetchTelegramMessages.php:178 | a lookup finds a name exactly when the code is in the table, and the name found is that code's |
| Catalog.LanguageName | app/Console/Commands/FetchTelegramMessages.php:176-179 | the name is either `未知语言` or the name of a table entry with that code |
| Catalog.EngineIdsDistinct | app/Http/Enums/Model/TelegramGroupConfigEnum.php:7-8 | the two engine ids are 1 and 2, and they differ |
| Catalog.TranslateModelTable | app/Http/Enums/Model/TelegramGroupConfigEnum.php:10-13 | `TRANSLATE_MODEL` has exactly the keys 1 and 2, named "Google Translate" and "Chat GPT", and the column default is one of them |
| Catalog.LanguageCodesInOrder | app/Console/Commands/FetchTelegramMessages.php:18-24 | the language table lists ja, ko, en, ar, tr in that order, and the ChatGPT table has the same codes |
| Catalog.LanguageNameSpec | app/Console/Commands/FetchTelegramMessages.php:176-179 | a listed code is named from the table, and any other code falls back to `未知语言` |
| Catalog.UnlistedCodeFallsBack | app/Console/Commands/FetchTelegramMessages.php:178 | a code outside the five is named `未知语言` |
| Catalog.GptLanguageSupported | app/Console/Commands/FetchTelegramMessages.php:212-226 | the ChatGPT guard accepts exactly the five codes of the language keyboard |
| Catalog.ModelNameByKeySpec | app/Console/Commands/FetchTelegramMessages.php:523-525 | the string id of a callback finds a `TRANSLATE_MODEL` name exactly when it is "1" or "2", and it finds that engine's name |
| Catalog.ModelNameByKey | app/Console/Commands/FetchTelegramMessages.php:525 | a name is found only under a key whose decimal rendering is the id, and it is that key's `TRANSLATE_MODEL` name |
| Catalog.ModelOptionsInCatalog | app/Console/Commands/FetchTelegramMessages.php:159-166 | every engine offered on the model keyboard has a `TRANSLATE_MODEL` name |
| Detect.Contains | app/Console/Commands/FetchTelegramMessages.php:362 | true exactly when some character of the text satisfies the class |
| Detect.Every | app/Console/Commands/FetchTelegramMessages.php:388 | true exactly when every character of the text satisfies the class |
| Detect.IsSimplifiedChinese | app/Console/Commands/FetchTelegramMessages.php:358-368 | true exactly when some character is a Han character (U+4E00 to U+9FAF) and none is kana (hiragana or katakana) |
| Detect.IsTextInLanguage | app/Console/Commands/FetchTelegramMessages.php:376-398 | a text passes only when it is non-empty, and only for one of the codes ja, ko, en, ar, tr after lower-casing |
| Detect.ScriptDetectorsMeaning | app/Console/Commands/FetchTelegramMessages.php:380-397 | for ja, ko and ar in any letter case, the test holds exactly when some character is kana, Hangul or Arabic |
| Detect.TurkishDetectorMeaning | app/Console/Commands/FetchTelegramMessages.php:394 | the Turkish test holds exactly when a non-empty run of ASCII letters, Unicode white space or ğüşöçİı ends where `$` matches: at the end of the text, or before a final newline |
| Detect.EnglishDetectorMeaning | app/Console/Commands/FetchTelegramMessages.php:388 | the English test holds exactly when a non-empty run of ASCII letters and ASCII white space runs from the start to where `$` matches |
| Detect.LatinDetectorsDiffer | app/Console/Commands/FetchTelegramMessages.php:386-394 | every text the English test accepts the Turkish test accepts too; "1 abc" passes only the Turkish one |
| Detect.ChatGptDirectionSpec | app/Console/Commands/FetchTelegramMessages.php:228-252 | text that is not Simplified Chinese and is already in the target goes into Chinese; all other text goes from Chinese into the target |
| Detect.ChatGptDirection | app/Console/Commands/FetchTelegramMessages.php:234-252 | the direction is Chinese to target or target to Chinese; it goes into Chinese only when the text is in the target language and is not Simplified Chinese |
| Detect.KanaTextFlipsForJapanese | app/Console/Commands/FetchTelegramMessages.php:238-245 | Japanese kana text with target ja is translated into Chinese |
| Detect.ChineseTextNeverFlips | app/Console/Commands/FetchTelegramMessages.php:238-241 | Simplified Chinese text always goes from Chinese into the target |
| Detect.GoogleDestinationSpec | app/Console/Commands/FetchTelegramMessages.php:185-188 | Google translates into zh-CN exactly when the detection equals the target under PHP 8's loose `==`, and into the target otherwise; a detected "01" equals a target "1", while "JA" does not equal "ja" |
| Detect.GoogleDestination | app/Console/Commands/FetchTelegramMessages.php:185-188 | the destination is zh-CN or the target, and it differs from the target only when the detection equals the target |
| Detect.CatalogCodesCompareExactly | app/Console/Commands/FetchTelegramMessages.php:185 | a detection equals one of the five catalog codes only when it is that very code |
| Detect.NiHaoScenario | app/Console/Commands/FetchTelegramMessages.php:183-252 | "你好" is Simplified Chinese; detected as zh-CN with target ja, Google is asked for ja, and ChatGPT translates from Simplified Chinese into Japanese |
| Callback.LanguageRows | app/Console/Commands/FetchTelegramMessages.php:137-140 | one single-button row per language, in table order, captioned with the name and sending `lang_<code>` |
| Callback.ModelRows | app/Console/Commands/FetchTelegramMessages.php:164-167 | one single-button row per engine, in order, captioned with its caption and sending `model_<id>` |
| Callback.DecodeCallback | app/Console/Commands/FetchTelegramMessages.php:117-123 | `lang_` wins over `model_`; a recognised datum is the prefix followed by the decoded suffix; anything else is unrecognised |
| Callback.DecodeEncode | app/Console/Commands/FetchTelegramMessages.php:117-123 | decoding the data of a selection gives back that selection |
| Callback.EncodeDecode | app/Console/Commands/FetchTelegramMessages.php:117-123 | a recognised callback datum is exactly the encoding of what it decodes to |
| Callback.LanguageKeyboardShape | app/Console/Commands/FetchTelegramMessages.php:127-140 | the language keyboard has five rows sending lang_ja … lang_tr, and each decodes to its language |
| Callback.ModelKeyboardShape | app/Console/Commands/FetchTelegramMessages.php:157-167 | the model keyboard is exactly the `model_1` and `model_2` rows, and both confirm by their catalog names |
| ConfigStore.Upsert | app/Console/Commands/FetchTelegramMessages.php:400-407 | only the chat's row changes, and only the chosen field; a new row needs a language and gets engine 2; a model write without a row, or one the column refuses, changes nothing and fails |
| ConfigStore.ColumnSmallIntOfRendering | database/migrations/2025_04_10_082842_create_telegram_group_configs_table.php:17 | the unsigned small-integer column accepts the rendering of a natural number exactly when it is at most 65535, and stores that number |
| ConfigStore.ColumnRefusesNonDigits | database/migrations/2025_04_10_082842_create_telegram_group_configs_table.php:17 | the column refuses the empty string and any string with a character that is not a digit |
| ConfigStore.Invalidate | app/Console/Commands/FetchTelegramMessages.php:408-409 | deleting the key removes that chat's cached copy and keeps every other |
| ConfigStore.EmptyCacheFallsThrough | app/Console/Commands/FetchTelegramMessages.php:412-422 | a missing or empty cached value is read from the table, and what was read is cached |
| ConfigStore.ReadThrough | app/Console/Commands/FetchTelegramMessages.php:412-422 | after a read the chat's cache entry holds what the read returns, every other entry is kept, and nothing is returned only when the chat has no row |
| ConfigStore.ReadAfterWrite | app/Console/Commands/FetchTelegramMessages.php:400-422 | after an accepted write and the invalidation, the read returns the row just written |
| ConfigStore.CoherentReadIsDurable | app/Console/Commands/FetchTelegramMessages.php:412-422 | with a coherent cache the read returns the table's row, and the cache stays coherent |
| ConfigStore.WriteKeepsCoherent | app/Console/Commands/FetchTelegramMessages.php:400-410 | write-then-delete keeps every non-empty cached value equal to its row |
| ConfigStore.UpsertIdempotent | app/Console/Commands/FetchTelegramMessages.php:402-407 | repeating an accepted write leaves the table as after one write |
| ConfigStore.LanguageLastWriteWins | app/Console/Commands/FetchTelegramMessages.php:402-407 | of two language writes the later one decides, whatever the first was |
| Translation.GoogleTransSpec | app/Console/Commands/FetchTelegramMessages.php:181-191 | Google is asked to detect and then to translate the same text; it translates into zh-CN exactly when the detection loosely equals the target or the target is zh-CN; the reply is the translation |
| Translation.GoogleTrans | app/Console/Commands/FetchTelegramMessages.php:181-191 | exactly two calls, detect and then translate, both of the text; the translation goes into the target or zh-CN, and its answer is the reply |
| Translation.Retry | app/Console/Commands/FetchTelegramMessages.php:274-350 | from attempt k it makes at most 4-k calls, at least one while attempts remain; its delays are the doubling back-off; a translation it returns is truthy |
| Translation.RetrySpec | app/Console/Commands/FetchTelegramMessages.php:274-350 | every call but the last was a 429 before the last attempt; the last was not; a translation is returned exactly when the last call was a completion with truthy content, and it is that content |
| Translation.RetryBounds | app/Console/Commands/FetchTelegramMessages.php:271-329 | the loop makes one to three calls, and sleeps 2000 ms and then 4000 ms between them |
| Translation.AlwaysRateLimited | app/Console/Commands/FetchTelegramMessages.php:322-330 | a provider that always answers 429 is called three times, with delays 2000 and 4000, and gives nothing |
| Translation.NoRetryUnlessRateLimited | app/Console/Commands/FetchTelegramMessages.php:296-345 | any answer other than a 429 before the last attempt ends the loop after that call, with no delay |
| Translation.ChatGptTrans | app/Console/Commands/FetchTelegramMessages.php:193-351 | at most three requests, with the doubling delays between them; the cache only grows, and only after a request, and only with a truthy reply |
| Translation.GuardsShortCircuit | app/Console/Commands/FetchTelegramMessages.php:196-226 | empty text, empty target, no API key or an unsupported target returns the text untouched, with no cache read and no request |
| Translation.CacheHitNoCall | app/Console/Commands/FetchTelegramMessages.php:254-265 | a truthy cached translation under the direction-and-md5 key is the reply, with no request |
| Translation.CacheMissCallsProvider | app/Console/Commands/FetchTelegramMessages.php:270-350 | on a miss every request carries the chosen direction and the text; a truthy completion is returned and cached under the key; otherwise the text comes back and the cache is unchanged |
| Translation.TranslationIsCached | app/Console/Commands/FetchTelegramMessages.php:255-310 | when the guards pass, the cache misses and the provider answers, the same request is afterwards answered from the cache, at any later call number |
| Dispatch.Allowed | app/Console/Commands/FetchTelegramMessages.php:567-574 | a chat is allowed exactly when some comma-separated entry reads as its id; the empty setting admits no chat |
| Dispatch.AllowedEntriesLoose | app/Console/Commands/FetchTelegramMessages.php:567-574 | the setting " 42" admits chat 42 and not chat 4; "abc" and the empty setting do not admit chat 0 |
| Dispatch.AllowListOfIds | app/Console/Commands/FetchTelegramMessages.php:567-574 | an allow-list written as decimal ids joined by commas admits exactly those ids |
| Dispatch.LanguageOptions | app/Console/Commands/FetchTelegramMessages.php:127-147 | the language prompt goes to the chat unthreaded, with one button per language captioned with its name and decoding to that language |
| Dispatch.ChatIdMessage | app/Console/Commands/FetchTelegramMessages.php:149-155 | the reply to `/chatId` goes to the chat unthreaded and without keyboard; its text is `ChatId：` followed by a string that reads as the chat id |
| Dispatch.ModelOptionsMessage | app/Console/Commands/FetchTelegramMessages.php:157-174 | the model prompt goes to the chat unthreaded, with one button per engine captioned as offered, decoding to that engine's id, which has a `TRANSLATE_MODEL` name |
| Dispatch.Confirmation | app/Console/Commands/FetchTelegramMessages.php:517-526 | a language is confirmed by its name, with the fallback name; a model is confirmed exactly when its id is "1" or "2" |
| Dispatch.SaveConfig | app/Console/Commands/FetchTelegramMessages.php:400-410 | an accepted write updates the table and drops the cached copy; a refused write changes nothing and ends the run |
| Dispatch.SetConfig | app/Console/Commands/FetchTelegramMessages.php:517-533 | storing a selection leaves the cursor and polls alone and sends at most one message; a run that ends here sends nothing |
| Dispatch.ProcessCallBack | app/Console/Commands/FetchTelegramMessages.php:96-125 | a callback sends at most one message and moves neither cursor nor polls; one that ends the run sends nothing |
| Dispatch.Translate | app/Console/Commands/FetchTelegramMessages.php:74-89 | a configured chat gets exactly one reply, to that chat, threaded on the message, with no keyboard; configuration is untouched |
| Dispatch.HandleMessage | app/Console/Commands/FetchTelegramMessages.php:45-90 | a message sends at most one reply, never writes the table and never ends the run |
| Dispatch.Dispatch | app/Console/Commands/FetchTelegramMessages.php:40-90 | handling sends at most one message; only a callback can end the run, and then it sends nothing |
| Dispatch.RunBatch | app/Console/Commands/FetchTelegramMessages.php:36-91 | a batch never polls and only appends messages; once the run has ended nothing changes |
| Dispatch.RunAll | app/Console/Commands/FetchTelegramMessages.php:33-93 | a run only appends polls and messages |
| Dispatch.Step | app/Console/Commands/FetchTelegramMessages.php:37-43 | whatever the handling does, the cursor is the update's id, the polls are untouched and at most one message is appended |
| Dispatch.RunBatchCursorLast | app/Console/Commands/FetchTelegramMessages.php:36-37 | a batch handled to its end leaves the cursor at the id of its last update |
| Dispatch.RunBatchCursor | app/Console/Commands/FetchTelegramMessages.php:36-37 | after a batch the cursor is the id of one of its updates (the last one unless the run ended), and the polls are untouched |
| Dispatch.CursorIsLargestWhenAscending | app/Console/Commands/FetchTelegramMessages.php:36-37 | with ascending ids, the cursor after a complete batch is at least every id in it |
| Dispatch.EmptyBatch | app/Console/Commands/FetchTelegramMessages.php:36 | an empty batch changes nothing |
| Dispatch.FirstPoll | app/Console/Commands/FetchTelegramMessages.php:31-34 | the first poll asks for the stored cursor plus one, or 1 when none is stored |
| Dispatch.NextOffset | app/Console/Commands/FetchTelegramMessages.php:456-459 | the offset asked for selects exactly the updates whose id is above the stored cursor (0 when none is stored) |
| Dispatch.NextPollFollowsLastUpdate | app/Console/Commands/FetchTelegramMessages.php:456-459 | after a complete batch the next poll asks for its last id plus one |
| Dispatch.StrangerIgnored | app/Console/Commands/FetchTelegramMessages.php:45-58 | an update with no chat, or from a chat off the list, only moves the cursor |
| Dispatch.IgnoredCallback | app/Console/Commands/FetchTelegramMessages.php:112-123 | a callback with empty data, or data of neither prefix, only moves the cursor |
| Dispatch.CommandsReply | app/Console/Commands/FetchTelegramMessages.php:60-65 | `/model`, `/lang` and `/chatId` send their prompt, or `ChatId：<id>`, and change nothing else |
| Dispatch.UnconfiguredChatPrompted | app/Console/Commands/FetchTelegramMessages.php:67-72 | other text from an unconfigured chat gets the language keyboard, with no translation call |
| Dispatch.TranslationReplyThreaded | app/Console/Commands/FetchTelegramMessages.php:74-89 | a configured chat gets one threaded reply: Google's answer for engine 1, the result of `ChatGptTrans` for engine 2 (with no Google call), and "" with no call for any other id |
| Dispatch.LanguageChosen | app/Console/Commands/FetchTelegramMessages.php:117-119 | choosing a language stores it (a new row gets engine 2), drops the cached copy, and confirms by name |
| Dispatch.UnknownLanguageStored | app/Console/Commands/FetchTelegramMessages.php:517-522 | any code outside the catalog is stored all the same and confirmed as `未知语言` |
| Dispatch.ModelChosen | app/Console/Commands/FetchTelegramMessages.php:120-122 | choosing engine 1 or 2 for a configured chat stores it, drops the cached copy, and confirms with its `TRANSLATE_MODEL` name |
| Dispatch.ModelBeforeLanguageThrows | database/migrations/2025_04_10_082842_create_telegram_group_configs_table.php:18 | choosing an engine before any language throws with nothing written and nothing sent |
| Dispatch.UnknownModelWrittenThenThrows | app/Console/Commands/FetchTelegramMessages.php:523-525 | for a chat with a row, any id the column accepts other than 1 and 2 is written to the row and the cached copy dropped, then the confirmation throws with nothing sent |
| Dispatch.ChosenLanguageIsRead | app/Console/Commands/FetchTelegramMessages.php:400-422 | after a language is chosen, the next configuration read of that chat finds it |
| Dispatch.StrangersLeaveNoTrace | app/Console/Commands/FetchTelegramMessages.php:45-58 | a batch of updates from strangers changes nothing but the cursor |
| Worker.FetchTelegramMessages.Handle | app/Console/Commands/FetchTelegramMessages.php:26-94 | the command's new state is `RunAll` of the state it started in, over the batches polled |
| Worker.FetchTelegramMessages.GetContentTelegram | app/Console/Commands/FetchTelegramMessages.php:456-470 | exactly one poll, at offset cursor plus one; the updates returned are the batch |
| Worker.FetchTelegramMessages.HandleBatch | app/Console/Commands/FetchTelegramMessages.php:36-90 | the new state is `RunBatch` of the old state over the batch, and the returned id is the new cursor |
| Worker.FetchTelegramMessages.HandleUpdate | app/Console/Commands/FetchTelegramMessages.php:37-43 | the update's id is stored and returned, and the new state is `Step` of the old |
| Worker.FetchTelegramMessages.HandleMessage | app/Console/Commands/FetchTelegramMessages.php:45-90 | the new state is `Dispatch.HandleMessage` of the old |
| Worker.FetchTelegramMessages.ProcessCallBack | app/Console/Commands/FetchTelegramMessages.php:96-125 | the new state is `Dispatch.ProcessCallBack` of the old |
| Worker.FetchTelegramMessages.SendLanguageOptions | app/Console/Commands/FetchTelegramMessages.php:127-147 | the keyboard built row by row is the language keyboard, and exactly that message is sent |
| Worker.FetchTelegramMessages.SendChatId | app/Console/Commands/FetchTelegramMessages.php:149-155 | exactly the message `ChatId：<id>` is sent |
| Worker.FetchTelegramMessages.SendModelOptions | app/Console/Commands/FetchTelegramMessages.php:157-174 | the keyboard built row by row is the model keyboard, and exactly that message is sent |
| Worker.FetchTelegramMessages.SendTelegram | app/Console/Commands/FetchTelegramMessages.php:424-429 | one message is appended to what was sent, and nothing else changes |
| Worker.FetchTelegramMessages.SetChatChannelConfig | app/Console/Commands/FetchTelegramMessages.php:400-410 | the new state is `SaveConfig` of the old |
| Worker.FetchTelegramMessages.GetTelegramGroupConfig | app/Console/Commands/FetchTelegramMessages.php:412-422 | it returns what `ReadThrough` finds and leaves the cache `ReadThrough` leaves |
| Worker.FetchTelegramMessages.SetTelegramGroupConfig | app/Console/Commands/FetchTelegramMessages.php:517-533 | the new state is `SetConfig` of the old |
| Worker.FetchTelegramMessages.SetLastUpdateId | app/Console/Commands/FetchTelegramMessages.php:554-559 | the cursor becomes the id, and nothing else changes |
| Worker.FetchTelegramMessages.GetLastUpdateId | app/Console/Commands/FetchTelegramMessages.php:561-565 | returns the stored cursor and changes nothing |
| Worker.FetchTelegramMessages.CheckWhiteChatId | app/Console/Commands/FetchTelegramMessages.php:567-574 | returns `Allowed` of the setting and the id, so true exactly when some allow-list entry reads as the chat id; changes nothing |
| Worker.FetchTelegramMessages.GoogleTrans | app/Console/Commands/FetchTelegramMessages.php:181-191 | returns `Translation.GoogleTrans`'s reply and records its two calls |
| Worker.FetchTelegramMessages.ChatGptTrans | app/Console/Commands/FetchTelegramMessages.php:193-351 | the reply, the translation cache, the requests and the delays are those of `Translation.ChatGptTrans` |
| Worker.FetchTelegramMessages.RetryLoop | app/Console/Commands/FetchTelegramMessages.php:270-350 | the `for ($attempt …)` loop computes exactly `Translation.Retry` from attempt 1 with delay 2000, and changes nothing |
| Worker.FetchTelegramMessages.RequestTranslation | app/Console/Commands/FetchTelegramMessages.php:296-310 | one request is recorded per call and the delays are recorded; a translation is cached under the key |

## Left out

- HTTP transport (`file_get_contents`, Guzzle, `execCurl`, `http_build_query`) and JSON encoding and decoding are left out. Endpoints are functions, and a message sent is a structured `Outgoing` value, not its JSON text.
- Exceptions on the Google path are left out: the two Google endpoints always answer, and a missing translation is `None`. Exceptions inside `sendTelegram` are caught by the source and change no state here.
- A failed or malformed `getUpdates` response is not modelled separately. It yields no `result`, so it is an empty batch.
- The `translate` method (FetchTelegramMessages.php:472-494) is never called. It is not part of this model, and neither are `translateFromGoogle` and `googleDetectLanguage` beyond what `googleTrans` does with the two endpoints.
- `md5` is a parameter function with no properties assumed.
- Detection works on code points. Invalid UTF-8, where `preg_match` returns false, is not modelled.
- `sleep(1)` between polls is not recorded. `usleep` is recorded only as the list of back-off delays.
- Logging is not modelled.
- The prompt text, model name, temperature, `max_tokens` and headers of the ChatGPT request are left out. The request records only the direction and the text.
- The ChatGPT response is reduced to completion content, HTTP status or failure. Non-string content is not modelled.
- The 86400-second expiry of cached translations is not modelled: entries never expire.
- Scheduling by the console kernel and several workers sharing Redis are left out. The infinite `while (true)` is a finite sequence of batches.
- The bot token, URLs and Redis key names are left out. Each Redis key family is a field or map of the state.
- Only the two columns the command reads are modelled. `id` and the timestamps of a row are left out, for both the table and its cached copy.
- A missing `TELEGRAM_WHITE_CHAT_IDS` (null) is not distinguished from the empty string.
- Type errors from the `int` parameter declarations (a non-integer chat id in an update) are not modelled. Updates carry integer ids or none.
- Php.LooseEqualsInt: covers integer numeric strings with leading or trailing whitespace only. Fractional or exponent strings such as "12.0" or "1.2e1", which PHP 8 also compares equal to 12, never match here.
- Php.LooseEqualsStrings: two strings are compared by value only when both are integer numeric strings. Fractional or exponent strings such as "1.0" against "1", which PHP 8 also compares by value, are compared as text. This comparison decides the Google destination (`Detect.SameLanguage`).
- ConfigStore.ColumnRefusesNonDigits: the model assumes a strict-mode server, which refuses any string into the unsigned small-integer column unless it is non-empty digits up to 65535. Strings with spaces, signs or a fractional part are refused. How the actual database coerces them is not modelled.
- ConfigStore.ColumnSmallIntOfRendering: the same strict-mode assumption; numbers above 65535 are refused, not clamped.
- Integer widths are not modelled: chat ids, update ids and the cursor are unbounded, with no `PHP_INT_MAX` overflow to float.
