/**
 * The static catalog: the translation-engine identifiers and their display names
 * (TelegramGroupConfigEnum), the language table shown to users, the English language
 * names the ChatGPT prompt is phrased in, and the engine labels of the model keyboard.
 */
module Catalog {
  import opened Php

  /** TRANSLATE_MODEL_GOOGLE_TRANSLATE */
  const GoogleTranslate: int := 1
  /** TRANSLATE_MODEL_CHATGPT */
  const ChatGpt: int := 2

  /** TRANSLATE_MODEL: engine id to display name. */
  const TranslateModel: map<int, string> := map[GoogleTranslate := "Google Translate", ChatGpt := "Chat GPT"]

  /** The engine a freshly created durable row gets (the column default of the table). */
  const DefaultModel: int := ChatGpt

  /** One entry of an ordered code-to-name table (a PHP array with string keys). */
  datatype Entry = Entry(code: string, name: string)

  /** The target languages with their Chinese display names, in keyboard order. */
  const Languages: seq<Entry> := [
    Entry("ja", "日文"),
    Entry("ko", "韩文"),
    Entry("en", "英文"),
    Entry("ar", "阿拉伯语"),
    Entry("tr", "土耳其语")
  ]

  /** The fallback name of a language code the table does not hold. */
  const UnknownLanguage: string := "未知语言"

  /** The English names the ChatGPT prompt uses (`$languageMap`). */
  const GptLanguages: seq<Entry> := [
    Entry("ja", "Japanese"),
    Entry("ko", "Korean"),
    Entry("en", "English"),
    Entry("ar", "Arabic"),
    Entry("tr", "Turkish")
  ]

  /** An engine as the model keyboard lists it: id and button caption. */
  datatype Engine = Engine(id: int, caption: string)

  /** The engines of the model keyboard, in order. */
  const ModelOptions: seq<Engine> := [
    Engine(1, "GoogleTranslate[Google翻譯]"),
    Engine(2, "ChatGPT[ChatGPT]")
  ]

  function Codes(table: seq<Entry>): (codes: seq<string>)
    ensures |codes| == |table|
    ensures forall i :: 0 <= i < |table| ==> codes[i] == table[i].code
  {
    if table == [] then [] else [table[0].code] + Codes(table[1..])
  }

  /** `$table[$code] ?? null`: the name of an entry with that code. */
  function Find(table: seq<Entry>, code: string): (name: Option<string>)
    ensures name.None? <==> forall i :: 0 <= i < |table| ==> table[i].code != code
    ensures name.Some? ==> exists i :: 0 <= i < |table| && table[i].code == code && table[i].name == name.value
    decreases |table|
  {
    if table == [] then None
    else if table[0].code == code then Some(table[0].name)
    else
      var r := Find(table[1..], code);
      assert forall i :: 1 <= i < |table| ==> table[1..][i - 1] == table[i];
      r
  }

  /** No code occurs twice in a table. */
  predicate DistinctCodes(table: seq<Entry>) {
    forall i, j :: 0 <= i < j < |table| ==> table[i].code != table[j].code
  }

  /** getLanguageName: the display name of a code, or the fallback. */
  function LanguageName(code: string): (name: string)
    ensures name == UnknownLanguage
         || exists i :: 0 <= i < |Languages| && Languages[i].code == code && Languages[i].name == name
  {
    Find(Languages, code).GetOr(UnknownLanguage)
  }

  /** `TRANSLATE_MODEL[$key]` for a string key: None is an undefined key. */
  function ModelNameByKey(key: string): (name: Option<string>)
    ensures name.Some? ==> exists k :: k in TranslateModel && key == DecimalString(k) && name.value == TranslateModel[k]
  {
    match ArrayKey(key)
    case Some(k) => if k in TranslateModel then Some(TranslateModel[k]) else None
    case None => None
  }

  // ---------------------------------------------------------------------------
  // Properties of the catalog

  /** The two engine constants are distinct and have the values 1 and 2. */
  lemma EngineIdsDistinct()
    ensures GoogleTranslate == 1 && ChatGpt == 2 && GoogleTranslate != ChatGpt
  {
  }

  /** TRANSLATE_MODEL is defined exactly on the two engine ids, with these names. */
  lemma TranslateModelTable()
    ensures TranslateModel.Keys == {GoogleTranslate, ChatGpt}
    ensures TranslateModel[GoogleTranslate] == "Google Translate"
    ensures TranslateModel[ChatGpt] == "Chat GPT"
    ensures DefaultModel in TranslateModel
  {
  }

  /** The language codes, in keyboard order; the ChatGPT table has the same codes in the same order. */
  lemma LanguageCodesInOrder()
    ensures Codes(Languages) == ["ja", "ko", "en", "ar", "tr"]
    ensures Codes(GptLanguages) == Codes(Languages)
  {
  }

  /** getLanguageName names every catalog language and falls back for every other code. */
  lemma LanguageNameSpec(code: string)
    ensures forall i :: 0 <= i < |Languages| && Languages[i].code == code ==> LanguageName(code) == Languages[i].name
    ensures code !in Codes(Languages) <==> LanguageName(code) == UnknownLanguage
  {
    assert DistinctCodes(Languages);
    assert forall i :: 0 <= i < |Languages| ==> Languages[i].name != UnknownLanguage;
  }

  /** A code other than the five listed is named with the fallback. */
  lemma UnlistedCodeFallsBack(code: string)
    requires code !in ["ja", "ko", "en", "ar", "tr"]
    ensures LanguageName(code) == UnknownLanguage
  {
    LanguageNameSpec(code);
    LanguageCodesInOrder();
  }

  /** The ChatGPT guard accepts exactly the five catalog codes. */
  lemma GptLanguageSupported(code: string)
    ensures Find(GptLanguages, code).Some? <==> code in Codes(Languages)
  {
    LanguageCodesInOrder();
  }

  /**
   * The confirmation lookup `TRANSLATE_MODEL[$modelId]` is defined for exactly the keys "1"
   * and "2": the renderings of the two engine ids, which the model keyboard offers.
   */
  lemma ModelNameByKeySpec(key: string)
    ensures ModelNameByKey(key).Some? <==> key == "1" || key == "2"
    ensures key == "1" ==> ModelNameByKey(key) == Some("Google Translate")
    ensures key == "2" ==> ModelNameByKey(key) == Some("Chat GPT")
  {
    assert DecimalString(1) == "1" && DecimalString(2) == "2";
    ArrayKeyOfDecimal(1);
    ArrayKeyOfDecimal(2);
  }

  /** Every engine the model keyboard offers has a display name in TRANSLATE_MODEL. */
  lemma ModelOptionsInCatalog()
    ensures forall i :: 0 <= i < |ModelOptions| ==>
      ModelOptions[i].id in TranslateModel && ModelNameByKey(DecimalString(ModelOptions[i].id)) == Some(TranslateModel[ModelOptions[i].id])
  {
    ModelNameByKeySpec("1");
    ModelNameByKeySpec("2");
    assert DecimalString(1) == "1" && DecimalString(2) == "2";
  }
}
