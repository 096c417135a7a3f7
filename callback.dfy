/**
 * The inline keyboards of the two selection prompts (sendLanguageOptions,
 * sendModelOptions) and the decoding of the callback data their buttons send back
 * (processCallBack), written as a tagged variant with a fallback case.
 */
module Callback {
  import opened Php
  import opened Catalog

  const LangPrefix: string := "lang_"
  const ModelPrefix: string := "model_"

  /** One inline button: its caption and the callback data it sends. */
  datatype Button = Button(text: string, callbackData: string)

  /** An inline keyboard: rows of buttons. */
  type Keyboard = seq<seq<Button>>

  /** One single-button row per language, in table order. */
  function LanguageRows(table: seq<Entry>): (rows: Keyboard)
    ensures |rows| == |table|
    ensures forall i :: 0 <= i < |table| ==> rows[i] == [Button(table[i].name, LangPrefix + table[i].code)]
    decreases |table|
  {
    if table == [] then [] else [[Button(table[0].name, LangPrefix + table[0].code)]] + LanguageRows(table[1..])
  }

  /** One single-button row per engine, in order; the id is rendered in decimal. */
  function ModelRows(engines: seq<Engine>): (rows: Keyboard)
    ensures |rows| == |engines|
    ensures forall i :: 0 <= i < |engines| ==> rows[i] == [Button(engines[i].caption, ModelPrefix + DecimalString(engines[i].id))]
    decreases |engines|
  {
    if engines == [] then [] else [[Button(engines[0].caption, ModelPrefix + DecimalString(engines[0].id))]] + ModelRows(engines[1..])
  }

  /** The keyboard of the language prompt. */
  function LanguageKeyboard(): Keyboard {
    LanguageRows(Languages)
  }

  /** The keyboard of the model prompt. */
  function ModelKeyboard(): Keyboard {
    ModelRows(ModelOptions)
  }

  /** What a callback asks for. */
  datatype Selection =
    | SetLanguage(code: string)   // "lang_<code>"
    | SetModel(id: string)        // "model_<id>"
    | Unrecognized                // any other data: ignored

  /** The prefix tests of processCallBack, `lang_` first, with `substr` taking the suffix. */
  function DecodeCallback(data: string): (sel: Selection)
    ensures sel.SetLanguage? <==> StartsWith(data, LangPrefix)
    ensures sel.SetModel? <==> !StartsWith(data, LangPrefix) && StartsWith(data, ModelPrefix)
    ensures sel.SetLanguage? ==> data == LangPrefix + sel.code
    ensures sel.SetModel? ==> data == ModelPrefix + sel.id
  {
    if StartsWith(data, LangPrefix) then SetLanguage(Substr(data, |LangPrefix|))
    else if StartsWith(data, ModelPrefix) then SetModel(Substr(data, |ModelPrefix|))
    else Unrecognized
  }

  /** The callback data that asks for a selection. */
  function EncodeSelection(sel: Selection): string
    requires !sel.Unrecognized?
  {
    match sel
    case SetLanguage(code) => LangPrefix + code
    case SetModel(id) => ModelPrefix + id
  }

  /** Decoding the data a selection is encoded as gives back that selection. */
  lemma DecodeEncode(sel: Selection)
    requires !sel.Unrecognized?
    ensures DecodeCallback(EncodeSelection(sel)) == sel
  {
    var data := EncodeSelection(sel);
    if sel.SetModel? {
      assert data[..|LangPrefix|] != LangPrefix by {
        assert data[0] == 'm';
      }
      assert data[..|ModelPrefix|] == ModelPrefix;
      assert data[|ModelPrefix|..] == sel.id;
    } else {
      assert data[..|LangPrefix|] == LangPrefix;
      assert data[|LangPrefix|..] == sel.code;
    }
  }

  /** A recognised callback is exactly the encoding of what it decodes to. */
  lemma EncodeDecode(data: string)
    requires !DecodeCallback(data).Unrecognized?
    ensures EncodeSelection(DecodeCallback(data)) == data
  {
  }

  /**
   * The language keyboard has five single-button rows, ja, ko, en, ar, tr in that order,
   * captioned with the display names, and each button decodes back to its language.
   */
  lemma LanguageKeyboardShape()
    ensures var k := LanguageKeyboard();
      && |k| == 5
      && (forall i :: 0 <= i < 5 ==> |k[i]| == 1 && k[i][0].text == Languages[i].name)
      && [k[0][0].callbackData, k[1][0].callbackData, k[2][0].callbackData, k[3][0].callbackData, k[4][0].callbackData]
         == ["lang_ja", "lang_ko", "lang_en", "lang_ar", "lang_tr"]
      && (forall i :: 0 <= i < 5 ==> DecodeCallback(k[i][0].callbackData) == SetLanguage(Languages[i].code))
  {
    var k: seq<seq<Button>> := LanguageKeyboard();
    assert |k| == |Languages| == 5;
    assert k[0][0].callbackData == LangPrefix + "ja" == "lang_ja";
    assert k[1][0].callbackData == LangPrefix + "ko" == "lang_ko";
    assert k[2][0].callbackData == LangPrefix + "en" == "lang_en";
    assert k[3][0].callbackData == LangPrefix + "ar" == "lang_ar";
    assert k[4][0].callbackData == LangPrefix + "tr" == "lang_tr";
    forall i: int | 0 <= i < 5 ensures DecodeCallback(k[i][0].callbackData) == SetLanguage(Languages[i].code) {
      DecodeEncode(SetLanguage(Languages[i].code));
    }
  }

  /**
   * The model keyboard has the rows `model_1` and `model_2`; each decodes to the id's
   * rendering, and the confirmation lookup is defined for both.
   */
  lemma ModelKeyboardShape()
    ensures ModelKeyboard() == [
      [Button("GoogleTranslate[Google翻譯]", "model_1")],
      [Button("ChatGPT[ChatGPT]", "model_2")]
    ]
    ensures DecodeCallback("model_1") == SetModel("1") && DecodeCallback("model_2") == SetModel("2")
    ensures ModelNameByKey("1") == Some(TranslateModel[GoogleTranslate])
    ensures ModelNameByKey("2") == Some(TranslateModel[ChatGpt])
  {
    assert DecimalString(1) == "1" && DecimalString(2) == "2";
    var k: seq<seq<Button>> := ModelKeyboard();
    assert k[0] == [Button("GoogleTranslate[Google翻譯]", ModelPrefix + "1")];
    assert k[1] == [Button("ChatGPT[ChatGPT]", ModelPrefix + "2")];
    assert ModelPrefix + "1" == "model_1" && ModelPrefix + "2" == "model_2";
    DecodeEncode(SetModel("1"));
    DecodeEncode(SetModel("2"));
    ModelNameByKeySpec("1");
    ModelNameByKeySpec("2");
  }
}
