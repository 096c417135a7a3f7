/**
 * Language detection by Unicode ranges (isSimplifiedChinese, isTextInLanguage) and the
 * choice of translation direction made on top of it by the two engines. Text is a
 * sequence of code points; each `preg_match` over a character class becomes a search
 * over that sequence.
 */
module Detect {
  import opened Php

  /** CJK unified ideographs U+4E00–U+9FAF. */
  predicate HanChar(c: char) {
    '\U{4E00}' <= c <= '\U{9FAF}'
  }

  /** Hiragana U+3040–U+309F and katakana U+30A0–U+30FF, which together are U+3040–U+30FF. */
  predicate KanaChar(c: char) {
    '\U{3040}' <= c <= '\U{30FF}'
  }

  /** Hangul syllables U+AC00–U+D7AF. */
  predicate HangulChar(c: char) {
    '\U{AC00}' <= c <= '\U{D7AF}'
  }

  /** The Arabic block U+0600–U+06FF. */
  predicate ArabicChar(c: char) {
    '\U{0600}' <= c <= '\U{06FF}'
  }

  predicate AsciiLetter(c: char) {
    'A' <= c <= 'Z' || 'a' <= c <= 'z'
  }

  /** `\s` of a pattern without the `u` modifier: the six ASCII white-space characters. */
  predicate AsciiSpace(c: char) {
    c == ' ' || c == '\t' || c == '\n' || c == '\U{000B}' || c == '\U{000C}' || c == '\r'
  }

  /**
   * `\s` of a pattern with the `u` modifier, where PHP turns on Unicode properties:
   * the separators `\p{Z}` together with PCRE2's horizontal (`\h`) and vertical (`\v`)
   * white space, which add the ASCII controls, U+0085 and U+180E.
   */
  predicate UnicodeSpace(c: char) {
    AsciiSpace(c) || c == '\U{0085}' || c == '\U{00A0}' || c == '\U{1680}' || c == '\U{180E}'
    || '\U{2000}' <= c <= '\U{200A}' || c == '\U{2028}' || c == '\U{2029}'
    || c == '\U{202F}' || c == '\U{205F}' || c == '\U{3000}'
  }

  /** The class `[A-Za-z\s]` of the English detector. */
  predicate EnglishChar(c: char) {
    AsciiLetter(c) || AsciiSpace(c)
  }

  /** The class `[A-Za-z\sğüşöçİı]` of the Turkish detector. */
  predicate TurkishChar(c: char) {
    AsciiLetter(c) || UnicodeSpace(c) || c in "ğüşöçİı"
  }

  /** An unanchored search for one character of a class. */
  function Contains(text: string, p: char -> bool): (b: bool)
    ensures b <==> exists i :: 0 <= i < |text| && p(text[i])
    decreases |text|
  {
    if text == [] then false
    else if p(text[0]) then true
    else
      var r := Contains(text[1..], p);
      assert forall i :: 1 <= i < |text| ==> text[1..][i - 1] == text[i];
      r
  }

  /** Every character belongs to the class. */
  function Every(text: string, p: char -> bool): (b: bool)
    ensures b <==> forall i :: 0 <= i < |text| ==> p(text[i])
    decreases |text|
  {
    if text == [] then true
    else if !p(text[0]) then false
    else
      var r := Every(text[1..], p);
      assert forall i :: 1 <= i < |text| ==> text[1..][i - 1] == text[i];
      r
  }

  /** PHP 8 `strtolower`: ASCII letters only. */
  function AsciiLower(s: string): (r: string)
    ensures |r| == |s|
    decreases |s|
  {
    if s == [] then []
    else
      var c := s[0];
      [if 'A' <= c <= 'Z' then ((c as int) + 32) as char else c] + AsciiLower(s[1..])
  }

  /** isSimplifiedChinese: some ideograph and no kana. */
  function IsSimplifiedChinese(text: string): (b: bool)
    ensures b <==> (exists i :: 0 <= i < |text| && HanChar(text[i])) && (forall i :: 0 <= i < |text| ==> !KanaChar(text[i]))
  {
    Contains(text, HanChar) && !Contains(text, KanaChar)
  }

  /**
   * isTextInLanguage. The English detector is anchored at both ends; the Turkish one is
   * anchored only at the end, so it needs just a last character of its class (see
   * TurkishDetectorMeaning for the equivalence with the pattern).
   */
  function IsTextInLanguage(text: string, language: string): (b: bool)
    ensures b ==> |text| > 0
    ensures b ==> AsciiLower(language) in ["ja", "ko", "en", "ar", "tr"]
  {
    var l := AsciiLower(language);
    if l == "ja" then Contains(text, KanaChar)
    else if l == "ko" then Contains(text, HangulChar)
    else if l == "en" then |text| > 0 && Every(text, EnglishChar)
    else if l == "ar" then Contains(text, ArabicChar)
    else if l == "tr" then |text| > 0 && TurkishChar(text[|text| - 1])
    else false
  }

  // ---------------------------------------------------------------------------
  // What the anchored patterns mean

  /** `$` without the D modifier: the end of the text, or just before a final newline. */
  predicate DollarAt(text: string, e: int) {
    e == |text| || (e == |text| - 1 && 0 <= e && text[e] == '\n')
  }

  /** text[i..e] is a non-empty run of class characters. */
  ghost predicate Run(text: string, p: char -> bool, i: int, e: int) {
    0 <= i < e <= |text| && forall j :: i <= j < e ==> p(text[j])
  }

  /** `/[P]+$/`: some non-empty run of class characters ends where `$` matches. */
  ghost predicate RunBeforeDollar(text: string, p: char -> bool) {
    exists i, e :: Run(text, p, i, e) && DollarAt(text, e)
  }

  /** `/^[P]+$/`: a non-empty run of class characters from the start to where `$` matches. */
  ghost predicate WholeRunBeforeDollar(text: string, p: char -> bool) {
    exists e :: 0 < e <= |text| && DollarAt(text, e) && forall j :: 0 <= j < e ==> p(text[j])
  }

  /** The Turkish detector holds exactly when the pattern `[A-Za-z\sğüşöçİı]+$` matches. */
  lemma TurkishDetectorMeaning(text: string)
    ensures IsTextInLanguage(text, "tr") <==> RunBeforeDollar(text, TurkishChar)
  {
    assert AsciiLower("tr") == "tr";
    assert IsTextInLanguage(text, "tr") == (|text| > 0 && TurkishChar(text[|text| - 1]));
    if |text| > 0 && TurkishChar(text[|text| - 1]) {
      var n := |text|;
      assert Run(text, TurkishChar, n - 1, n) && DollarAt(text, n);
    }
    if RunBeforeDollar(text, TurkishChar) {
      var i, e :| Run(text, TurkishChar, i, e) && DollarAt(text, e);
      if e < |text| {
        assert text[|text| - 1] == '\n';
        assert UnicodeSpace(text[|text| - 1]);
      } else {
        assert TurkishChar(text[e - 1]);
      }
    }
  }

  /** The English detector holds exactly when the pattern `^[A-Za-z\s]+$` matches. */
  lemma EnglishDetectorMeaning(text: string)
    ensures IsTextInLanguage(text, "en") <==> WholeRunBeforeDollar(text, EnglishChar)
  {
    assert AsciiLower("en") == "en";
    if |text| > 0 && Every(text, EnglishChar) {
      assert DollarAt(text, |text|);
    }
    if WholeRunBeforeDollar(text, EnglishChar) {
      var e :| 0 < e <= |text| && DollarAt(text, e) && forall j :: 0 <= j < e ==> EnglishChar(text[j]);
      assert forall j :: 0 <= j < |text| ==> EnglishChar(text[j]) by {
        forall j | 0 <= j < |text| ensures EnglishChar(text[j]) {
          if j >= e { assert text[j] == '\n'; }
        }
      }
    }
  }

  /** The two Latin detectors are not uniform: Turkish accepts all English text and more. */
  lemma LatinDetectorsDiffer()
    ensures forall text :: IsTextInLanguage(text, "en") ==> IsTextInLanguage(text, "tr")
    ensures IsTextInLanguage("1 abc", "tr") && !IsTextInLanguage("1 abc", "en")
  {
    assert AsciiLower("en") == "en" && AsciiLower("tr") == "tr";
    assert !EnglishChar("1 abc"[0]);
  }

  /**
   * The Japanese, Korean and Arabic detectors are unanchored searches: each holds exactly
   * when some character is kana, Hangul or Arabic, whatever the case of the code.
   */
  lemma ScriptDetectorsMeaning(text: string, language: string)
    ensures AsciiLower(language) == "ja" ==>
      (IsTextInLanguage(text, language) <==> exists i :: 0 <= i < |text| && KanaChar(text[i]))
    ensures AsciiLower(language) == "ko" ==>
      (IsTextInLanguage(text, language) <==> exists i :: 0 <= i < |text| && HangulChar(text[i]))
    ensures AsciiLower(language) == "ar" ==>
      (IsTextInLanguage(text, language) <==> exists i :: 0 <= i < |text| && ArabicChar(text[i]))
    ensures AsciiLower("JA") == "ja" && AsciiLower("Ko") == "ko"
  {
  }

  // ---------------------------------------------------------------------------
  // Direction

  const SimplifiedChinese: string := "Simplified Chinese"

  /** A (source, destination) pair of language names for the ChatGPT prompt. */
  datatype Direction = Direction(source: string, dest: string)

  /** The ChatGPT direction: Chinese first, then the target language, else assume Chinese. */
  function ChatGptDirection(text: string, code: string, targetName: string): (d: Direction)
    ensures d == Direction(SimplifiedChinese, targetName) || d == Direction(targetName, SimplifiedChinese)
    ensures d.dest == SimplifiedChinese && targetName != SimplifiedChinese ==>
      IsTextInLanguage(text, code) && !IsSimplifiedChinese(text)
  {
    if IsSimplifiedChinese(text) then Direction(SimplifiedChinese, targetName)
    else if IsTextInLanguage(text, code) then Direction(targetName, SimplifiedChinese)
    else Direction(SimplifiedChinese, targetName)
  }

  /**
   * Text is translated into Chinese exactly when it is not Simplified Chinese and is
   * recognised as the target language; every other text goes from Chinese to the target.
   */
  lemma ChatGptDirectionSpec(text: string, code: string, targetName: string)
    requires targetName != SimplifiedChinese
    ensures var d := ChatGptDirection(text, code, targetName);
      && (d.dest == SimplifiedChinese <==> !IsSimplifiedChinese(text) && IsTextInLanguage(text, code))
      && (d.dest == SimplifiedChinese ==> d.source == targetName)
      && (d.dest != SimplifiedChinese ==> d == Direction(SimplifiedChinese, targetName))
      && d.source != d.dest
  {
  }

  /** Japanese text (it has kana) with target ja is translated into Chinese. */
  lemma KanaTextFlipsForJapanese(text: string, targetName: string)
    requires exists i :: 0 <= i < |text| && KanaChar(text[i])
    ensures ChatGptDirection(text, "ja", targetName) == Direction(targetName, SimplifiedChinese)
  {
    assert AsciiLower("ja") == "ja";
  }

  /** Chinese text is translated into the target whatever the target is. */
  lemma ChineseTextNeverFlips(text: string, code: string, targetName: string)
    requires IsSimplifiedChinese(text)
    ensures ChatGptDirection(text, code, targetName) == Direction(SimplifiedChinese, targetName)
  {
  }

  /** The Google code for Simplified Chinese. */
  const GoogleChinese: string := "zh-CN"

  /**
   * `$originalLanguage == $channelTargetLang` with a detection that may be null: two
   * strings compare loosely, and null equals only the empty string.
   */
  predicate SameLanguage(detected: Option<string>, target: string) {
    match detected
    case Some(d) => LooseEqualsStrings(d, target)
    case None => target == ""
  }

  /** A catalog code is not numeric, so a detection equals it only when it is that very code. */
  lemma CatalogCodesCompareExactly(detected: string, target: string)
    requires target in ["ja", "ko", "en", "ar", "tr"]
    ensures SameLanguage(Some(detected), target) <==> detected == target
  {
    NotNumericWithLetter(target, 0);
  }

  /** The Google destination: Chinese when the text is detected as the target, else the target. */
  function GoogleDestination(detected: Option<string>, target: string): (dest: string)
    ensures dest == GoogleChinese || dest == target
    ensures dest != target ==> SameLanguage(detected, target)
  {
    if SameLanguage(detected, target) then GoogleChinese else target
  }

  lemma GoogleDestinationSpec(detected: Option<string>, target: string)
    ensures detected == Some(target) ==> GoogleDestination(detected, target) == GoogleChinese
    ensures GoogleDestination(detected, target) != target ==> SameLanguage(detected, target) && GoogleDestination(detected, target) == GoogleChinese
    ensures !SameLanguage(detected, target) ==> GoogleDestination(detected, target) == target
    ensures SameLanguage(detected, target) ==> GoogleDestination(detected, target) == GoogleChinese
    ensures GoogleDestination(Some("01"), "1") == GoogleChinese && GoogleDestination(Some("JA"), "ja") == "ja"
  {
    LooseEqualsStringsSpec("01", "1");
    CatalogCodesCompareExactly("JA", "ja");
  }

  /** "你好" is Chinese; detected as zh-CN with target ja, Google is asked for ja. */
  lemma NiHaoScenario()
    ensures IsSimplifiedChinese("你好")
    ensures GoogleDestination(Some("zh-CN"), "ja") == "ja"
    ensures ChatGptDirection("你好", "ja", "Japanese") == Direction(SimplifiedChinese, "Japanese")
  {
    assert HanChar("你好"[0]);
  }
}
