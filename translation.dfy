/**
 * The two translation engines. Google Translate is a detect call followed by a
 * translate call (googleTrans). ChatGPT is guarded by the text, the target, the API
 * key and the supported languages, answers from a cache keyed by the direction and a
 * digest of the text, and otherwise calls the provider up to three times, retrying
 * only on HTTP 429 after a doubling delay (chatGPTTrans).
 *
 * Providers are oracles: Google's two endpoints are functions of their request; the
 * ChatGPT endpoint is a function of the global number of the call, so that any
 * sequence of responses over a run can be supplied. The digest (md5) is a function
 * parameter with nothing assumed about it.
 */
module Translation {
  import opened Php
  import opened Catalog
  import opened Detect

  // ---------------------------------------------------------------------------
  // Google Translate

  /** A request to one of Google's two endpoints. */
  datatype GoogleCall =
    | DetectCall(text: string)                     // translate/v2/detect
    | TranslateCall(text: string, target: string)  // translate/v2

  /** The reply googleTrans hands back (null when the response has no translation) and the calls made. */
  datatype GoogleOutcome = GoogleOutcome(result: Option<string>, calls: seq<GoogleCall>)

  /** googleTrans: detect, choose the destination, translate. */
  function GoogleTrans(detect: string -> Option<string>, translate: (string, string) -> Option<string>,
                       target: string, text: string): (g: GoogleOutcome)
    ensures |g.calls| == 2 && g.calls[0] == DetectCall(text) && g.calls[1].TranslateCall? && g.calls[1].text == text
    ensures g.calls[1].target == target || g.calls[1].target == GoogleChinese
    ensures g.result == translate(text, g.calls[1].target)
  {
    var dest := GoogleDestination(detect(text), target);
    GoogleOutcome(translate(text, dest), [DetectCall(text), TranslateCall(text, dest)])
  }

  /**
   * Google is asked first to detect the text and then to translate it, into Simplified
   * Chinese when the detection equals the target and into the target otherwise; the
   * answer is the translate call's answer.
   */
  lemma GoogleTransSpec(detect: string -> Option<string>, translate: (string, string) -> Option<string>,
                        target: string, text: string)
    ensures var g := GoogleTrans(detect, translate, target, text);
      && |g.calls| == 2 && g.calls[0] == DetectCall(text) && g.calls[1].TranslateCall? && g.calls[1].text == text
      && (g.calls[1].target == GoogleChinese <==> SameLanguage(detect(text), target) || target == GoogleChinese)
      && (!SameLanguage(detect(text), target) ==> g.calls[1].target == target)
      && g.result == translate(text, g.calls[1].target)
  {
    GoogleDestinationSpec(detect(text), target);
  }

  // ---------------------------------------------------------------------------
  // ChatGPT: responses, the retry loop

  /** What one call to the chat-completions endpoint gives. */
  datatype GptResponse =
    | Completion(content: Option<string>)   // a decoded body; `choices[0].message.content ?? null`
    | HttpError(status: Option<int>)         // a request exception; no status without a response
    | Failure                                // any other exception

  /** The direction and the text sent to the provider (the prompt is built from these). */
  datatype GptRequest = GptRequest(source: string, dest: string, text: string)

  const MaxRetries: nat := 3
  const InitialDelay: int := 2000
  const TooManyRequests: int := 429

  /** The delays, in milliseconds, of n successive retries starting from `delay`. */
  function Backoff(delay: int, n: nat): (ds: seq<int>)
    ensures |ds| == n
    decreases n
  {
    if n == 0 then [] else [delay] + Backoff(delay * 2, n - 1)
  }

  function Repeat<T>(x: T, n: nat): (xs: seq<T>)
    ensures |xs| == n
    ensures forall i :: 0 <= i < n ==> xs[i] == x
    decreases n
  {
    if n == 0 then [] else Repeat(x, n - 1) + [x]
  }

  /** `if ($translatedText)`: present and truthy. */
  predicate Truthy(content: Option<string>) {
    content.Some? && !Falsy(content.value)
  }

  /** The one case that is retried: a 429 on an attempt before the last. */
  predicate Retryable(response: GptResponse, attempt: int) {
    response == HttpError(Some(TooManyRequests)) && attempt < MaxRetries
  }

  /** The call made `j` attempts after `attempt` was a retryable 429. */
  predicate RetriedAt(gpt: nat -> GptResponse, first: nat, attempt: nat, j: nat)
    requires 1 <= attempt
  {
    Retryable(gpt(first + attempt - 1 + j), attempt + j)
  }

  /** What the retry loop gives from some attempt on: a translation or none, the calls made, the delays slept. */
  datatype Attempts = Attempts(translated: Option<string>, calls: nat, delays: seq<int>)

  /**
   * The retry loop from `attempt` on, with `delay` the next backoff; call number
   * `first + attempt - 1` is the one made at `attempt`. Past the last attempt no call
   * is made.
   */
  function Retry(gpt: nat -> GptResponse, first: nat, attempt: nat, delay: int): (a: Attempts)
    requires 1 <= attempt <= MaxRetries + 1
    ensures a.calls <= MaxRetries + 1 - attempt
    ensures a.calls >= 1 <==> attempt <= MaxRetries
    ensures a.delays == Backoff(delay, if a.calls == 0 then 0 else a.calls - 1)
    ensures a.translated.Some? ==> !Falsy(a.translated.value)
    decreases MaxRetries + 1 - attempt
  {
    if attempt > MaxRetries then Attempts(None, 0, [])
    else
      var response := gpt(first + attempt - 1);
      if response.Completion? then
        if Truthy(response.content) then Attempts(response.content, 1, []) else Attempts(None, 1, [])
      else if Retryable(response, attempt) then
        var rest := Retry(gpt, first, attempt + 1, delay * 2);
        Attempts(rest.translated, rest.calls + 1, [delay] + rest.delays)
      else Attempts(None, 1, [])
  }

  /**
   * What the loop's calls were: every call before the last was a retryable 429, the
   * last was not, and there is a translation exactly when the last call was a truthy
   * completion, which is then the translation.
   */
  lemma {:induction false} RetrySpec(gpt: nat -> GptResponse, first: nat, attempt: nat, delay: int)
    requires 1 <= attempt <= MaxRetries + 1
    ensures var a := Retry(gpt, first, attempt, delay);
      && (forall j :: 0 <= j < a.calls - 1 ==> RetriedAt(gpt, first, attempt, j))
      && (a.calls >= 1 ==> !Retryable(gpt(first + attempt - 2 + a.calls), attempt - 1 + a.calls))
      && (a.translated.Some? <==>
          a.calls >= 1 && gpt(first + attempt - 2 + a.calls).Completion? && Truthy(gpt(first + attempt - 2 + a.calls).content))
      && (a.translated.Some? ==> gpt(first + attempt - 2 + a.calls) == Completion(a.translated))
    decreases MaxRetries + 1 - attempt
  {
    if attempt <= MaxRetries && Retryable(gpt(first + attempt - 1), attempt) {
      RetrySpec(gpt, first, attempt + 1, delay * 2);
      var a := Retry(gpt, first, attempt, delay);
      var rest := Retry(gpt, first, attempt + 1, delay * 2);
      forall j | 0 <= j < a.calls - 1 ensures RetriedAt(gpt, first, attempt, j) {
        if j > 0 {
          assert RetriedAt(gpt, first, attempt + 1, j - 1);
        }
      }
    }
  }

  /**
   * One attempt of the loop: it goes on after a 429 before the last attempt, with the
   * delay doubled; any other response ends it after this call, with a translation only
   * for a truthy completion.
   */
  lemma RetryStep(gpt: nat -> GptResponse, first: nat, attempt: nat, delay: int)
    requires 1 <= attempt <= MaxRetries
    ensures var response := gpt(first + attempt - 1);
      Retry(gpt, first, attempt, delay)
      == if Retryable(response, attempt) then
           var rest := Retry(gpt, first, attempt + 1, delay * 2);
           Attempts(rest.translated, rest.calls + 1, [delay] + rest.delays)
         else Attempts(if response.Completion? && Truthy(response.content) then response.content else None, 1, [])
  {
  }

  /** The whole loop makes at most three calls and sleeps 2000 ms, then 4000 ms, between them. */
  lemma RetryBounds(gpt: nat -> GptResponse, first: nat)
    ensures var a := Retry(gpt, first, 1, InitialDelay);
      && 1 <= a.calls <= MaxRetries
      && a.delays == [2000, 4000][..a.calls - 1]
  {
    var a := Retry(gpt, first, 1, InitialDelay);
    assert Backoff(2000, 2) == [2000, 4000];
    assert Backoff(2000, 1) == [2000];
  }

  /** A provider that always answers 429 is called three times, with two delays, and gives nothing. */
  lemma AlwaysRateLimited(gpt: nat -> GptResponse, first: nat)
    requires forall i :: gpt(i) == HttpError(Some(TooManyRequests))
    ensures Retry(gpt, first, 1, InitialDelay) == Attempts(None, 3, [2000, 4000])
  {
    assert Retry(gpt, first, 3, 8000) == Attempts(None, 1, []);
    assert Retry(gpt, first, 2, 4000) == Attempts(None, 2, [4000]);
  }

  /** An answer other than a 429 before the last attempt ends the loop at once. */
  lemma NoRetryUnlessRateLimited(gpt: nat -> GptResponse, first: nat, attempt: nat, delay: int)
    requires 1 <= attempt <= MaxRetries
    requires !Retryable(gpt(first + attempt - 1), attempt)
    ensures Retry(gpt, first, attempt, delay).calls == 1
    ensures Retry(gpt, first, attempt, delay).delays == []
  {
  }

  // ---------------------------------------------------------------------------
  // ChatGPT: the whole of chatGPTTrans

  /** `"translation:{source}:{dest}:" . md5($text)`. */
  function CacheKey(d: Direction, digest: string): string {
    "translation:" + d.source + ":" + d.dest + ":" + digest
  }

  /** The early returns of chatGPTTrans: empty text or target, no API key, unsupported target. */
  predicate Guarded(apiKey: Option<string>, target: string, text: string) {
    Falsy(text) || Falsy(target) || FalsyOrNull(apiKey) || Find(GptLanguages, target).None?
  }

  /** The reply, the translation cache afterwards, the requests sent and the delays slept. */
  datatype GptOutcome = GptOutcome(result: string, cache: map<string, string>, requests: seq<GptRequest>, delays: seq<int>)

  /** The direction of an unguarded call. */
  function DirectionFor(target: string, text: string): Direction
    requires Find(GptLanguages, target).Some?
  {
    ChatGptDirection(text, target, Find(GptLanguages, target).value)
  }

  /** The cache key of an unguarded call. */
  function KeyFor(md5: string -> string, target: string, text: string): string
    requires Find(GptLanguages, target).Some?
  {
    CacheKey(DirectionFor(target, text), md5(text))
  }

  /** chatGPTTrans; `first` is the number of provider calls made before this one. */
  function ChatGptTrans(apiKey: Option<string>, md5: string -> string, gpt: nat -> GptResponse, first: nat,
                        cache: map<string, string>, target: string, text: string): (o: GptOutcome)
    ensures |o.requests| <= MaxRetries
    ensures o.delays == [2000, 4000][..if o.requests == [] then 0 else |o.requests| - 1]
    ensures o.cache.Keys >= cache.Keys
    ensures o.cache != cache ==> o.requests != [] && !Falsy(o.result) && o.result in o.cache.Values
  {
    if Guarded(apiKey, target, text) then GptOutcome(text, cache, [], [])
    else
      var d := DirectionFor(target, text);
      var key := KeyFor(md5, target, text);
      if key in cache && !Falsy(cache[key]) then GptOutcome(cache[key], cache, [], [])
      else
        var a := Retry(gpt, first, 1, InitialDelay);
        RetryBounds(gpt, first);
        var requests := Repeat(GptRequest(d.source, d.dest, text), a.calls);
        if a.translated.Some? then GptOutcome(a.translated.value, cache[key := a.translated.value], requests, a.delays)
        else GptOutcome(text, cache, requests, a.delays)
  }

  /** Every early return gives the text back and neither reads the cache nor calls the provider. */
  lemma GuardsShortCircuit(apiKey: Option<string>, md5: string -> string, gpt: nat -> GptResponse, first: nat,
                           cache: map<string, string>, target: string, text: string)
    requires Falsy(text) || Falsy(target) || apiKey.None? || Falsy(apiKey.value) || target !in Codes(Languages)
    ensures ChatGptTrans(apiKey, md5, gpt, first, cache, target, text) == GptOutcome(text, cache, [], [])
  {
    GptLanguageSupported(target);
  }

  /** A truthy cached translation under this call's key is the reply, with no provider call. */
  lemma CacheHitNoCall(apiKey: Option<string>, md5: string -> string, gpt: nat -> GptResponse, first: nat,
                       cache: map<string, string>, target: string, text: string)
    requires !Guarded(apiKey, target, text)
    requires KeyFor(md5, target, text) in cache && !Falsy(cache[KeyFor(md5, target, text)])
    ensures ChatGptTrans(apiKey, md5, gpt, first, cache, target, text)
         == GptOutcome(cache[KeyFor(md5, target, text)], cache, [], [])
  {
  }

  /**
   * On a cache miss the provider is asked (source, dest, text) between one and three
   * times. A truthy completion is the reply and is stored under the key; anything else
   * gives the text back and leaves the cache as it was.
   */
  lemma CacheMissCallsProvider(apiKey: Option<string>, md5: string -> string, gpt: nat -> GptResponse, first: nat,
                               cache: map<string, string>, target: string, text: string)
    requires !Guarded(apiKey, target, text)
    requires !(KeyFor(md5, target, text) in cache && !Falsy(cache[KeyFor(md5, target, text)]))
    ensures var o := ChatGptTrans(apiKey, md5, gpt, first, cache, target, text);
      var d := DirectionFor(target, text);
      var a := Retry(gpt, first, 1, InitialDelay);
      && 1 <= |o.requests| <= MaxRetries
      && (forall i :: 0 <= i < |o.requests| ==> o.requests[i] == GptRequest(d.source, d.dest, text))
      && |o.requests| == a.calls
      && (a.translated.Some? ==> o.result == a.translated.value && !Falsy(o.result)
                                 && o.cache == cache[KeyFor(md5, target, text) := o.result])
      && (a.translated.None? ==> o.result == text && o.cache == cache)
  {
    RetryBounds(gpt, first);
  }

  /** The cache-miss path of chatGPTTrans, unfolded once. */
  lemma ChatGptTransMiss(apiKey: Option<string>, md5: string -> string, gpt: nat -> GptResponse, first: nat,
                         cache: map<string, string>, target: string, text: string)
    requires !Guarded(apiKey, target, text)
    requires !(KeyFor(md5, target, text) in cache && !Falsy(cache[KeyFor(md5, target, text)]))
    ensures var a := Retry(gpt, first, 1, InitialDelay);
      var d := DirectionFor(target, text);
      ChatGptTrans(apiKey, md5, gpt, first, cache, target, text)
        == GptOutcome(a.translated.GetOr(text),
                      if a.translated.Some? then cache[KeyFor(md5, target, text) := a.translated.value] else cache,
                      Repeat(GptRequest(d.source, d.dest, text), a.calls), a.delays)
  {
  }

  /** Asking again after a successful translation is answered from the cache, without a call. */
  lemma TranslationIsCached(apiKey: Option<string>, md5: string -> string, gpt: nat -> GptResponse, first: nat,
                            cache: map<string, string>, target: string, text: string, later: nat)
    requires !Guarded(apiKey, target, text)
    requires !(KeyFor(md5, target, text) in cache && !Falsy(cache[KeyFor(md5, target, text)]))
    requires Retry(gpt, first, 1, InitialDelay).translated.Some?
    ensures var o := ChatGptTrans(apiKey, md5, gpt, first, cache, target, text);
      ChatGptTrans(apiKey, md5, gpt, later, o.cache, target, text) == GptOutcome(o.result, o.cache, [], [])
  {
    var o := ChatGptTrans(apiKey, md5, gpt, first, cache, target, text);
    var key := KeyFor(md5, target, text);
    assert key in o.cache && o.cache[key] == o.result && !Falsy(o.result);
  }
}
