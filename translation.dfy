/**
 * The translation layer (services/translation.py): two provider adapters, each a loop of at
 * most two HTTP attempts with a back-off between them, the DeepL supported-language cache,
 * the dispatcher that tries Google first and DeepL second, and the formatter that translates
 * a text into several languages.
 *
 * The network is an oracle: `responses[k]` is what attempt k + 1 of an adapter would receive.
 * The sleeps and the requests an adapter makes are recorded in a ghost log, sleeps in tenths
 * of a second.
 */
module Translation {
  import opened Wrappers
  import opened Text
  import opened Data
  import opened TenantStore

  /** Attempts per adapter call: one request and one retry. */
  const MaxRetries: nat := 2

  /** What the dispatcher answers when both providers fail. */
  const FailureMessage := "翻譯暫時失敗，請稍後再試"

  /** The outcome of one HTTP attempt. */
  datatype Response<B> = TimedOut | ConnectionFailed | Replied(status: int, body: B)

  /** A DeepL reply body: not JSON, no `translations`, or the first translation's `text` (empty
    * when that key is missing or empty). */
  datatype DeepLBody = DeepLUnparseable | NoTranslations | DeepLText(text: string)

  /** A Google reply body: not the expected nested array, or its first leaf. */
  datatype GoogleBody = GoogleUnparseable | GoogleText(text: string)

  /** The reason an adapter reports with its result. */
  datatype Reason =
    | Ok | Timeout | NetworkError | RateLimited | Http(code: int) | ParseError
    | EmptyResponse | InvalidResponse | UnsupportedLanguage | NoApiKey | UnknownError
  {
    /** The reason string the source returns. */
    function Name(): string {
      match this
      case Ok => "success"
      case Timeout => "timeout"
      case NetworkError => "network_error"
      case RateLimited => "rate_limited"
      case Http(code) => "http_" + IntToString(code)
      case ParseError => "parse_error"
      case EmptyResponse => "empty_response"
      case InvalidResponse => "invalid_response"
      case UnsupportedLanguage => "unsupported_language"
      case NoApiKey => "no_api_key"
      case UnknownError => "unknown_error"
    }
  }

  /** Distinct reasons have distinct strings, so the string tells the outcome. */
  lemma ReasonNamesDistinct(a: Reason, b: Reason)
    requires a.Name() == b.Name()
    ensures a == b
  {
    HttpPrefix(a);
    HttpPrefix(b);
    if a.Http? && b.Http? {
      assert IntToString(a.code) == a.Name()[5..] && IntToString(b.code) == b.Name()[5..];
      IntToStringInjective(a.code, b.code);
    }
  }

  /** Exactly the HTTP-status reasons have names starting with "http_". */
  lemma HttpPrefix(r: Reason)
    ensures r.Http? <==> |r.Name()| >= 5 && r.Name()[..5] == "http_"
  {
    if !r.Http? {
      assert r.Name()[0] != 'h';
    }
  }

  /** A step an adapter takes, for the ghost log. */
  datatype Event = Sent(text: string, target: string) | Slept(tenths: nat)

  /** An adapter's answer: the translation (None on failure) and the reason. */
  datatype Answer = Answer(text: Option<string>, reason: Reason)

  /** The wait before the retry that follows a failed attempt: 2 s after HTTP 429, 0.3 s otherwise. */
  function Backoff<B>(r: Response<B>): (tenths: nat)
    ensures tenths == 20 || tenths == 3
  {
    if r.Replied? && r.status == 429 then 20 else 3
  }

  // ---------------------------------------------------------------- Google

  /** Whether a Google attempt that is not the last is followed by a retry: every failure
    * except a well-formed reply whose translation is empty. */
  predicate GoogleRetries(r: Response<GoogleBody>) {
    !(r.Replied? && r.status == 200 && r.body.GoogleText?)
  }

  /** What one Google attempt reports when it is the one that decides the call. */
  function GoogleAnswer(r: Response<GoogleBody>): (a: Answer)
    ensures a.text.Some? <==> a.reason == Ok
    ensures a.text.Some? ==> a.text.value != ""
  {
    match r
    case TimedOut => Answer(None, Timeout)
    case ConnectionFailed => Answer(None, NetworkError)
    case Replied(status, body) =>
      if status == 429 then Answer(None, RateLimited)
      else if status != 200 then Answer(None, Http(status))
      else match body
        case GoogleUnparseable => Answer(None, ParseError)
        case GoogleText(t) => if t != "" then Answer(Some(t), Ok) else Answer(None, EmptyResponse)
  }

  /** The reference for `_translate_with_google`: the first attempt decides unless it is a
    * retried failure, in which case the second attempt decides. */
  function GoogleSpec(responses: seq<Response<GoogleBody>>): (a: Answer)
    requires |responses| == MaxRetries
    ensures a.text.Some? <==> a.reason == Ok
    ensures a.text.Some? ==> a.text.value != ""
    ensures a.reason != UnknownError
  {
    if GoogleRetries(responses[0]) then GoogleAnswer(responses[1]) else GoogleAnswer(responses[0])
  }

  /** `_translate_with_google(text, target_lang)`: at most two requests; the answer is that of
    * the deciding attempt; a success carries a non-empty text; the only wait is between the
    * two attempts (2 s after a 429, 0.3 s otherwise), never after the last; the trailing
    * 'unknown_error' is never returned. */
  method TranslateWithGoogle(text: string, target: string, responses: seq<Response<GoogleBody>>)
    returns (translated: Option<string>, reason: Reason, ghost log: seq<Event>)
    requires |responses| == MaxRetries
    ensures Answer(translated, reason) == GoogleSpec(responses)
    ensures translated.Some? <==> reason == Ok
    ensures translated.Some? ==> translated.value != ""
    ensures reason != UnknownError
    ensures log == if GoogleRetries(responses[0])
                   then [Sent(text, target), Slept(Backoff(responses[0])), Sent(text, target)]
                   else [Sent(text, target)]
  {
    log := [];
    var attempt := 1;
    while attempt <= MaxRetries
      invariant 1 <= attempt <= MaxRetries
      invariant attempt == 1 ==> log == []
      invariant attempt == 2 ==> GoogleRetries(responses[0])
                                 && log == [Sent(text, target), Slept(Backoff(responses[0]))]
      decreases MaxRetries - attempt
    {
      var res := responses[attempt - 1];
      log := log + [Sent(text, target)];
      match res {
        case TimedOut =>
          if attempt == MaxRetries { return None, Timeout, log; }
          log := log + [Slept(3)];
        case ConnectionFailed =>
          if attempt == MaxRetries { return None, NetworkError, log; }
          log := log + [Slept(3)];
        case Replied(status, body) =>
          if status == 429 {
            if attempt < MaxRetries {
              log := log + [Slept(20)];
              attempt := attempt + 1;
              continue;
            }
            return None, RateLimited, log;
          }
          if status != 200 {
            if attempt == MaxRetries { return None, Http(status), log; }
            log := log + [Slept(3)];
          } else {
            match body {
              case GoogleText(t) =>
                if t != "" { return Some(t), Ok, log; }
                return None, EmptyResponse, log;
              case GoogleUnparseable =>
                if attempt == MaxRetries { return None, ParseError, log; }
                log := log + [Slept(3)];
            }
          }
      }
      attempt := attempt + 1;
    }
    assert false;
    return None, UnknownError, log;
  }

  // ---------------------------------------------------------------- DeepL

  /** The DeepL codes of the bot's language codes. */
  const DeepLCodes: map<string, string> := map[
    "en" := "EN", "ja" := "JA", "ru" := "RU", "zh-TW" := "ZH-HANT", "zh-CN" := "ZH-HANS",
    "de" := "DE", "fr" := "FR", "es" := "ES", "it" := "IT", "pt" := "PT", "nl" := "NL",
    "pl" := "PL", "ko" := "KO", "th" := "TH", "vi" := "VI", "id" := "ID", "my" := "MY"]

  /** The targets assumed when the language list cannot be fetched. */
  const FallbackTargets: set<string> := {
    "EN", "JA", "RU", "ZH", "ZH-HANT", "ZH-HANS", "DE", "FR", "ES", "IT", "PT", "NL", "PL", "KO"}

  /** ASCII upper-casing (`str.upper` restricted to ASCII letters). */
  function Upper(s: string): (r: string)
    ensures |r| == |s|
    ensures forall i :: 0 <= i < |s| ==> r[i] == if 'a' <= s[i] <= 'z' then (s[i] as int - 32) as char else s[i]
  {
    seq(|s|, i requires 0 <= i < |s| => if 'a' <= s[i] <= 'z' then (s[i] as int - 32) as char else s[i])
  }

  /** `lang_map.get(target_lang, target_lang.upper())`. */
  function DeepLTarget(lang: string): (code: string)
    ensures lang in DeepLCodes ==> code == DeepLCodes[lang]
    ensures lang !in DeepLCodes ==> code == Upper(lang)
  {
    if lang in DeepLCodes then DeepLCodes[lang] else Upper(lang)
  }

  /** The reply of the `/v2/languages?type=target` request: an exception (network, JSON or a
    * missing `language` key), or the status and the listed `language` codes. */
  datatype LanguagesReply = LanguagesFailed | LanguagesReplied(status: int, languages: seq<string>)

  /** Whether a DeepL attempt that is not the last is followed by a retry: every failure except
    * a reply whose first translation has no text. */
  predicate DeepLRetries(r: Response<DeepLBody>) {
    !(r.Replied? && r.status == 200 && r.body.DeepLText?)
  }

  /** What one DeepL attempt reports when it is the one that decides the call. */
  function DeepLAnswer(r: Response<DeepLBody>): (a: Answer)
    ensures a.text.Some? <==> a.reason == Ok
    ensures a.text.Some? ==> a.text.value != ""
  {
    match r
    case TimedOut => Answer(None, Timeout)
    case ConnectionFailed => Answer(None, NetworkError)
    case Replied(status, body) =>
      if status == 429 then Answer(None, RateLimited)
      else if status != 200 then Answer(None, Http(status))
      else match body
        case DeepLUnparseable => Answer(None, ParseError)
        case NoTranslations => Answer(None, EmptyResponse)
        case DeepLText(t) => if t != "" then Answer(Some(t), Ok) else Answer(None, InvalidResponse)
  }

  /** Whether `_translate_with_deepl` sends any request: it needs a key, and a loaded target list
    * that lacks the target rules the call out. */
  predicate DeepLSends(apiKey: string, supported: set<string>, lang: string) {
    apiKey != "" && (supported == {} || DeepLTarget(lang) in supported)
  }

  /** The reference for `_translate_with_deepl`. */
  function DeepLSpec(apiKey: string, supported: set<string>, lang: string,
                     responses: seq<Response<DeepLBody>>): (a: Answer)
    requires |responses| == MaxRetries
    ensures a.text.Some? <==> a.reason == Ok
    ensures a.text.Some? ==> a.text.value != ""
    ensures a.reason != UnknownError
    ensures apiKey == "" ==> a == Answer(None, NoApiKey)
    ensures apiKey != "" && !DeepLSends(apiKey, supported, lang) ==> a == Answer(None, UnsupportedLanguage)
  {
    if apiKey == "" then Answer(None, NoApiKey)
    else if !DeepLSends(apiKey, supported, lang) then Answer(None, UnsupportedLanguage)
    else if DeepLRetries(responses[0]) then DeepLAnswer(responses[1])
    else DeepLAnswer(responses[0])
  }

  // ---------------------------------------------------------------- dispatch

  /** `not text or text.strip().replace(' ', '').replace('.', '').replace(',', '').isdigit()`:
    * text the dispatcher hands back untouched. */
  predicate Untranslatable(text: string) {
    text == "" || IsDigitString(Without(Without(Without(Strip(text), ' '), '.'), ','))
  }

  /** A digit string, by membership: some digit and nothing else. */
  lemma DigitStringByMembers(w: string)
    ensures IsDigitString(w) <==> (exists x :: x in w && IsDigit(x)) && forall x :: x in w ==> IsDigit(x)
  {
    if IsDigitString(w) {
      assert w[0] in w;
    }
  }

  /** The characters the skip test ignores inside the stripped text. */
  predicate Separator(c: char) {
    c == ' ' || c == '.' || c == ','
  }

  /** What the skip test means: empty text, or text whose stripped core holds a digit and
    * nothing but digits, blanks, full stops and commas. */
  lemma UntranslatableIff(text: string)
    ensures Untranslatable(text) <==>
      text == "" || ((exists c :: c in Strip(text) && IsDigit(c))
                     && forall c :: c in Strip(text) ==> IsDigit(c) || Separator(c))
  {
    var core := Strip(text);
    StripSound(text);
    var w1 := Without(core, ' ');
    var w2 := Without(w1, '.');
    var w := Without(w2, ',');
    WithoutMembers(core, ' ');
    WithoutMembers(w1, '.');
    WithoutMembers(w2, ',');
    assert members: forall x :: x in w <==> x in core && !Separator(x);
    DigitStringByMembers(w);
    if IsDigitString(w) {
      var d :| d in w && IsDigit(d);
      assert d in core;
    }
  }

  /** Which provider an outcome came from. */
  datatype Provider = Google | DeepL

  /** What `translate_text` does with one text and one target language. */
  datatype Outcome = Kept | Translated(provider: Provider, text: string) | Failed(google: Reason, deepl: Reason)
  {
    /** The string `translate_text` returns for `original`. */
    function Reply(original: string): string {
      match this
      case Kept => original
      case Translated(_, t) => t
      case Failed(_, _) => FailureMessage
    }

    /** The providers consulted, in order. */
    function Consulted(): seq<Provider> {
      match this
      case Kept => []
      case Translated(Google, _) => [Google]
      case _ => [Google, DeepL]
    }
  }

  /** The reference for `translate_text`, given the two adapters' answers: untranslatable text
    * is kept; otherwise Google's translation if it has one, else DeepL's, else failure. */
  function Dispatch(text: string, google: Answer, deepl: Answer): (o: Outcome)
    ensures o == Kept <==> Untranslatable(text)
    ensures o.Translated? ==> o.text != ""
    ensures o.Translated? && o.provider == DeepL ==> google.text.None? || google.text.value == ""
    ensures o.Failed? ==> o == Failed(google.reason, deepl.reason)
    ensures o.Translated? ==> (if o.provider == Google then google.text else deepl.text) == Some(o.text)
    ensures (&& !Untranslatable(text)
             && (google.text.None? || google.text.value == "")
             && deepl.text.Some? && deepl.text.value != "")
            ==> o == Translated(DeepL, deepl.text.value)
  {
    if Untranslatable(text) then Kept
    else if google.text.Some? && google.text.value != "" then Translated(Google, google.text.value)
    else if deepl.text.Some? && deepl.text.value != "" then Translated(DeepL, deepl.text.value)
    else Failed(google.reason, deepl.reason)
  }

  /** Who pays for a translation requested for `groupId`: the group's first owner, when the
    * group id and the owner's id are both non-empty; nobody otherwise. */
  function Payer(t: TenantTable, groupId: Option<GroupId>): (p: Option<UserId>)
    ensures p.Some? ==> p.value != "" && p.value in Keys(t)
  {
    if groupId.Some? && groupId.value != "" then
      match FirstOwner(t, groupId.value)
      case Some(e) => if e.userId != "" then Some(e.userId) else None
      case None => None
    else None
  }

  /** The tenants after billing `payer` for `times` translations of `chars` characters. */
  function Billed(t: TenantTable, payer: Option<UserId>, times: int, chars: int): (r: TenantTable)
    ensures UniqueKeys(t) ==> UniqueKeys(r)
  {
    match payer
    case None => t
    case Some(u) => WithUsage(t, u, times, chars)
  }

  /** Billing nothing leaves the tenants alone. */
  lemma BilledZero(t: TenantTable, payer: Option<UserId>)
    ensures Billed(t, payer, 0, 0) == t
  {
    if payer.Some? {
      WithUsageZero(t, payer.value);
    }
  }

  /** Billing twice is billing once with the summed counts. */
  lemma BilledAdds(t: TenantTable, payer: Option<UserId>, a: int, b: int, c: int, d: int)
    ensures Billed(Billed(t, payer, a, b), payer, c, d) == Billed(t, payer, a + c, b + d)
  {
    if payer.Some? {
      WithUsageAdds(t, payer.value, a, b, c, d);
    }
  }

  /** `BilledAdds` with the summed counts named by the caller. */
  lemma BilledSum(t: TenantTable, payer: Option<UserId>, a: int, b: int, c: int, d: int, e: int, f: int)
    requires e == a + c && f == b + d
    ensures Billed(Billed(t, payer, a, b), payer, c, d) == Billed(t, payer, e, f)
  {
    BilledAdds(t, payer, a, b, c, d);
  }

  /** Billing never changes who pays for a group. */
  lemma BillingKeepsPayer(t: TenantTable, payer: Option<UserId>, a: int, b: int, groupId: Option<GroupId>)
    ensures Payer(Billed(t, payer, a, b), groupId) == Payer(t, groupId)
  {
    if payer.Some? && groupId.Some? {
      UsageKeepsOwner(t, payer.value, a, b, groupId.value);
      assert OwnerId(Billed(t, payer, a, b), groupId.value) == OwnerId(t, groupId.value);
    }
  }

  /** One more `translate_text` call continues a running bill and keeps the payer: a hit adds
    * one translation and `length` characters, a miss adds nothing. */
  lemma BillStep(t: TenantTable, mid: TenantTable, after: TenantTable, payer: Option<UserId>,
                 groupId: Option<GroupId>, count: int, chars: int, count': int, chars': int,
                 length: int, hit: bool)
    requires mid == Billed(t, payer, count, chars) && Payer(mid, groupId) == payer
    requires after == if hit then Billed(mid, Payer(mid, groupId), 1, length) else mid
    requires count' == count + (if hit then 1 else 0) && chars' == chars + (if hit then length else 0)
    ensures after == Billed(t, payer, count', chars')
    ensures Payer(after, groupId) == payer
  {
    if hit {
      BilledSum(t, payer, count, chars, 1, length, count', chars');
      BillingKeepsPayer(mid, payer, 1, length, groupId);
    }
  }

  /** The bill after language `i`: the running bill of the first `i` languages, continued by
    * what `translate_text` charged for language `i`, is the bill of the first `i + 1`. */
  lemma BillLine(key: string, supported: set<string>, text: string, langs: seq<string>,
                 google: seq<seq<Response<GoogleBody>>>, deepl: seq<seq<Response<DeepLBody>>>, i: nat,
                 before: Document, mid: Document, after: Document, payer: Option<UserId>,
                 groupId: Option<GroupId>)
    requires Oracles(langs, google, deepl) && i < |langs|
    requires mid == before.(tenants := Billed(before.tenants, payer,
      TranslatedCount(key, supported, text, langs, google, deepl, i),
      TranslatedChars(key, supported, text, langs, google, deepl, i)))
    requires Payer(mid.tenants, groupId) == payer
    requires after == mid.(tenants :=
      if OutcomeOf(key, supported, text, langs[i], google[i], deepl[i]).Translated?
      then Billed(mid.tenants, Payer(mid.tenants, groupId), 1, |text|)
      else mid.tenants)
    ensures after == before.(tenants := Billed(before.tenants, payer,
      TranslatedCount(key, supported, text, langs, google, deepl, i + 1),
      TranslatedChars(key, supported, text, langs, google, deepl, i + 1)))
    ensures Payer(after.tenants, groupId) == payer
  {
    TranslatedStep(key, supported, text, langs, google, deepl, i);
    BillStep(before.tenants, mid.tenants, after.tenants, payer, groupId,
             TranslatedCount(key, supported, text, langs, google, deepl, i),
             TranslatedChars(key, supported, text, langs, google, deepl, i),
             TranslatedCount(key, supported, text, langs, google, deepl, i + 1),
             TranslatedChars(key, supported, text, langs, google, deepl, i + 1), |text|,
             OutcomeOf(key, supported, text, langs[i], google[i], deepl[i]).Translated?);
  }

  /** The stats update `translate_text` makes after a provider translation: the group's first
    * owner, when the group id and the owner's id are non-empty, gets one more translation and
    * `length` more characters. */
  method ChargeGroup(store: DataStore, groupId: Option<GroupId>, length: nat)
    modifies store
    ensures old(store.Valid()) ==> store.Valid()
    ensures store.data == old(store.data).(tenants :=
      Billed(old(store.data.tenants), Payer(old(store.data.tenants), groupId), 1, length))
  {
    if groupId.Some? && groupId.value != "" {
      var owner := GetTenantByGroup(store, groupId.value);
      if owner.Some? && owner.value.userId != "" {
        UpdateTenantStats(store, owner.value.userId, 1, length);
      }
    }
  }

  /** Google is asked first and DeepL only when Google has no translation; whatever the order
    * preference, a Google translation is the answer. */
  lemma GoogleFirst(text: string, google: Answer, deepl: Answer)
    requires !Untranslatable(text)
    requires google.text.Some? <==> google.reason == Ok
    requires google.text.Some? ==> google.text.value != ""
    ensures google.reason == Ok ==> Dispatch(text, google, deepl) == Translated(Google, google.text.value)
    ensures google.reason != Ok ==> Dispatch(text, google, deepl).Consulted() == [Google, DeepL]
  {
  }

  /** When both providers fail the reply is the fixed failure message, whatever the reasons. */
  lemma BothFailFallback(text: string, google: Answer, deepl: Answer)
    requires !Untranslatable(text) && google.text.None? && deepl.text.None?
    ensures Dispatch(text, google, deepl).Reply(text) == FailureMessage
  {
  }

  /** Numbers, written with any blanks, full stops and commas, come back unchanged and no
    * provider is asked. */
  lemma NumbersKept(text: string, google: Answer, deepl: Answer)
    requires exists c :: c in text && IsDigit(c)
    requires forall c :: c in text ==> IsDigit(c) || Separator(c)
    ensures Dispatch(text, google, deepl) == Kept
    ensures Dispatch(text, google, deepl).Reply(text) == text
    ensures Dispatch(text, google, deepl).Consulted() == []
  {
    assert Untranslatable(text) by {
      var d :| d in text && IsDigit(d);
      StripSound(text);
      assert d in Strip(text);
      UntranslatableIff(text);
    }
  }

  /** Text with a character that is neither white space, a digit nor a separator goes to the
    * providers. */
  lemma WordsSent(text: string)
    requires exists c :: c in text && !IsSpace(c) && !IsDigit(c) && !Separator(c)
    ensures !Untranslatable(text)
  {
    UntranslatableIff(text);
    var c :| c in text && !IsSpace(c) && !IsDigit(c) && !Separator(c);
    StripSound(text);
    assert c in Strip(text);
  }

  /** The outcome of `translate_text(text, lang)` for a DeepL client with `key` and the
    * `supported` target cache, against these response sequences. */
  function OutcomeOf(key: string, supported: set<string>, text: string, lang: string,
                     google: seq<Response<GoogleBody>>, deepl: seq<Response<DeepLBody>>): Outcome
    requires |google| == MaxRetries && |deepl| == MaxRetries
  {
    Dispatch(text, GoogleSpec(google), DeepLSpec(key, supported, lang, deepl))
  }

  /** One line of the formatted result: `[lang] reply`. */
  function Line(key: string, supported: set<string>, text: string, lang: string,
                google: seq<Response<GoogleBody>>, deepl: seq<Response<DeepLBody>>): string
    requires |google| == MaxRetries && |deepl| == MaxRetries
  {
    "[" + lang + "] " + OutcomeOf(key, supported, text, lang, google, deepl).Reply(text)
  }

  /** 1 when a provider translated, else 0. */
  function Hit(key: string, supported: set<string>, text: string, lang: string,
               google: seq<Response<GoogleBody>>, deepl: seq<Response<DeepLBody>>): nat
    requires |google| == MaxRetries && |deepl| == MaxRetries
  {
    if OutcomeOf(key, supported, text, lang, google, deepl).Translated? then 1 else 0
  }

  /** Whether each language has its two Google and two DeepL responses. */
  predicate Oracles(langs: seq<string>, google: seq<seq<Response<GoogleBody>>>,
                    deepl: seq<seq<Response<DeepLBody>>>) {
    && |google| == |langs| && |deepl| == |langs|
    && forall i :: 0 <= i < |langs| ==> |google[i]| == MaxRetries && |deepl[i]| == MaxRetries
  }

  /** The lines `_format_translation_results` joins, one per language in order. */
  function ResultLines(key: string, supported: set<string>, text: string, langs: seq<string>,
                       google: seq<seq<Response<GoogleBody>>>, deepl: seq<seq<Response<DeepLBody>>>)
    : (lines: seq<string>)
    requires Oracles(langs, google, deepl)
    ensures |lines| == |langs|
    ensures forall i :: 0 <= i < |langs| ==>
      lines[i] == Line(key, supported, text, langs[i], google[i], deepl[i])
  {
    seq(|langs|, i requires 0 <= i < |langs| && |google[i]| == MaxRetries && |deepl[i]| == MaxRetries =>
                   Line(key, supported, text, langs[i], google[i], deepl[i]))
  }

  /** The lines of the first `n` languages, built one language at a time as the loop does. */
  function LinesUpTo(key: string, supported: set<string>, text: string, langs: seq<string>,
                     google: seq<seq<Response<GoogleBody>>>, deepl: seq<seq<Response<DeepLBody>>>,
                     n: nat): (lines: seq<string>)
    requires n <= |langs| && Oracles(langs, google, deepl)
    ensures |lines| == n
  {
    if n == 0 then []
    else LinesUpTo(key, supported, text, langs, google, deepl, n - 1)
         + [Line(key, supported, text, langs[n - 1], google[n - 1], deepl[n - 1])]
  }

  /** A prefix one longer is the shorter prefix and the next element. */
  lemma PrefixGrows<T>(s: seq<T>, n: nat)
    requires 0 < n <= |s|
    ensures s[..n] == s[..n - 1] + [s[n - 1]]
  {
  }

  /** Built one at a time, the lines of the first `n` languages are the first `n` result lines. */
  lemma {:induction false} LinesUpToPrefix(key: string, supported: set<string>, text: string, langs: seq<string>,
                                           google: seq<seq<Response<GoogleBody>>>,
                                           deepl: seq<seq<Response<DeepLBody>>>, n: nat)
    requires n <= |langs| && Oracles(langs, google, deepl)
    ensures LinesUpTo(key, supported, text, langs, google, deepl, n)
            == ResultLines(key, supported, text, langs, google, deepl)[..n]
  {
    var lines := ResultLines(key, supported, text, langs, google, deepl);
    if n > 0 {
      LinesUpToPrefix(key, supported, text, langs, google, deepl, n - 1);
      var last := Line(key, supported, text, langs[n - 1], google[n - 1], deepl[n - 1]);
      assert LinesUpTo(key, supported, text, langs, google, deepl, n)
             == LinesUpTo(key, supported, text, langs, google, deepl, n - 1) + [last];
      assert lines[n - 1] == last;
      PrefixGrows(lines, n);
    }
  }

  /** Built one at a time for every language, the lines are the result lines. */
  lemma LinesUpToAll(key: string, supported: set<string>, text: string, langs: seq<string>,
                     google: seq<seq<Response<GoogleBody>>>, deepl: seq<seq<Response<DeepLBody>>>)
    requires Oracles(langs, google, deepl)
    ensures LinesUpTo(key, supported, text, langs, google, deepl, |langs|)
            == ResultLines(key, supported, text, langs, google, deepl)
  {
    LinesUpToPrefix(key, supported, text, langs, google, deepl, |langs|);
    WholePrefix(ResultLines(key, supported, text, langs, google, deepl));
  }

  /** The prefix as long as the sequence is the sequence. */
  lemma WholePrefix<T>(s: seq<T>)
    ensures s[..|s|] == s
  {
  }

  /** When no line contains a newline, the formatted text splits back into exactly one line
    * per language, in order. */
  lemma OneLinePerLanguage(key: string, supported: set<string>, text: string, langs: seq<string>,
                           google: seq<seq<Response<GoogleBody>>>, deepl: seq<seq<Response<DeepLBody>>>)
    requires Oracles(langs, google, deepl) && |langs| >= 1
    requires forall i :: 0 <= i < |langs| ==> '\n' !in Line(key, supported, text, langs[i], google[i], deepl[i])
    ensures Split(Join(ResultLines(key, supported, text, langs, google, deepl), '\n'), '\n')
            == ResultLines(key, supported, text, langs, google, deepl)
  {
    var lines := ResultLines(key, supported, text, langs, google, deepl);
    SplitJoin(lines, '\n');
  }

  /** How many of the first `n` languages a provider translated. */
  function TranslatedCount(key: string, supported: set<string>, text: string, langs: seq<string>,
                           google: seq<seq<Response<GoogleBody>>>, deepl: seq<seq<Response<DeepLBody>>>,
                           n: nat): (k: nat)
    requires n <= |langs| && Oracles(langs, google, deepl)
    ensures k <= n
  {
    if n == 0 then 0
    else TranslatedCount(key, supported, text, langs, google, deepl, n - 1)
         + Hit(key, supported, text, langs[n - 1], google[n - 1], deepl[n - 1])
  }

  /** How many characters the first `n` languages charged: `len(text)` per translated one. */
  function TranslatedChars(key: string, supported: set<string>, text: string, langs: seq<string>,
                           google: seq<seq<Response<GoogleBody>>>, deepl: seq<seq<Response<DeepLBody>>>,
                           n: nat): nat
    requires n <= |langs| && Oracles(langs, google, deepl)
  {
    if n == 0 then 0
    else TranslatedChars(key, supported, text, langs, google, deepl, n - 1)
         + (if OutcomeOf(key, supported, text, langs[n - 1], google[n - 1], deepl[n - 1]).Translated?
            then |text| else 0)
  }

  /** One more language adds its hit to the count and, when translated, the text's length to
    * the characters. */
  lemma TranslatedStep(key: string, supported: set<string>, text: string, langs: seq<string>,
                       google: seq<seq<Response<GoogleBody>>>, deepl: seq<seq<Response<DeepLBody>>>, i: nat)
    requires i < |langs| && Oracles(langs, google, deepl)
    ensures var hit := OutcomeOf(key, supported, text, langs[i], google[i], deepl[i]).Translated?;
      && TranslatedCount(key, supported, text, langs, google, deepl, i + 1)
         == TranslatedCount(key, supported, text, langs, google, deepl, i) + (if hit then 1 else 0)
      && TranslatedChars(key, supported, text, langs, google, deepl, i + 1)
         == TranslatedChars(key, supported, text, langs, google, deepl, i) + (if hit then |text| else 0)
  {
  }

  /** Every translated language charges exactly the length of the text. */
  lemma {:induction false} CharsPerTranslation(key: string, supported: set<string>, text: string,
                                               langs: seq<string>, google: seq<seq<Response<GoogleBody>>>,
                                               deepl: seq<seq<Response<DeepLBody>>>, n: nat)
    requires n <= |langs| && Oracles(langs, google, deepl)
    ensures TranslatedChars(key, supported, text, langs, google, deepl, n)
            == TranslatedCount(key, supported, text, langs, google, deepl, n) * |text|
  {
    if n > 0 {
      CharsPerTranslation(key, supported, text, langs, google, deepl, n - 1);
      TranslatedStep(key, supported, text, langs, google, deepl, n - 1);
      ChargeStep(TranslatedCount(key, supported, text, langs, google, deepl, n - 1),
                 TranslatedChars(key, supported, text, langs, google, deepl, n - 1),
                 TranslatedCount(key, supported, text, langs, google, deepl, n),
                 TranslatedChars(key, supported, text, langs, google, deepl, n), |text|,
                 OutcomeOf(key, supported, text, langs[n - 1], google[n - 1], deepl[n - 1]).Translated?);
    }
  }

  /** `m` characters per translation stay so when a hit adds one translation and `m` characters. */
  lemma ChargeStep(k: int, c: int, k': int, c': int, m: int, hit: bool)
    requires c == k * m
    requires k' == k + (if hit then 1 else 0) && c' == c + (if hit then m else 0)
    ensures c' == k' * m
  {
  }

  /** With the fallback list loaded, the menu languages DeepL is assumed to lack (Thai,
    * Vietnamese, Indonesian, Burmese) are refused without a request, and the others are sent. */
  lemma FallbackCoverage(key: string, responses: seq<Response<DeepLBody>>)
    requires key != "" && |responses| == MaxRetries
    ensures forall lang :: lang in ["th", "vi", "id", "my"] ==>
      DeepLSpec(key, FallbackTargets, lang, responses) == Answer(None, UnsupportedLanguage)
    ensures forall lang :: lang in ["zh-TW", "en", "ja", "ru", "ko"] ==> DeepLSends(key, FallbackTargets, lang)
  {
    FallbackRefuses(key, responses);
    FallbackSends(key);
  }

  /** The fallback list lacks Thai, Vietnamese, Indonesian and Burmese. */
  lemma FallbackRefuses(key: string, responses: seq<Response<DeepLBody>>)
    requires key != "" && |responses| == MaxRetries
    ensures forall lang :: lang in ["th", "vi", "id", "my"] ==>
      DeepLSpec(key, FallbackTargets, lang, responses) == Answer(None, UnsupportedLanguage)
  {
    assert DeepLTarget("th") == "TH" && DeepLTarget("vi") == "VI";
    assert DeepLTarget("id") == "ID" && DeepLTarget("my") == "MY";
  }

  /** The fallback list has the other menu languages. */
  lemma FallbackSends(key: string)
    requires key != ""
    ensures forall lang :: lang in ["zh-TW", "en", "ja", "ru", "ko"] ==> DeepLSends(key, FallbackTargets, lang)
  {
    assert DeepLTarget("zh-TW") == "ZH-HANT" && DeepLTarget("en") == "EN" && DeepLTarget("ja") == "JA";
    assert DeepLTarget("ru") == "RU" && DeepLTarget("ko") == "KO";
  }

  /** The module's DeepL state: the configured key and the supported-target cache. */
  class DeepLClient {
    const apiKey: string
    var supportedTargets: set<string>

    constructor (apiKey: string)
      ensures this.apiKey == apiKey && supportedTargets == {}
    {
      this.apiKey := apiKey;
      supportedTargets := {};
    }

    /** `_load_deepl_supported_languages()`: without a key nothing changes and no request is
      * made; a 200 reply gives the upper-cased `language` codes; any other status or an
      * exception gives the fixed fallback list. */
    method LoadSupportedLanguages(reply: LanguagesReply)
      modifies this`supportedTargets
      ensures apiKey == "" ==> supportedTargets == old(supportedTargets)
      ensures apiKey != "" && reply.LanguagesReplied? && reply.status == 200 ==>
        supportedTargets == set i | 0 <= i < |reply.languages| :: Upper(reply.languages[i])
      ensures apiKey != "" && !(reply.LanguagesReplied? && reply.status == 200) ==>
        supportedTargets == FallbackTargets
    {
      if apiKey == "" {
        return;
      }
      match reply {
        case LanguagesReplied(status, languages) =>
          if status == 200 {
            supportedTargets := set i | 0 <= i < |languages| :: Upper(languages[i]);
          } else {
            supportedTargets := FallbackTargets;
          }
        case LanguagesFailed =>
          supportedTargets := FallbackTargets;
      }
    }

    /** `_translate_with_deepl(text, target_lang)`: no key answers 'no_api_key' and a target
      * missing from a loaded list answers 'unsupported_language', both without a request;
      * otherwise the same two-attempt loop as Google's, sending the DeepL code of the target. */
    method TranslateWithDeepL(text: string, lang: string, responses: seq<Response<DeepLBody>>)
      returns (translated: Option<string>, reason: Reason, ghost log: seq<Event>)
      requires |responses| == MaxRetries
      ensures Answer(translated, reason) == DeepLSpec(apiKey, supportedTargets, lang, responses)
      ensures translated.Some? <==> reason == Ok
      ensures translated.Some? ==> translated.value != ""
      ensures reason != UnknownError
      ensures apiKey == "" ==> reason == NoApiKey
      ensures !DeepLSends(apiKey, supportedTargets, lang) ==> log == []
      ensures DeepLSends(apiKey, supportedTargets, lang) ==>
        var sent := Sent(text, DeepLTarget(lang));
        log == if DeepLRetries(responses[0]) then [sent, Slept(Backoff(responses[0])), sent] else [sent]
    {
      log := [];
      if apiKey == "" {
        return None, NoApiKey, log;
      }
      var target := DeepLTarget(lang);
      if supportedTargets != {} && target !in supportedTargets {
        return None, UnsupportedLanguage, log;
      }
      var attempt := 1;
      while attempt <= MaxRetries
        invariant 1 <= attempt <= MaxRetries
        invariant attempt == 1 ==> log == []
        invariant attempt == 2 ==> DeepLRetries(responses[0])
                                   && log == [Sent(text, target), Slept(Backoff(responses[0]))]
        decreases MaxRetries - attempt
      {
        var res := responses[attempt - 1];
        log := log + [Sent(text, target)];
        match res {
          case TimedOut =>
            if attempt == MaxRetries { return None, Timeout, log; }
            log := log + [Slept(3)];
          case ConnectionFailed =>
            if attempt == MaxRetries { return None, NetworkError, log; }
            log := log + [Slept(3)];
          case Replied(status, body) =>
            if status == 429 {
              if attempt < MaxRetries {
                log := log + [Slept(20)];
                attempt := attempt + 1;
                continue;
              }
              return None, RateLimited, log;
            }
            if status != 200 {
              if attempt == MaxRetries { return None, Http(status), log; }
              log := log + [Slept(3)];
            } else {
              match body {
                case NoTranslations =>
                  if attempt == MaxRetries { return None, EmptyResponse, log; }
                  log := log + [Slept(3)];
                case DeepLText(t) =>
                  if t != "" { return Some(t), Ok, log; }
                  return None, InvalidResponse, log;
                case DeepLUnparseable =>
                  if attempt == MaxRetries { return None, ParseError, log; }
                  log := log + [Slept(3)];
              }
            }
        }
        attempt := attempt + 1;
      }
      assert false;
      return None, UnknownError, log;
    }

    /** `translate_text(text, target_lang, prefer_deepl_first, group_id)`: the reply is the
      * dispatch outcome's (the order preference is ignored: Google is always asked first and
      * DeepL only after Google failed); a provider translation for a group charges its first
      * owner one translation and `len(text)` characters; nothing else changes. */
    method TranslateText(store: DataStore, text: string, lang: string, preferDeepLFirst: bool,
                         groupId: Option<GroupId>, google: seq<Response<GoogleBody>>,
                         deepl: seq<Response<DeepLBody>>)
      returns (r: string, ghost consulted: seq<Provider>)
      requires |google| == MaxRetries && |deepl| == MaxRetries
      modifies store
      ensures old(store.Valid()) ==> store.Valid()
      ensures r == OutcomeOf(apiKey, supportedTargets, text, lang, google, deepl).Reply(text)
      ensures consulted == OutcomeOf(apiKey, supportedTargets, text, lang, google, deepl).Consulted()
      ensures consulted != [] ==> consulted[0] == Google
      ensures DeepL in consulted ==> GoogleSpec(google).reason != Ok
      ensures store.data == old(store.data).(tenants :=
        if OutcomeOf(apiKey, supportedTargets, text, lang, google, deepl).Translated?
        then Billed(old(store.data.tenants), Payer(old(store.data.tenants), groupId), 1, |text|)
        else old(store.data.tenants))
    {
      if text == "" || IsDigitString(Without(Without(Without(Strip(text), ' '), '.'), ',')) {
        return text, [];
      }
      var translated, googleReason, _ := TranslateWithGoogle(text, lang, google);
      consulted := [Google];
      if translated.Some? && translated.value != "" {
        ChargeGroup(store, groupId, |text|);
        return translated.value, consulted;
      }
      var deeplReason;
      ghost var deeplLog;
      translated, deeplReason, deeplLog := TranslateWithDeepL(text, lang, deepl);
      consulted := consulted + [DeepL];
      if translated.Some? && translated.value != "" {
        ChargeGroup(store, groupId, |text|);
        return translated.value, consulted;
      }
      return FailureMessage, consulted;
    }

    /** One language of `_format_translation_results`: its `[lang] reply` line, with the
      * running bill continued by this language's translation, if any. */
    method FormatLine(store: DataStore, text: string, langs: seq<string>, preferDeepLFirst: bool,
                      groupId: Option<GroupId>, google: seq<seq<Response<GoogleBody>>>,
                      deepl: seq<seq<Response<DeepLBody>>>, i: nat, ghost before: Document,
                      ghost payer: Option<UserId>)
      returns (line: string)
      requires Oracles(langs, google, deepl) && i < |langs|
      requires store.data == before.(tenants := Billed(before.tenants, payer,
        TranslatedCount(apiKey, supportedTargets, text, langs, google, deepl, i),
        TranslatedChars(apiKey, supportedTargets, text, langs, google, deepl, i)))
      requires Payer(store.data.tenants, groupId) == payer
      modifies store
      ensures line == Line(apiKey, supportedTargets, text, langs[i], google[i], deepl[i])
      ensures LinesUpTo(apiKey, supportedTargets, text, langs, google, deepl, i) + [line]
              == LinesUpTo(apiKey, supportedTargets, text, langs, google, deepl, i + 1)
      ensures store.data == before.(tenants := Billed(before.tenants, payer,
        TranslatedCount(apiKey, supportedTargets, text, langs, google, deepl, i + 1),
        TranslatedChars(apiKey, supportedTargets, text, langs, google, deepl, i + 1)))
      ensures Payer(store.data.tenants, groupId) == payer
    {
      ghost var mid := store.data;
      var translated, _ := TranslateText(store, text, langs[i], preferDeepLFirst, groupId, google[i], deepl[i]);
      BillLine(apiKey, supportedTargets, text, langs, google, deepl, i, before, mid, store.data, payer, groupId);
      line := "[" + langs[i] + "] " + translated;
    }

    /** The loop of `_format_translation_results`: the `[lang] reply` line of every language,
      * in order, with the group's owner charged once per translated language. */
    method FormatLines(store: DataStore, text: string, langs: seq<string>,
                       preferDeepLFirst: bool, groupId: Option<GroupId>,
                       google: seq<seq<Response<GoogleBody>>>,
                       deepl: seq<seq<Response<DeepLBody>>>)
      returns (results: seq<string>)
      requires Oracles(langs, google, deepl)
      modifies store
      ensures results == ResultLines(apiKey, supportedTargets, text, langs, google, deepl)
      ensures store.data == old(store.data).(tenants :=
        Billed(old(store.data.tenants), Payer(old(store.data.tenants), groupId),
        TranslatedCount(apiKey, supportedTargets, text, langs, google, deepl, |langs|),
        TranslatedChars(apiKey, supportedTargets, text, langs, google, deepl, |langs|)))
    {
      ghost var before := store.data;
      results := [];
      ghost var payer := Payer(before.tenants, groupId);
      BilledZero(before.tenants, payer);
      for i := 0 to |langs|
        invariant results == LinesUpTo(apiKey, supportedTargets, text, langs, google, deepl, i)
        invariant store.data == before.(tenants := Billed(before.tenants, payer,
          TranslatedCount(apiKey, supportedTargets, text, langs, google, deepl, i),
          TranslatedChars(apiKey, supportedTargets, text, langs, google, deepl, i)))
        invariant Payer(store.data.tenants, groupId) == payer
      {
        var line := FormatLine(store, text, langs, preferDeepLFirst, groupId, google, deepl, i, before, payer);
        results := results + [line];
      }
      LinesUpToAll(apiKey, supportedTargets, text, langs, google, deepl);
    }

    /** `_format_translation_results(text, langs, ...)`: one line `[lang] reply` per language,
      * in order, joined by newlines; every translated language charges the group's owner. */
    method FormatTranslationResults(store: DataStore, text: string, langs: seq<string>,
                                    preferDeepLFirst: bool, groupId: Option<GroupId>,
                                    google: seq<seq<Response<GoogleBody>>>,
                                    deepl: seq<seq<Response<DeepLBody>>>)
      returns (r: string)
      requires Oracles(langs, google, deepl)
      modifies store
      ensures old(store.Valid()) ==> store.Valid()
      ensures r == Join(ResultLines(apiKey, supportedTargets, text, langs, google, deepl), '\n')
      ensures store.data == old(store.data).(tenants :=
        Billed(old(store.data.tenants), Payer(old(store.data.tenants), groupId),
        TranslatedCount(apiKey, supportedTargets, text, langs, google, deepl, |langs|),
        TranslatedChars(apiKey, supportedTargets, text, langs, google, deepl, |langs|)))
    {
      var results := FormatLines(store, text, langs, preferDeepLFirst, groupId, google, deepl);
      r := Join(results, '\n');
    }

  }
}
