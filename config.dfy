/** The bot's configuration constants and the database URL normalisation done at import time. */
module Config {
  import opened Text

  /** Upper bound on translation jobs running at once (the admission gate's capacity). */
  const MaxConcurrentTranslations: nat := 4

  /** The language menu: (button label, language code), in display order. */
  const LanguageMap: seq<(string, string)> := [
    ("🇹🇼 中文(台灣)", "zh-TW"),
    ("🇺🇸 英文", "en"),
    ("🇹🇭 泰文", "th"),
    ("🇻🇳 越南文", "vi"),
    ("🇲🇲 緬甸文", "my"),
    ("🇰🇷 韓文", "ko"),
    ("🇮🇩 印尼文", "id"),
    ("🇯🇵 日文", "ja"),
    ("🇷🇺 俄文", "ru")
  ]

  /** The target languages a group gets on reset. */
  const DefaultTranslateLangs: set<string> := {"zh-TW"}

  /** The language codes the menu offers. */
  function MenuCodes(): (codes: set<string>)
    ensures forall i :: 0 <= i < |LanguageMap| ==> LanguageMap[i].1 in codes
    ensures forall c :: c in codes ==> exists i :: 0 <= i < |LanguageMap| && LanguageMap[i].1 == c
  {
    set i | 0 <= i < |LanguageMap| :: LanguageMap[i].1
  }

  /** The menu has nine entries and no code appears twice, so a code names one button. */
  lemma LanguageMapShape()
    ensures |LanguageMap| == 9
    ensures forall i, j :: 0 <= i < j < |LanguageMap| ==> LanguageMap[i].1 != LanguageMap[j].1
  {
  }

  /** The reset default is offered by the menu and is not empty. */
  lemma DefaultLangsOnMenu()
    ensures DefaultTranslateLangs != {}
    ensures DefaultTranslateLangs <= MenuCodes()
  {
    assert LanguageMap[0].1 == "zh-TW";
  }

  /** No code holds a colon, so `lang:<code>` splits back to the code. */
  lemma CodesHaveNoColon()
    ensures forall i :: 0 <= i < |LanguageMap| ==> ':' !in LanguageMap[i].1
  {
  }

  /** The gate admits at least one job. */
  lemma GateCapacityPositive()
    ensures MaxConcurrentTranslations > 0
  {
  }

  const LegacyScheme := "postgres://"
  const SqlAlchemyScheme := "postgresql://"

  /** `DATABASE_URL` as the rest of the program sees it: a URL starting with the legacy
    * `postgres://` scheme gets that prefix (its first occurrence) replaced by `postgresql://`;
    * every other URL, the empty one included, is kept. */
  function RewriteDatabaseUrl(url: string): (r: string)
    ensures StartsWith(url, LegacyScheme) ==>
      StartsWith(r, SqlAlchemyScheme) && r[|SqlAlchemyScheme|..] == url[|LegacyScheme|..]
    ensures !StartsWith(url, LegacyScheme) ==> r == url
    ensures !StartsWith(r, LegacyScheme)
  {
    if url != "" && StartsWith(url, LegacyScheme) then
      assert SqlAlchemyScheme[8] != LegacyScheme[8];
      SqlAlchemyScheme + url[|LegacyScheme|..]
    else url
  }

  /** Rewriting twice is rewriting once: the rewritten URL no longer has the legacy prefix. */
  lemma RewriteIdempotent(url: string)
    ensures RewriteDatabaseUrl(RewriteDatabaseUrl(url)) == RewriteDatabaseUrl(url)
  {
  }
}
