/** packages/main/src/utils/language.ts: the country-code to language-tag
    table and its case-insensitive lookup with an `en-US` fallback. */
module Language {
  import opened Js
  import Text

  const DefaultLang := "en-US"

  /** COUNTRY_LANG_MAP: upper-case ISO country code to language tag. */
  const CountryLangMap: map<string, string> := map[
    "CN" := "zh-CN", "TW" := "zh-TW", "HK" := "zh-HK", "JP" := "ja-JP", "KR" := "ko-KR",
    "US" := "en-US", "GB" := "en-GB", "AU" := "en-AU", "CA" := "en-CA", "NZ" := "en-NZ", "IE" := "en-IE",
    "DE" := "de-DE", "FR" := "fr-FR", "IT" := "it-IT", "ES" := "es-ES", "PT" := "pt-PT", "RU" := "ru-RU",
    "NL" := "nl-NL", "PL" := "pl-PL", "SE" := "sv-SE",
    "IN" := "hi-IN", "TH" := "th-TH", "VN" := "vi-VN", "ID" := "id-ID", "MY" := "ms-MY", "SG" := "en-SG",
    "TR" := "tr-TR", "SA" := "ar-SA", "AE" := "ar-AE",
    "BR" := "pt-BR", "MX" := "es-MX", "AR" := "es-AR"
  ]

  /** getLangByCountry: a missing or empty code gives `en-US`; otherwise the
      code is upper-cased and looked up, and an unknown code gives `en-US`. */
  function GetLangByCountry(countryCode: JsString): (lang: string)
    ensures lang != ""
    ensures lang == DefaultLang || lang in CountryLangMap.Values
    ensures !Truthy(countryCode) ==> lang == DefaultLang
    ensures Truthy(countryCode) && Text.ToUpper(countryCode.value) in CountryLangMap ==>
      lang == CountryLangMap[Text.ToUpper(countryCode.value)]
    ensures Truthy(countryCode) && Text.ToUpper(countryCode.value) !in CountryLangMap ==> lang == DefaultLang
  {
    if !Truthy(countryCode) then DefaultLang
    else
      var key := Text.ToUpper(countryCode.value);
      if key in CountryLangMap && CountryLangMap[key] != "" then CountryLangMap[key] else DefaultLang
  }

  /** The lookup ignores case: a code and its upper-cased form give the same tag. */
  lemma {:induction false} LookupIgnoresCase(code: string)
    ensures GetLangByCountry(Some(code)) == GetLangByCountry(Some(Text.ToUpper(code)))
  {
    Text.ToUpperIdempotent(code);
  }

  /** `'cn'` and `'CN'` both give `zh-CN`; an unknown code gives `en-US`. */
  lemma ChinaInEitherCase()
    ensures GetLangByCountry(Some("cn")) == "zh-CN"
    ensures GetLangByCountry(Some("CN")) == "zh-CN"
    ensures GetLangByCountry(Some("xx")) == DefaultLang
  {
    assert Text.ToUpper("cn") == "CN";
    assert Text.ToUpper("CN") == "CN";
    assert Text.ToUpper("xx") == "XX";
  }
}
