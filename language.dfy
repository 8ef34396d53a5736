/** The page's translations (web/static/js/language.js): two string tables,
    a lookup that falls back to the key itself, and the current language,
    which starts from the stored choice and changes only to a language that
    has a table. */
module I18n {
  import opened Messages

  const DefaultLanguage: string := "en"

  /** The English table. */
  const En: map<string, string> := map[
    "title" := "Discord Bot Control Panel",
    "select-server" := "Select a server",
    "no-servers" := "No servers available",
    "error-server" := "Server error",
    "select-server-first" := "Select a server first",
    "select-channel" := "Select a channel",
    "no-channels" := "No channels available",
    "refresh" := "Refresh",
    "msg-no-messages" := "No messages available",
    "error-connection" := "Connection error",
    "loading" := "Loading...",
    "language" := "Language",
    "english" := "English",
    "chinese" := "Traditional Chinese"]

  /** The Traditional Chinese table. */
  const ZhTw: map<string, string> := map[
    "title" := "Discord 機器人控制面板",
    "select-server" := "選擇伺服器",
    "no-servers" := "沒有可用的伺服器",
    "error-server" := "伺服器錯誤",
    "select-server-first" := "請先選擇伺服器",
    "select-channel" := "選擇頻道",
    "no-channels" := "沒有可用的頻道",
    "refresh" := "重新整理",
    "msg-no-messages" := "沒有可用的訊息",
    "error-connection" := "連線錯誤",
    "loading" := "載入中...",
    "language" := "語言",
    "english" := "英文",
    "chinese" := "繁體中文"]

  /** `translations`, by language code. */
  const Translations: map<string, map<string, string>> := map["en" := En, "zh-TW" := ZhTw]

  /** `t(key)` while `lang` is the current language: the translation when the
      language has a table and the key a non-empty entry in it, else the key
      itself. */
  function T(lang: string, key: string): (r: string)
    ensures lang !in Translations ==> r == key
    ensures lang in Translations && key !in Translations[lang] ==> r == key
    ensures lang in Translations && key in Translations[lang] ==>
      r == if Translations[lang][key] == "" then key else Translations[lang][key]
  {
    if lang !in Translations then key
    else if key in Translations[lang] && Translations[lang][key] != "" then Translations[lang][key]
    else key
  }

  /** Both tables translate the same keys. */
  lemma SameKeys()
    ensures Translations["en"].Keys == Translations["zh-TW"].Keys
  {
  }

  /** No entry of either table is empty, so for a known language every key
      of its table is translated and only other keys fall back to themselves. */
  lemma KnownKeysTranslated(lang: string, key: string)
    requires lang in Translations
    ensures key in Translations[lang] ==> T(lang, key) == Translations[lang][key] && T(lang, key) != ""
    ensures key !in Translations[lang] ==> T(lang, key) == key
  {
    if key in Translations[lang] {
      assert Translations[lang][key] in Translations[lang].Values;
      assert lang == "en" || lang == "zh-TW";
      assert forall v :: v in En.Values ==> v != "";
      assert forall v :: v in ZhTw.Values ==> v != "";
    }
  }

  /** The module's `currentLanguage` and the `language` entry of
      `localStorage`. */
  class LanguageState {
    var currentLanguage: string
    var stored: Option<string>

    /** `localStorage.getItem('language') || 'en'`: a missing or empty stored
        value gives English; any other stored value is taken as it is, even
        one without a table (whose lookups then return their keys). */
    constructor (stored: Option<string>)
      ensures this.stored == stored
      ensures !Truthy(stored) ==> currentLanguage == DefaultLanguage
      ensures Truthy(stored) ==> currentLanguage == stored.value
    {
      this.stored := stored;
      currentLanguage := if Truthy(stored) then stored.value else DefaultLanguage;
    }

    /** `setLanguage(lang)`: a language with a table becomes current and is
        stored; any other is ignored. */
    method SetLanguage(lang: string)
      modifies this
      ensures lang in Translations ==> currentLanguage == lang && stored == Some(lang)
      ensures lang !in Translations ==> currentLanguage == old(currentLanguage) && stored == old(stored)
    {
      if lang in Translations {
        currentLanguage := lang;
        stored := Some(lang);
      }
    }
  }
}
