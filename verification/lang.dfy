/**
 * Language switching of the greeting widget (script.js): a two-entry
 * translation table, lookup with an English fallback, and the remembered
 * preference `preferredLang`.
 */
module Lang {
  import opened Wrappers

  /** The three labels of one language. */
  datatype Translation = Translation(greeting: string, localTimeLabel: string, refresh: string)

  const English := Translation("Hello, Nairobi \U{1F44B}", "Local time:", "Refresh time")
  const Swahili := Translation("Hujambo Nairobi \U{1F44B}", "Wakati wa eneo:", "Sasisha wakati")

  const Translations: map<string, Translation> := map["en" := English, "sw" := Swahili]

  /** Every label of the translation is non-empty. */
  predicate Complete(t: Translation) {
    t.greeting != "" && t.localTimeLabel != "" && t.refresh != ""
  }

  /** `translations[lang] || translations.en`. */
  function Resolve(lang: string): (t: Translation)
    ensures lang == "sw" ==> t == Swahili
    ensures lang != "sw" ==> t == English
    ensures Complete(t)
  {
    if lang in Translations then Translations[lang] else Translations["en"]
  }

  /** What `applyLanguage` leaves behind: the labels shown, the value assigned
      to the language selector, and the preference stored afterwards. */
  datatype Page = Page(shown: Translation, selected: string, preferredLang: Option<string>)

  /** `applyLanguage(lang)` over a previously stored preference: the resolved
      labels are shown and `lang` itself is assigned to the selector, even when
      the lookup fell back to English; `lang` is stored as the preference when
      the write succeeds, and a failed write leaves the stored value as it was. */
  function ApplyLanguage(stored: Option<string>, lang: string, write: IoOutcome): (p: Page)
    ensures p.selected == lang
    ensures p.shown == Resolve(lang)
    ensures Complete(p.shown)
    ensures write.Succeeded? ==> p.preferredLang == Some(lang)
    ensures write.Failed? ==> p.preferredLang == stored
  {
    var t := Resolve(lang);
    match write
    case Succeeded => Page(t, lang, Some(lang))
    case Failed => Page(t, lang, stored)
  }

  /** `localStorage.getItem('preferredLang') || 'en'`: a missing or empty
      saved preference starts the page in English. */
  function StartupLanguage(saved: Option<string>): (lang: string)
    ensures saved.Some? && saved.value != "" ==> lang == saved.value
    ensures saved.None? || saved.value == "" ==> lang == "en"
  {
    if saved.Some? && saved.value != "" then saved.value else "en"
  }

  /** The start-up handler: the saved preference, or English when there is
      none, is applied; a successful write never stores an empty preference,
      and a failed one leaves the saved value in place. */
  function Startup(saved: Option<string>, write: IoOutcome): (p: Page)
    ensures p.shown == (if saved == Some("sw") then Swahili else English)
    ensures write.Succeeded? ==> p.preferredLang.Some? && p.preferredLang.value != ""
    ensures write.Failed? ==> p.preferredLang == saved
    ensures saved.None? && write.Succeeded? ==> p == Page(English, "en", Some("en"))
    ensures p.selected == StartupLanguage(saved)
    ensures write.Succeeded? ==> p.preferredLang == Some(StartupLanguage(saved))
    ensures saved.Some? && saved.value != "" ==> p.preferredLang == saved
  {
    ApplyLanguage(saved, StartupLanguage(saved), write)
  }

  /** An empty saved preference is treated like a missing one, and once the
      English default has been stored, every later start-up shows the same
      page, whether or not its own write succeeds. */
  lemma DefaultIsEnglish(write: IoOutcome)
    ensures Startup(Some(""), Succeeded) == Startup(None, Succeeded)
    ensures Startup(Startup(None, Succeeded).preferredLang, write) == Startup(None, Succeeded)
  {
  }

  /** After a stored choice, a reload shows the labels the user chose, whatever
      key was chosen; for a non-empty key the whole page comes back the same. */
  lemma PreferenceSurvivesReload(stored: Option<string>, lang: string, reload: IoOutcome)
    ensures var p := ApplyLanguage(stored, lang, Succeeded);
            Startup(p.preferredLang, reload).shown == p.shown
    ensures var p := ApplyLanguage(stored, lang, Succeeded);
            lang != "" ==> Startup(p.preferredLang, Succeeded) == p
  {
  }

  /** When storing the choice fails, the labels still change, but a reload
      shows what the earlier preference showed. */
  lemma FailedWriteForgetsChoice(stored: Option<string>, lang: string, reload: IoOutcome)
    ensures var p := ApplyLanguage(stored, lang, Failed);
            p.shown == Resolve(lang)
            && Startup(p.preferredLang, reload).shown == Startup(stored, reload).shown
  {
  }
}
