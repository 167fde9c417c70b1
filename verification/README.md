# Airtime reminders, weather codes and language switching

A functional model of the small decision procedures in three front-end
exercises of the repository:

- the airtime reminder screen (`day6-expo-airtime/App.js`): phone-number
  normalisation, amount validation, the ordered reminder list with its add
  and delete transitions, the initial load from device storage and the rule
  that the list shown only changes once the storage write succeeds;
- the weather widget's condition lookup (`weatherCodeToText` in
  `day4-weather/script.js`);
- the greeting widget's language resolution and remembered preference
  (`script.js`).

Modules: `Wrappers` (the `Option` type and the storage outcome `IoOutcome`), `Phone` (normalisation, with
`String.prototype.trim` and JavaScript's white-space class), `Store`
(reminders, storage, add/delete), `Weather`, `Lang`.

Storage outcomes, the id generator and the clock are parameters: every
storage write (the reminder list and the language preference) and the
reminder list's read take their outcome (`IoOutcome`) as an input, as do the
new reminder's id (required to be fresh in the list) and
its creation time as opaque values. The amount arrives already parsed by
`Number()`, as `Option<real>` with `None` for NaN. The stored JSON text is
represented by the list it encodes, or by `Unreadable` for an empty value or
one the parser rejects; JSON encoding is assumed to round-trip.

The phone normaliser is defined once for an arbitrary tail check
(`Phone.NormalizeBy`) and every structural property (rewrite of the local
form, pass-through of the canonical form, rejection of the rest, canonical
and white-space-free output, idempotence, indifference to trimming and
padding) is proved for all tail checks. `Phone.Normalize` instantiates it
with the tail the source's regular expressions actually accept (see
Findings); the store uses `Phone.Normalize`, so it models the screen as it
behaves. None of the store's proofs depends on which tail check is used.

The source's record has `id`, `phone`, `amount` and `createdAt` only; no due
dates, due-date sorting or overdue checks exist in the modelled code, so
none are modelled. Records read back from storage are trusted as they are,
as in the source (no field validation on load).

## Model

| member | source | states |
|---|---|---|
| Phone.StripWhitespace | day6-expo-airtime/App.js:29 | every white-space character is removed (result has none, is no longer, and a string without white space is unchanged; an all-blank string becomes empty) |
| Phone.StripWhitespaceAppend | day6-expo-airtime/App.js:29 | removing white space distributes over concatenation, i.e. it is a per-character filter that keeps order |
| Phone.StripPlus | day6-expo-airtime/App.js:29 | a leading `+` is removed and nothing else; a string not starting with `+` is unchanged |
| Phone.Clean | day6-expo-airtime/App.js:29 | the tested string is the de-blanked input with exactly one leading `+` removed when present, and contains no white space |
| Phone.NormalizeBy | day6-expo-airtime/App.js:28-34 | local form `07`/`01` + tail becomes `254` + input without its first character; canonical `2547`/`2541` + tail is returned unchanged; everything else is `None`; any result is canonical, blank-free and non-empty (so the caller's `!n` is a null test) |
| Phone.LocalBy | day6-expo-airtime/App.js:31 | the local pattern holds exactly when the string starts with `07` or `01` and the rest passes the tail check |
| Phone.CanonicalBy | day6-expo-airtime/App.js:32 | the canonical pattern holds exactly when the string starts with `2547` or `2541` and the rest passes the tail check |
| Phone.PatternsDisjoint | day6-expo-airtime/App.js:31-32 | no cleaned string matches both the local and the canonical pattern |
| Phone.CanonicalIsFixedPoint | day6-expo-airtime/App.js:32 | a blank-free canonical string normalises to itself |
| Phone.NormalizeIdempotent | day6-expo-airtime/App.js:31-32 | normalising a normalised number returns the same number |
| Phone.NormalizeIgnoresPadding | day6-expo-airtime/App.js:29 | white space before and after the input does not change the result |
| Phone.NormalizeIgnoresPlus | day6-expo-airtime/App.js:29 | one leading `+` does not change the result (a second one is not removed) |
| Phone.TrimStart | day6-expo-airtime/App.js:46 | `trim` drops a leading run of white space only, leaving a string that does not start with white space |
| Phone.TrimEnd | day6-expo-airtime/App.js:46 | `trim` drops a trailing run of white space only, leaving a string that does not end with white space |
| Phone.Trim | day6-expo-airtime/App.js:46 | `phone.trim()` is a slice of the input with only white space cut from either end, and neither starts nor ends with white space |
| Phone.StripWhitespaceTrim | day6-expo-airtime/App.js:46 | trimming removes nothing the de-blanking would keep |
| Phone.TrimInvisible | day6-expo-airtime/App.js:46 | normalising the trimmed phone equals normalising the raw phone |
| Phone.TailOk | day6-expo-airtime/App.js:31-32 | the tail `\\d{8}` of a regular-expression literal accepts only a nine-character string whose first character is not a digit |
| Phone.Normalize | day6-expo-airtime/App.js:28-34 | as written, `normalizePhone` can only return `2547\dddddddd` or `2541\dddddddd`, or `null` |
| Phone.NormalizeIntended | day6-expo-airtime/App.js:30-32 | with digit tails, as the comment describes, a result is twelve digits starting with `254` |
| Phone.AsWrittenRejectsDigits | day6-expo-airtime/App.js:31-32 | as written, every all-digit number of the local form `07`/`01` + 8 digits and of the canonical form `2547`/`2541` + 8 digits is rejected |
| Phone.AsWrittenAcceptsLetterTail | day6-expo-airtime/App.js:31 | as written, `07`/`01` followed by a backslash and eight letters `d` is accepted and rewritten |
| Phone.IntendedAcceptsDigits | day6-expo-airtime/App.js:30-32 | with digit tails, `0` + `7`/`1` + 8 digits becomes `254` + the last nine digits, and `+254…` comes back without its `+` |
| Phone.IntendedLengths | day6-expo-airtime/App.js:31-32 | with digit tails, only cleaned strings of 10 or 12 characters are accepted |
| Store.Load | day6-expo-airtime/App.js:15-26 | after start-up the list is the stored one when the read succeeds and the key holds a parsable list, and empty otherwise |
| Store.Startup | day6-expo-airtime/App.js:12-19 | the screen starts from the initial empty list replaced by the loaded one; storage is untouched |
| Store.Commit | day6-expo-airtime/App.js:36-43 | a successful write replaces both the stored and the shown list; a failed one changes neither and raises the save alert |
| Store.AmountOk | day6-expo-airtime/App.js:48-49 | `!amt \|\| amt <= 0` refuses exactly NaN and amounts that are not strictly positive |
| Store.HandleAdd | day6-expo-airtime/App.js:45-56 | an invalid phone, then an invalid amount, raise their alert and change nothing; a valid pair appends exactly one reminder (normalised phone, amount, id, time) after the unchanged earlier ones when the write succeeds, and storage then holds that list, leaves the list alone when it fails, and clears the form in both cases; a synced screen stays synced |
| Store.Without | day6-expo-airtime/App.js:59 | the filter keeps exactly the reminders whose id differs, never grows, and leaves a list without the id unchanged |
| Store.HandleDelete | day6-expo-airtime/App.js:58-61 | a committed delete shows the filtered list and storage holds it; a failed write changes nothing; a synced screen stays synced; the form is never cleared |
| Store.WithoutAppend | day6-expo-airtime/App.js:59 | the filter distributes over concatenation, so relative order is kept |
| Store.WithoutRemovesOne | day6-expo-airtime/App.js:59 | with distinct ids, deleting the id at position k yields the list with only position k removed |
| Store.DeleteIdempotent | day6-expo-airtime/App.js:58-61 | after a committed delete, deleting the same id again leaves screen and storage as they were |
| Store.DeleteUndoesAdd | day6-expo-airtime/App.js:51-59 | deleting the reminder just appended restores the earlier list |
| Store.WithoutKeepsUnique | day6-expo-airtime/App.js:59 | filtering a list with distinct ids keeps the ids distinct |
| Store.DeletePreservesWellFormed | day6-expo-airtime/App.js:58-61 | deleting keeps every reminder canonical, positive and uniquely identified |
| Store.AddPreservesWellFormed | day6-expo-airtime/App.js:45-56 | adding with a fresh id keeps every reminder canonical, positive and uniquely identified |
| Store.AddThenReload | day6-expo-airtime/App.js:15-53 | load, a successful add, and a reload give the first list plus exactly the one new reminder |
| Store.FailedReadThenAddOverwrites | day6-expo-airtime/App.js:17-53 | after a failed initial read, the next successful add replaces the stored list with a one-reminder list |
| Weather.WeatherCodeToText | day4-weather/script.js:33-47 | the text is never empty; it is "Unknown" exactly when the code is missing or not one of the ten listed codes; otherwise it is a table text |
| Weather.ListedCodes | day4-weather/script.js:34-45 | each of the codes 0, 1, 2, 3, 45, 48, 51, 61, 80, 95 maps to exactly its listed text |
| Weather.TextIdentifiesCode | day4-weather/script.js:34-46 | two codes with the same non-fallback text are the same code |
| Lang.Resolve | script.js:1-13 | `sw` gives the Swahili labels, every other key the English ones; all three labels are non-empty |
| Lang.ApplyLanguage | script.js:12-23 | the resolved labels are shown and the requested key is assigned verbatim to the selector's value, even after a fallback; it becomes the stored `preferredLang` when the write succeeds, and a failed write leaves the stored value as it was |
| Lang.StartupLanguage | script.js:27 | a missing or empty saved preference starts in `en`; otherwise the saved key is used |
| Lang.Startup | script.js:26-28 | start-up applies `getItem(...) \|\| 'en'`: that key is assigned to the selector and, on a successful write, stored; a non-empty saved key is never changed whatever the write outcome; Swahili is shown only for a saved `sw`, English otherwise; with nothing saved and a successful write it gives English, `en`, `en` |
| Lang.DefaultIsEnglish | script.js:26-28 | an empty saved preference starts exactly like a missing one, and after the `en` default is stored every later start-up shows the same page whatever its write outcome |
| Lang.PreferenceSurvivesReload | script.js:12-28 | after a stored choice, a reload shows the labels last applied, and for a non-empty key the whole page state comes back the same |
| Lang.FailedWriteForgetsChoice | script.js:12-28 | when storing the choice fails the labels still change, but a reload shows what the earlier preference showed |

## Left out

- Rendering, styles, `FlatList`, the alert dialogs' texts and the `loading` flag of the airtime screen: user interface only.
- The asynchrony of AsyncStorage and `localStorage`: each read or write is an explicit outcome; interleavings such as an add that races the initial load are not modelled.
- `uuidv4()` and `new Date().toISOString()`: the id and creation time are parameters, the id required to be fresh in the current list.
- `Number()` parsing: the amount arrives as `Option<real>` (`None` for NaN); `Infinity`, which the source accepts, is not represented.
- JSON encoding and decoding: stored text is represented by the list it encodes; parsable JSON that is not a list of reminders is not represented, and loaded records are not validated (neither does the source).
- A failed storage write is assumed to leave the stored value as it was.
- `fetchWeather`, `updateTime` and all date formatting: network, DOM and locale formatting.
- DOM updates of `applyLanguage` other than what is shown, assigned to the selector and stored (the label's trailing space, the missing-element guard); `selected` is the value assigned to the `<select>`, not what it reads back, which is empty when no option has that value.
- Lang.Resolve: keys inherited from JavaScript's object prototype (`constructor`, `toString`, …) would be truthy in `translations[lang]`; the model treats every key other than `en` and `sw` as absent.
- Lang.StartupLanguage: a `localStorage` read that throws is not modelled.
- Lang.Startup: when the start-up write throws, the handler also skips the clock update and the listener wiring (script.js:29-31); those are DOM-only and not modelled.

## Findings

| source | as written | input that shows it | evidently intended | confidence | as-written member | corrected member |
|---|---|---|---|---|---|---|
| day6-expo-airtime/App.js:31-32 | `\\d{8}` inside a regular-expression literal matches one backslash followed by eight letters `d` | `0712345678` (the screen's own placeholder) and `254712345678` both normalise to `null`, while `07\dddddddd` is accepted | `\d{8}`, eight decimal digits, as the comment on line 30, the placeholder on line 79, the alert on line 47 and the same function in `day6-expo-airtime/app/(tabs)/index.tsx:46-47` show | high; not executed | Phone.AsWrittenRejectsDigits | Phone.NormalizeIntended, with Phone.IntendedAcceptsDigits |
