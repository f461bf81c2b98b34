# Preferences flow of the profile bot, modelled in Dafny

The module `bot/handlers/profile/preferences.py` lets a chat user see their
preferences, switch the interface language between `en` and `ru`, and set or
clear the daily vacancy-digest time. This project models:

- the **schedule-time grammar**: `_parse_time` (a reply `H:M` with ASCII
  digits, hour 0..23 and minute 0..59, canonicalised to zero-padded `HH:MM`)
  and the clear keywords `clear`, `none`, `null`, `удалить`, `сбросить` that
  `save_schedule_time` tests first, on the stripped and lower-cased reply
  (modules `PyStr`, `TimeParser`, `TimeParserExamples`);
- the **user record and the view rule**: the view shows the stored time when
  it is truthy and the "not set" placeholder otherwise; the two store writes
  (`update_preferences`, `update_language_code`) as map updates; the language
  code carried by a `prefs_set_lang:<code>` button (module `Profile`);
- the **FSM context** as a pure state machine: state `schedule_time` or none,
  the data dictionary, what each handler does to them, and the invariant that
  the three message references are stored exactly while the state is
  `schedule_time`, kept by every sequence of handler runs (module `Session`);
- the **handlers** as imperative code over three objects — the FSM context
  (`FsmContext`, fields `state` and `data`), the user store (`UserStore`,
  a map from user id to record) and the chat transport (`Transport`, an
  append-only log of the calls made: send, edit, delete, callback answer) —
  with the cleanup loop over the three transient message ids and the guarded
  refresh edit (module `Handlers`).

The localisation function `t` is left uninterpreted: an outgoing message is
recorded by its translation key, its language and the value substituted into
it (`Reply`), and the preferences view by its language and its schedule
field (`View`); `detect_lang` is a function parameter. Transport edits and
deletions have an arbitrary outcome (`ok := *`), so every contract about the
log holds whichever of them fail.

There is no state that waits for a language choice: the language-menu
button clears the FSM context (line 106) and the language button is handled
in any state (line 110), so an unsupported code only produces a notice and
no state is kept or changed.

## Model

| member | source | states |
|---|---|---|
| `TimeParser.ParseTimeSpec` | bot/handlers/profile/preferences.py:130-138 | `_parse_time` returns a time exactly when the reply has a colon with non-empty all-digit fields on both sides, hour at most 23 and minute at most 59; the result is then the zero-padded form of those values; otherwise it returns `None` |
| `TimeParser.ParseTimeAccepts` | bot/handlers/profile/preferences.py:130-138 | every pair of digit strings in range, joined by one colon, parses to its canonical form, whatever the number of leading zeros |
| `TimeParser.RejectsOutOfRange` | bot/handlers/profile/preferences.py:135-137 | digit fields with hour above 23 or minute above 59 are rejected |
| `TimeParser.ParseTime` | bot/handlers/profile/preferences.py:130-138 | `_parse_time`: a successful result is always two digits, a colon, two digits, with hour 0..23 and minute 0..59 |
| `TimeParser.CanonicalIsFixedPoint` | bot/handlers/profile/preferences.py:130-138 | a canonical `HH:MM` string parses to itself |
| `TimeParser.ParseTimeIdempotent` | bot/handlers/profile/preferences.py:130-138 | re-parsing a result gives it back unchanged |
| `TimeParser.ClassifyReply` | bot/handlers/profile/preferences.py:143-160 | a reply is "clear" exactly when its stripped, lower-cased text is a clear keyword; otherwise it sets a time exactly when the stripped text parses, and that time is canonical; otherwise it is invalid; a missing text reads as the empty reply |
| `TimeParser.ClearAndTimeDisjoint` | bot/handlers/profile/preferences.py:148-159 | no parseable time is a clear keyword, so testing the keywords first never hides a time |
| `TimeParser.StartsWithDigitOrColonNotKeyword` | bot/handlers/profile/preferences.py:149 | a string starting with a digit or a colon is not a clear keyword |
| `TimeParserExamples.LeadingZerosAccepted` | bot/handlers/profile/preferences.py:134-138 | `009:5` is accepted as `09:05` |
| `TimeParserExamples.ShortHourPadded` | bot/handlers/profile/preferences.py:138 | `9:30` becomes `09:30` |
| `TimeParserExamples.HourOutOfRangeRejected` | bot/handlers/profile/preferences.py:136-137 | `25:00` is rejected |
| `TimeParserExamples.SecondsRejected` | bot/handlers/profile/preferences.py:131-133 | `12:30:00` (three segments) is rejected |
| `TimeParserExamples.MalformedSegmentsRejected` | bot/handlers/profile/preferences.py:132-133 | `:30` (empty hour) and `-1:30` (a sign) are rejected |
| `TimeParserExamples.MissingColonRejected` | bot/handlers/profile/preferences.py:131-133 | the empty reply and `1230` are rejected |
| `TimeParserExamples.ClearIgnoresCaseAndSpace` | bot/handlers/profile/preferences.py:143-149 | ` CLEAR ` clears |
| `TimeParserExamples.ClearInRussian` | bot/handlers/profile/preferences.py:148-149 | `Удалить` clears |
| `TimeParserExamples.MissingTextInvalid` | bot/handlers/profile/preferences.py:143 | a message without text is an invalid reply |
| `TimeParserExamples.SpacedTimeAccepted` | bot/handlers/profile/preferences.py:143-159 | ` 9:30 ` sets `09:30` |
| `TimeParserExamples.OutOfRangeReplyInvalid` | bot/handlers/profile/preferences.py:159-161 | the reply `25:00` is neither a keyword nor a time |
| `PyStr.Split` | bot/handlers/profile/preferences.py:131 | `split(":")` yields at least one part, no part contains the separator, and joining the parts with it gives the input back |
| `PyStr.SplitAtOnlySep` | bot/handlers/profile/preferences.py:131-132 | a string with exactly one colon splits into the two sides of it |
| `PyStr.LeadingZeroValue` | bot/handlers/profile/preferences.py:135 | `int()` ignores leading zeros |
| `PyStr.Pad2` | bot/handlers/profile/preferences.py:138 | the `02d` format of a number below 100 is two digits that read back as that number |
| `PyStr.TrimStart` | bot/handlers/profile/preferences.py:143 | the left half of `strip()`: the result is a suffix of the input, everything cut off is white space, and the result does not start with white space |
| `PyStr.TrimEnd` | bot/handlers/profile/preferences.py:143 | the right half of `strip()`: the result is a prefix of the input, everything cut off is white space, and the result does not end with white space |
| `PyStr.Strip` | bot/handlers/profile/preferences.py:143 | `strip()` returns a middle slice of the input with only white space before and after it, and no white space at either end of the slice; a string without surrounding white space comes back unchanged |
| `PyStr.Lower` | bot/handlers/profile/preferences.py:148 | `lower()` keeps the length and lower-cases character by character |
| `PyStr.IsDecimal` | bot/handlers/profile/preferences.py:132 | a string `isdigit()` admits (ASCII digits, non-empty) holds no colon and no sign |
| `PyStr.DigitsValue` | bot/handlers/profile/preferences.py:135 | `int()` of a digit string is a natural number below 10 to the power of its length |
| `PyStr.LowerChar` | bot/handlers/profile/preferences.py:148 | lower-casing maps digits and the colon, and only them, to digits and the colon |
| `PyStr.AfterFirst` | bot/handlers/profile/preferences.py:112 | `partition(":")[2]` is empty when there is no colon, and never longer than the input |
| `PyStr.AfterFirstSpec` | bot/handlers/profile/preferences.py:112 | when there is a colon, the input is a colon-free prefix, the first colon, and `partition(":")[2]` |
| `PyStr.AfterFirstSep` | bot/handlers/profile/preferences.py:112 | `partition(":")[2]` is everything after the first colon |
| `Profile.ShownSchedule` | bot/handlers/profile/preferences.py:28 | the view shows the stored time exactly when the preference is present and non-empty, and then shows that value; otherwise the "not set" placeholder |
| `Profile.ViewLang` | bot/handlers/profile/preferences.py:21 | the view's language is `detect_lang` of the user's own code when the user exists and the code is non-empty, and of the client's hint otherwise |
| `Profile.PrepareView` | bot/handlers/profile/preferences.py:16-31 | the view exists exactly when the user does; its language is the user's truthy code or else the client hint, resolved by `detect_lang`; it shows the user's schedule field |
| `Profile.WithSchedule` | bot/handlers/profile/preferences.py:150-152 | writing the schedule time changes that one key of that one user and nothing else |
| `Profile.WithLanguage` | bot/handlers/profile/preferences.py:120-122 | writing the language changes that user's language code and nothing else |
| `Profile.ViewAfterSave` | bot/handlers/profile/preferences.py:28 | after a parsed time is written, the user's view shows exactly that time |
| `Profile.ViewAfterClear` | bot/handlers/profile/preferences.py:28 | after the time is cleared, the user's view shows the "not set" placeholder |
| `Profile.ViewAfterLanguage` | bot/handlers/profile/preferences.py:21 | after a language is written, the user's view is rendered in it |
| `Profile.LanguageCode` | bot/handlers/profile/preferences.py:112 | the language code taken from the callback data is empty when the data has no colon |
| `Profile.LanguageCodeAfterPrefix` | bot/handlers/profile/preferences.py:110-112 | for data routed to the language handler, the code is everything after `prefs_set_lang:` |
| `Profile.LanguageAcceptedExactly` | bot/handlers/profile/preferences.py:110-113 | the language handler accepts a button exactly when its data is `prefs_set_lang:en` or `prefs_set_lang:ru` |
| `Profile.TrailingSegmentRejected` | bot/handlers/profile/preferences.py:112-113 | `prefs_set_lang:en:x` is rejected |
| `Profile.MenuButtonsAccepted` | bot/handlers/profile/preferences.py:98-100 | both language buttons of the menu are accepted by the language handler |
| `Session.Transition` | bot/handlers/profile/preferences.py:56-171 | each handler leaves the FSM context as it was, clears it, or (only the schedule-time button, for a known user) enters `schedule_time` with the preferences message, its chat and the prompt stored; `/preferences` and the language button never touch it; the menu, back and language-menu buttons always clear it |
| `Session.TransitionKeepsInv` | bot/handlers/profile/preferences.py:61-171 | every handler keeps the invariant: the data holds the three references exactly while the state is `schedule_time`, and nothing otherwise |
| `Session.RunKeepsInv` | bot/handlers/profile/preferences.py:61-171 | after any sequence of handler runs, with the user's profile present or not at each schedule-time button, the invariant holds, so `prompt_message_id` is stored exactly while the state is `schedule_time` |
| `Session.OnlyScheduleButtonEnters` | bot/handlers/profile/preferences.py:67-82 | only the schedule-time button, for a known user, enters `schedule_time`, and it stores the preferences message, its chat and the prompt together |
| `Session.InvalidReplyKeepsSession` | bot/handlers/profile/preferences.py:159-162 | an unusable reply leaves state and data unchanged |
| `Session.CompletedReplyClears` | bot/handlers/profile/preferences.py:148-171 | a clear keyword or a valid time clears the FSM context |
| `Session.LanguageMenuThenBack` | bot/handlers/profile/preferences.py:86-106 | opening the language menu and going back leaves no state and no prompt reference |
| `Session.ScheduleThenInvalidReply` | bot/handlers/profile/preferences.py:67-162 | asking for the time and then replying unusably leaves the user in `schedule_time` with the three references |
| `Session.ScheduleThenCompletedReply` | bot/handlers/profile/preferences.py:67-171 | asking for the time and then replying with a time or a keyword ends with no state and no data |
| `Handlers.CleanupEffects` | bot/handlers/profile/preferences.py:177-180 | the cleanup attempts at most one deletion per id, each in the message's chat, never of a falsy id |
| `Handlers.CleanupEffectsAppend` | bot/handlers/profile/preferences.py:178-184 | the deletions for a list are those of each part, in order |
| `Handlers.CleanupAttemptsEveryPresentId` | bot/handlers/profile/preferences.py:178-184 | every truthy id is attempted, whatever happened to the others |
| `Handlers.CleanupOrder` | bot/handlers/profile/preferences.py:176-184 | the deletions are of the prompt, the reply and the confirmation, in that order, each skipped when falsy |
| `Handlers.CleanupScheduleMessages` | bot/handlers/profile/preferences.py:174-184 | the loop makes exactly those deletions whatever their outcomes, sends nothing and raises nothing |
| `Handlers.RefreshEffects` | bot/handlers/profile/preferences.py:187-209 | the refresh makes no call when either stored reference is falsy or the user is unknown, and otherwise one edit of exactly the stored message with the user's current view |
| `Handlers.RefreshPreferencesMessage` | bot/handlers/profile/preferences.py:187-209 | the method makes exactly those calls; a failed edit is swallowed |
| `Handlers.ViewEffects` | bot/handlers/profile/preferences.py:39-53 | `send_preferences_view` makes one or two calls: a new message (the "no profile" notice, or the view) unless it is a button with `edit` for a known user, in which case it edits the button's message with the view; then the callback answer, for a button only, and not after an edit that raised |
| `Handlers.SendPreferencesView` | bot/handlers/profile/preferences.py:34-53 | "no profile" for an unknown user; otherwise an in-place edit for a button, a new message for a command; the callback is answered unless the uncaught edit raised; one message id is used exactly when a message is sent |
| `Handlers.CmdPreferences` | bot/handlers/profile/preferences.py:56-58 | `/preferences` sends the view as a new message and touches neither the FSM context nor the store |
| `Handlers.CbPrefsMenu` | bot/handlers/profile/preferences.py:61-64 | clears the FSM context, then shows the view in place |
| `Handlers.CbPrefsScheduleTime` | bot/handlers/profile/preferences.py:67-83 | for a known user sends the prompt, enters `schedule_time` and stores the three references (the prompt's id being the one just sent); for an unknown user says so and changes nothing |
| `Handlers.CbPrefsBackProfile` | bot/handlers/profile/preferences.py:86-92 | clears the FSM context, hands over to the profile view, answers the callback |
| `Handlers.CbPrefsLangMenu` | bot/handlers/profile/preferences.py:95-107 | sends the language menu in the client's language and clears the FSM context |
| `Handlers.CbPrefsSetLang` | bot/handlers/profile/preferences.py:110-127 | writes the language only for `en` and `ru`, then confirms and shows the view; any other code gets a notice and no write |
| `Handlers.SaveScheduleTime` | bot/handlers/profile/preferences.py:141-171 | an unusable reply gets only a notice, with no write and no FSM change; a keyword writes `None` and a time writes its canonical form, then confirm, delete the prompt, reply and confirmation, refresh from the new store, clear |
| `Handlers.RefreshShowsWrittenValue` | bot/handlers/profile/preferences.py:164-198 | after a completed reply the refreshed message shows the value just written: the new time, or the placeholder after a clear |
| `Handlers.FsmContext.SetState` | bot/handlers/profile/preferences.py:77 | `state.set_state(s)` sets the state and keeps the data |
| `Handlers.FsmContext.UpdateData` | bot/handlers/profile/preferences.py:78-82 | `state.update_data(...)` merges the given entries into the data and keeps the state |
| `Handlers.FsmContext.Clear` | bot/handlers/profile/preferences.py:63 | `state.clear()` leaves no state and no data |
| `Handlers.UserStore.UpdatePreferences` | bot/handlers/profile/preferences.py:152 | the store's users become `WithSchedule` of the old ones |
| `Handlers.UserStore.UpdateLanguageCode` | bot/handlers/profile/preferences.py:122 | the store's users become `WithLanguage` of the old ones |
| `TimeParserFinding.ParseTimeAsWritten` | bot/handlers/profile/preferences.py:130-138 | `_parse_time` as written, with `isdigit()` modelled as the ASCII digits plus the superscript, subscript and circled digits: it raises only on replies that contain one of those non-decimal digits |
| `TimeParserFinding.SuperscriptReplyRaises` | bot/handlers/profile/preferences.py:132-135 | as written, the reply `²:00` passes `isdigit()` and makes `int()` raise |
| `TimeParserFinding.CorrectedParserAgrees` | bot/handlers/profile/preferences.py:130-138 | the total parser agrees with the as-written model, whose `isdigit()` is the ASCII digits plus the superscript, subscript and circled digits, wherever that model returns, and rejects every reply on which it raises |

## Left out

- Transport: `answer`, `edit_text`, `edit_message_text`, `delete_message` and `call.answer()` are entries of an abstract log; sending a message and answering a callback always succeed in the model, while in the code their failure propagates out of the handler.
- Message ids: sent messages get consecutive ids from one counter; the ids Telegram assigns are not modelled.
- Database layer: `get_db_session` and `UserRepository` are not part of this model; the store is a map, updates of an unknown user change nothing, and store failures (which the code does not catch) are not modelled.
- Localisation: `t`, `detect_lang` and `preferences_keyboard` are not part of this model; text is recorded by key and language, the view by language and schedule field, and the view's text and keyboard are taken to be non-empty for a known user, so the check at line 197 only tests the user.
- `send_profile_view` of the profile view module is not part of this model; the back button records one abstract call of it.
- Logging, router and decorator registration, and the `from_user` presence tests (a callback always has a sender here).
- Concurrency: two updates of the same user are not interleaved; each handler runs to completion.
- `PyStr.IsDecimal`: digits are the ASCII `0`..`9`; Python's `isdigit()` also accepts other Unicode digits (see the finding below for the superscripts).
- `TimeParserFinding.ParseTimeAsWritten`: its `isdigit()` covers the ASCII digits and the superscript, subscript and circled one-to-nine digits only. Two classes that Python's `isdigit()` also admits are not modelled. The first is the other non-decimal digits, such as the parenthesised and dingbat digits, on which the code raises too. The second is the non-ASCII decimal digits, such as the fullwidth ones: the code accepts and converts them (`０９:３０` is stored as `09:30`), while the model's parsers return no time for them.
- `PyStr.LowerChar`: lower-cases only the Latin and basic Cyrillic capitals; other characters of Unicode case mapping are left unchanged.
- `Profile.User`: a missing preferences mapping is modelled as the empty map, which the code treats identically.

## Findings

| source | as written | input that shows it | evidently intended | confidence | as-written member | corrected member |
|---|---|---|---|---|---|---|
| bot/handlers/profile/preferences.py:132-135 | segments are tested with `isdigit()`, which holds for superscript, subscript and circled digits, on which `int()` raises `ValueError` | the reply `²:00` | reject it like any other malformed time | high, not executed | `TimeParserFinding.SuperscriptReplyRaises` | `TimeParserFinding.CorrectedParserAgrees` |
