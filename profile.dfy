/**
 * The user record the preferences flow reads and writes, the rule that turns
 * it into the preferences view, the two store updates the handlers make, and
 * the language code carried by a language button.
 */
module Profile {
  import opened Wrappers
  import opened PyStr
  import opened TimeParser

  type UserId = int

  /** A stored preference value: a string, or JSON `null` (`None`). */
  type PrefValue = Option<String>

  /**
   * A user row: the language code (possibly unset) and the preferences
   * mapping. A missing preferences mapping reads as the empty one (`or {}`),
   * so it is modelled as the empty map.
   */
  datatype User = User(languageCode: Option<String>, preferences: map<String, PrefValue>)

  /** The preference key that holds the daily schedule time. */
  const ScheduleKey: String := "vacancy_schedule_time"

  /** Python truthiness of an optional string: present and non-empty. */
  predicate Truthy(v: Option<String>) {
    v.Some? && v.value != []
  }

  /** What the view shows for the schedule time: the stored value, or the localised "not set" text. */
  datatype Shown = Time(value: String) | NotSet

  /**
   * The preferences view. Its text is the localised `profile.preferences_view`
   * template for `lang`, filled with the localised name of `lang` and with
   * `schedule`; its keyboard is `preferences_keyboard(False, lang)`. Both are
   * determined by these two fields, so the model keeps only them.
   */
  datatype View = View(lang: String, schedule: Shown)

  /** The display rule: `prefs.get("vacancy_schedule_time") or t("profile.not_set", lang)`. */
  function ShownSchedule(prefs: map<String, PrefValue>): (r: Shown)
    ensures r.Time? <==> ScheduleKey in prefs && Truthy(prefs[ScheduleKey])
    ensures r.Time? ==> r.value != [] && prefs[ScheduleKey] == Some(r.value)
  {
    if ScheduleKey in prefs && Truthy(prefs[ScheduleKey]) then Time(prefs[ScheduleKey].value) else NotSet
  }

  /**
   * The language the view is rendered in: the user's own code when the user
   * exists and has a non-empty one, otherwise the client's hint; either is
   * resolved by `detect` (the localisation layer's `detect_lang`).
   */
  function ViewLang(users: map<UserId, User>, id: UserId, hint: Option<String>,
                    detect: Option<String> -> String): (lang: String)
    ensures id in users && Truthy(users[id].languageCode) ==> lang == detect(users[id].languageCode)
    ensures !(id in users && Truthy(users[id].languageCode)) ==> lang == detect(hint)
  {
    if id in users && Truthy(users[id].languageCode) then detect(users[id].languageCode) else detect(hint)
  }

  /** What `_prepare_preferences_view` returns: the user (if any), the language, and the view (if any). */
  datatype Prepared = Prepared(user: Option<User>, lang: String, view: Option<View>)

  function PrepareView(users: map<UserId, User>, id: UserId, hint: Option<String>,
                       detect: Option<String> -> String): (r: Prepared)
    ensures r.lang == ViewLang(users, id, hint, detect)
    ensures r.user.Some? <==> id in users
    ensures r.view.Some? <==> id in users
    ensures id in users ==>
      r.user == Some(users[id]) && r.view == Some(View(r.lang, ShownSchedule(users[id].preferences)))
  {
    var lang := ViewLang(users, id, hint, detect);
    if id !in users then Prepared(None, lang, None)
    else Prepared(Some(users[id]), lang, Some(View(lang, ShownSchedule(users[id].preferences))))
  }

  /**
   * `update_preferences(id, vacancy_schedule_time=v)`: sets the one key in the
   * user's preferences and leaves every other key and every other user as it
   * was; there is nothing to update for an unknown user.
   */
  function WithSchedule(users: map<UserId, User>, id: UserId, v: PrefValue): (r: map<UserId, User>)
    ensures r.Keys == users.Keys
    ensures forall u :: u in users && u != id ==> r[u] == users[u]
    ensures id in users ==>
      && r[id].languageCode == users[id].languageCode
      && r[id].preferences.Keys == users[id].preferences.Keys + {ScheduleKey}
      && r[id].preferences[ScheduleKey] == v
      && forall k :: k in users[id].preferences && k != ScheduleKey ==>
           r[id].preferences[k] == users[id].preferences[k]
  {
    if id !in users then users
    else users[id := users[id].(preferences := users[id].preferences[ScheduleKey := v])]
  }

  /** `update_language_code(id, code)`: sets the language and nothing else. */
  function WithLanguage(users: map<UserId, User>, id: UserId, code: String): (r: map<UserId, User>)
    ensures r.Keys == users.Keys
    ensures forall u :: u in users && u != id ==> r[u] == users[u]
    ensures id in users ==> r[id] == User(Some(code), users[id].preferences)
  {
    if id !in users then users else users[id := users[id].(languageCode := Some(code))]
  }

  /** After a time is saved, the view of that user shows exactly that time. */
  lemma {:induction false} ViewAfterSave(users: map<UserId, User>, id: UserId, raw: String,
                                        hint: Option<String>, detect: Option<String> -> String)
    requires id in users
    requires ParseTime(raw).Some?
    ensures PrepareView(WithSchedule(users, id, ParseTime(raw)), id, hint, detect).view
      == Some(View(ViewLang(users, id, hint, detect), Time(ParseTime(raw).value)))
  {
    var after := WithSchedule(users, id, ParseTime(raw));
    assert after[id].languageCode == users[id].languageCode;
  }

  /** After the time is cleared, the view of that user shows the "not set" placeholder. */
  lemma {:induction false} ViewAfterClear(users: map<UserId, User>, id: UserId,
                                         hint: Option<String>, detect: Option<String> -> String)
    requires id in users
    ensures PrepareView(WithSchedule(users, id, None), id, hint, detect).view
      == Some(View(ViewLang(users, id, hint, detect), NotSet))
  {
    var after := WithSchedule(users, id, None);
    assert after[id].languageCode == users[id].languageCode;
  }

  /** After a language is saved, the view of that user is rendered in it (resolved by `detect`). */
  lemma {:induction false} ViewAfterLanguage(users: map<UserId, User>, id: UserId, code: String,
                                            hint: Option<String>, detect: Option<String> -> String)
    requires id in users && code != []
    ensures PrepareView(WithLanguage(users, id, code), id, hint, detect).view
      == Some(View(detect(Some(code)), ShownSchedule(users[id].preferences)))
  {
  }

  /** The callback-data prefix of the language buttons. */
  const LangPrefix: String := "prefs_set_lang:"

  /** The codes the language handler accepts. */
  const SupportedCodes: set<String> := {"en", "ru"}

  /** The language handler's `call.data.partition(":")[2]`. */
  function LanguageCode(data: String): (code: String)
    ensures ':' !in data ==> code == []
  {
    AfterFirst(data, ':')
  }

  /** For any data routed to the language handler, the code is everything after the prefix. */
  lemma {:induction false} LanguageCodeAfterPrefix(data: String)
    requires |data| >= |LangPrefix| && data[..|LangPrefix|] == LangPrefix
    ensures LanguageCode(data) == data[|LangPrefix|..]
  {
    var p := "prefs_set_lang";
    assert data == p + [':'] + data[|LangPrefix|..];
    AfterFirstSep(p, ':', data[|LangPrefix|..]);
  }

  /**
   * The language handler accepts a button exactly when its data is
   * `prefs_set_lang:en` or `prefs_set_lang:ru`; so `prefs_set_lang:en:x` is rejected.
   */
  lemma {:induction false} LanguageAcceptedExactly(data: String)
    requires |data| >= |LangPrefix| && data[..|LangPrefix|] == LangPrefix
    ensures LanguageCode(data) in SupportedCodes <==>
      data == LangPrefix + "en" || data == LangPrefix + "ru"
  {
    LanguageCodeAfterPrefix(data);
    assert data == LangPrefix + data[|LangPrefix|..];
    if data == LangPrefix + "en" || data == LangPrefix + "ru" {
      assert data[|LangPrefix|..] == (LangPrefix + "en")[|LangPrefix|..] || data[|LangPrefix|..] == (LangPrefix + "ru")[|LangPrefix|..];
    }
  }

  lemma TrailingSegmentRejected()
    ensures LanguageCode("prefs_set_lang:en:x") !in SupportedCodes
  {
    LanguageCodeAfterPrefix("prefs_set_lang:en:x");
    assert "prefs_set_lang:en:x"[|LangPrefix|..] == "en:x";
  }

  /** The callback data of the two language buttons of the language menu. */
  const LanguageButtons: seq<String> := [LangPrefix + "en", LangPrefix + "ru"]

  /** Both language buttons the menu offers are accepted by the language handler. */
  lemma MenuButtonsAccepted()
    ensures forall b :: b in LanguageButtons ==> LanguageCode(b) in SupportedCodes
  {
    forall b | b in LanguageButtons ensures LanguageCode(b) in SupportedCodes {
      LanguageAcceptedExactly(b);
    }
  }
}
