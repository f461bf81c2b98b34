/**
 * The preferences handlers as imperative code over three objects: the FSM
 * context of the user, the user store, and the chat transport, which records
 * every transport call it is asked to make.
 */
module Handlers {
  import opened Wrappers
  import opened PyStr
  import opened TimeParser
  import opened Profile
  import opened Session

  /**
   * The content of an outgoing message. Localised text is identified by its
   * translation key, the language and the value substituted into it.
   */
  datatype Reply =
    | Notice(key: String, lang: String)
    | NoticeWith(key: String, lang: String, arg: String)
    | PreferencesText(view: View)
    | LanguageMenu(lang: String)   // the language prompt with the two `LanguageButtons` and a `prefs_menu` button

  /** One transport call, in the order it was made. Whether it succeeded does not show here. */
  datatype Effect =
    | Sent(chat: int, id: int, reply: Reply)
    | Edited(chat: int, id: int, view: View)
    | Deleted(chat: int, id: int)
    | CallbackAnswered
    | ProfileShown(user: UserId, chat: int, message: int)   // `send_profile_view` of the profile module

  /** A button press: who pressed it, their client language, the message it sits on, its data. */
  datatype Callback = Callback(user: UserId, hint: Option<String>, chat: int, message: int, data: String)

  /** A text message: sender, client language, chat, message id and text (absent for non-text messages). */
  datatype Message = Message(user: UserId, hint: Option<String>, chat: int, id: int, text: Option<String>)

  /** Python truthiness of an optional message or chat id. */
  predicate Present(v: Option<int>) {
    v.Some? && v.value != 0
  }

  /** The aiogram FSM context of one user. */
  class FsmContext {
    var state: FsmState
    var data: map<String, int>

    constructor ()
      ensures state == NoState && data == map[]
    {
      state := NoState;
      data := map[];
    }

    function Current(): Session.Snapshot
      reads this
    {
      Session.Snapshot(state, data)
    }

    /** `state.set_state(s)`. */
    method SetState(s: FsmState)
      modifies this
      ensures state == s && data == old(data)
    {
      state := s;
    }

    /** `state.update_data(**d)`: merges `d` into the data. */
    method UpdateData(d: map<String, int>)
      modifies this
      ensures state == old(state) && data == old(data) + d
    {
      data := data + d;
    }

    /** `state.clear()`. */
    method Clear()
      modifies this
      ensures Current() == Cleared
    {
      state := NoState;
      data := map[];
    }
  }

  /** The user store behind `UserRepository`. */
  class UserStore {
    var users: map<UserId, User>

    constructor (users: map<UserId, User>)
      ensures this.users == users
    {
      this.users := users;
    }

    method UpdatePreferences(id: UserId, v: PrefValue)
      modifies this
      ensures users == WithSchedule(old(users), id, v)
    {
      users := WithSchedule(users, id, v);
    }

    method UpdateLanguageCode(id: UserId, code: String)
      modifies this
      ensures users == WithLanguage(old(users), id, code)
    {
      users := WithLanguage(users, id, code);
    }
  }

  /**
   * The chat transport. Sent messages get consecutive ids from `nextId`.
   * Edits and deletions may fail for reasons outside the model (message
   * gone, unchanged content, permissions); their outcome is arbitrary.
   */
  class Transport {
    var log: seq<Effect>
    var nextId: int

    constructor (firstId: int)
      ensures log == [] && nextId == firstId
    {
      log := [];
      nextId := firstId;
    }

    /** `answer(...)`: sends a message to `chat` and returns its id. */
    method Answer(chat: int, reply: Reply) returns (id: int)
      modifies this
      ensures id == old(nextId) && nextId == old(nextId) + 1
      ensures log == old(log) + [Sent(chat, id, reply)]
    {
      id := nextId;
      nextId := nextId + 1;
      log := log + [Sent(chat, id, reply)];
    }

    /** `edit_text` / `edit_message_text`: `ok` is false when the call raised. */
    method EditText(chat: int, id: int, view: View) returns (ok: bool)
      modifies this
      ensures nextId == old(nextId) && log == old(log) + [Edited(chat, id, view)]
    {
      log := log + [Edited(chat, id, view)];
      ok := *;
    }

    /** `delete_message`: `ok` is false when the call raised. */
    method DeleteMessage(chat: int, id: int) returns (ok: bool)
      modifies this
      ensures nextId == old(nextId) && log == old(log) + [Deleted(chat, id)]
    {
      log := log + [Deleted(chat, id)];
      ok := *;
    }

    /** `call.answer()`. */
    method AnswerCallback()
      modifies this
      ensures nextId == old(nextId) && log == old(log) + [CallbackAnswered]
    {
      log := log + [CallbackAnswered];
    }

    /** `send_profile_view(user, message, edit=True)`, whose own effects are not part of this model. */
    method ShowProfile(user: UserId, chat: int, message: int)
      modifies this
      ensures nextId == old(nextId) && log == old(log) + [ProfileShown(user, chat, message)]
    {
      log := log + [ProfileShown(user, chat, message)];
    }
  }

  // ---------------------------------------------------------------------------
  // Cleanup of the transient messages

  /** The deletions the cleanup attempts for `ids`, in order, skipping the falsy ones. */
  function CleanupEffects(chat: int, ids: seq<Option<int>>): (r: seq<Effect>)
    ensures |r| <= |ids|
    ensures forall k :: 0 <= k < |r| ==> r[k].Deleted? && r[k].chat == chat && r[k].id != 0
    decreases |ids|
  {
    if ids == [] then []
    else
      var last := ids[|ids| - 1];
      CleanupEffects(chat, ids[..|ids| - 1]) + (if Present(last) then [Deleted(chat, last.value)] else [])
  }

  /** Cleanup of a concatenation is the cleanup of each part, in order. */
  lemma {:induction false} CleanupEffectsAppend(chat: int, a: seq<Option<int>>, b: seq<Option<int>>)
    ensures CleanupEffects(chat, a + b) == CleanupEffects(chat, a) + CleanupEffects(chat, b)
    decreases |b|
  {
    if b == [] {
      assert a + b == a;
    } else {
      assert (a + b)[..|a + b| - 1] == a + b[..|b| - 1];
      assert (a + b)[|a + b| - 1] == b[|b| - 1];
      CleanupEffectsAppend(chat, a, b[..|b| - 1]);
    }
  }

  /** Every truthy id is attempted, whatever happened to the others. */
  lemma {:induction false} CleanupAttemptsEveryPresentId(chat: int, ids: seq<Option<int>>, k: nat)
    requires k < |ids| && Present(ids[k])
    ensures Deleted(chat, ids[k].value) in CleanupEffects(chat, ids)
  {
    assert ids == ids[..k] + [ids[k]] + ids[k + 1..];
    CleanupEffectsAppend(chat, ids[..k] + [ids[k]], ids[k + 1..]);
    CleanupEffectsAppend(chat, ids[..k], [ids[k]]);
    assert [ids[k]][..0] == [];
  }

  /** For the three ids of a completed edit: the prompt, then the reply, then the confirmation. */
  lemma CleanupOrder(chat: int, prompt: Option<int>, input: int, confirmation: int)
    ensures CleanupEffects(chat, [prompt, Some(input), Some(confirmation)])
      == (if Present(prompt) then [Deleted(chat, prompt.value)] else [])
       + (if input != 0 then [Deleted(chat, input)] else [])
       + (if confirmation != 0 then [Deleted(chat, confirmation)] else [])
  {
    var ids := [prompt, Some(input), Some(confirmation)];
    assert ids[..2] == [prompt, Some(input)] && ids[..2][..1] == [prompt] && ids[..2][..1][..0] == [];
    assert CleanupEffects(chat, [prompt]) == (if Present(prompt) then [Deleted(chat, prompt.value)] else []);
    assert CleanupEffects(chat, [prompt, Some(input)])
      == CleanupEffects(chat, [prompt]) + (if input != 0 then [Deleted(chat, input)] else []);
  }

  /**
   * `_cleanup_schedule_messages`: tries to delete the stored prompt, the
   * user's reply and the confirmation, in that order, skipping falsy ids; a
   * failed deletion is swallowed and does not stop the later ones.
   */
  method CleanupScheduleMessages(ctx: FsmContext, tr: Transport, msg: Message, confirmation: int)
    modifies tr
    ensures tr.nextId == old(tr.nextId)
    ensures tr.log == old(tr.log)
      + CleanupEffects(msg.chat, [Get(ctx.data, PromptKey), Some(msg.id), Some(confirmation)])
  {
    var toDelete := [Get(ctx.data, PromptKey), Some(msg.id), Some(confirmation)];
    var i := 0;
    while i < |toDelete|
      invariant 0 <= i <= |toDelete|
      invariant tr.nextId == old(tr.nextId)
      invariant tr.log == old(tr.log) + CleanupEffects(msg.chat, toDelete[..i])
    {
      var msgId := toDelete[i];
      assert toDelete[..i + 1][..i] == toDelete[..i];
      if Present(msgId) {
        var deleted := tr.DeleteMessage(msg.chat, msgId.value);
        // a failed deletion is only logged
      }
      i := i + 1;
    }
    assert toDelete[..i] == toDelete;
  }

  // ---------------------------------------------------------------------------
  // Refresh of the preferences message

  /**
   * The edits `_refresh_preferences_message` makes: none when either stored
   * reference is falsy or the user is unknown; otherwise one edit of exactly
   * the stored message, showing the user's current view.
   */
  function RefreshEffects(data: map<String, int>, users: map<UserId, User>, user: UserId,
                          hint: Option<String>, detect: Option<String> -> String): (r: seq<Effect>)
    ensures |r| <= 1
    ensures r != [] <==> Present(Get(data, PrefsMessageKey)) && Present(Get(data, PrefsChatKey)) && user in users
    ensures r != [] ==>
      r[0] == Edited(data[PrefsChatKey], data[PrefsMessageKey],
                     View(ViewLang(users, user, hint, detect), ShownSchedule(users[user].preferences)))
  {
    var prefsMessage, prefsChat := Get(data, PrefsMessageKey), Get(data, PrefsChatKey);
    if !Present(prefsMessage) || !Present(prefsChat) then []
    else
      var p := PrepareView(users, user, hint, detect);
      if p.view.None? then [] else [Edited(prefsChat.value, prefsMessage.value, p.view.value)]
  }

  /** `_refresh_preferences_message`: a failed edit is swallowed. */
  method RefreshPreferencesMessage(ctx: FsmContext, store: UserStore, tr: Transport, msg: Message,
                                   detect: Option<String> -> String)
    modifies tr
    ensures tr.nextId == old(tr.nextId)
    ensures tr.log == old(tr.log) + RefreshEffects(ctx.data, store.users, msg.user, msg.hint, detect)
  {
    var prefsMessage, prefsChat := Get(ctx.data, PrefsMessageKey), Get(ctx.data, PrefsChatKey);
    if !Present(prefsMessage) || !Present(prefsChat) {
      return;
    }
    var p := PrepareView(store.users, msg.user, msg.hint, detect);
    if p.user.None? || p.view.None? {
      return;
    }
    var edited := tr.EditText(prefsChat.value, prefsMessage.value, p.view.value);
    // a failed edit is only logged
  }

  // ---------------------------------------------------------------------------
  // Showing the preferences view

  /** Where `send_preferences_view` was called from: a text message, or a button on a message. */
  datatype Origin = FromMessage(chat: int) | FromCallback(chat: int, message: int)

  /**
   * The calls `send_preferences_view` makes. `raised` says that the in-place
   * edit raised, which `send_preferences_view` does not catch: then the
   * callback is left unanswered.
   */
  function ViewEffects(origin: Origin, edit: bool, p: Prepared, nextId: int, raised: bool): (r: seq<Effect>)
    ensures 1 <= |r| <= 2
    ensures r[0].Sent? <==> !(origin.FromCallback? && edit && p.user.Some? && p.view.Some?)
    ensures r[0].Sent? ==> r[0].chat == origin.chat && r[0].id == nextId
    ensures r[0].Sent? && p.view.Some? && p.user.Some? ==> r[0].reply == PreferencesText(p.view.value)
    ensures p.user.None? || p.view.None? ==> r[0] == Sent(origin.chat, nextId, Notice("profile.no_profile", p.lang))
    ensures !r[0].Sent? ==> r[0] == Edited(origin.chat, origin.message, p.view.value)
    ensures forall k :: 1 <= k < |r| ==> r[k] == CallbackAnswered
    ensures CallbackAnswered in r <==> origin.FromCallback? && !(r[0].Edited? && raised)
  {
    var ack := if origin.FromCallback? then [CallbackAnswered] else [];
    if p.user.None? || p.view.None? then [Sent(origin.chat, nextId, Notice("profile.no_profile", p.lang))] + ack
    else if origin.FromCallback? && edit then
      [Edited(origin.chat, origin.message, p.view.value)] + (if raised then [] else ack)
    else [Sent(origin.chat, nextId, PreferencesText(p.view.value))] + ack
  }

  /** `send_preferences_view`: `raised` is true when the uncaught in-place edit failed. */
  method SendPreferencesView(store: UserStore, tr: Transport, origin: Origin, user: UserId,
                             hint: Option<String>, edit: bool, detect: Option<String> -> String)
    returns (raised: bool)
    modifies tr
    ensures raised ==> origin.FromCallback? && edit && user in store.users
    ensures tr.nextId == old(tr.nextId) + (if origin.FromCallback? && edit && user in store.users then 0 else 1)
    ensures tr.log == old(tr.log)
      + ViewEffects(origin, edit, PrepareView(store.users, user, hint, detect), old(tr.nextId), raised)
  {
    raised := false;
    var p := PrepareView(store.users, user, hint, detect);
    if p.user.None? || p.view.None? {
      var sent := tr.Answer(origin.chat, Notice("profile.no_profile", p.lang));
      if origin.FromCallback? {
        tr.AnswerCallback();
      }
      return;
    }
    if origin.FromCallback? && edit {
      var ok := tr.EditText(origin.chat, origin.message, p.view.value);
      if !ok {
        raised := true;
        return;
      }
      tr.AnswerCallback();
    } else {
      var sent := tr.Answer(origin.chat, PreferencesText(p.view.value));
      if origin.FromCallback? {
        tr.AnswerCallback();
      }
    }
  }

  // ---------------------------------------------------------------------------
  // The handlers

  /** `/preferences`: shows the view as a new message; the FSM context is not touched. */
  method CmdPreferences(store: UserStore, tr: Transport, msg: Message, detect: Option<String> -> String)
    modifies tr
    ensures tr.nextId == old(tr.nextId) + 1
    ensures tr.log == old(tr.log)
      + ViewEffects(FromMessage(msg.chat), false, PrepareView(store.users, msg.user, msg.hint, detect), old(tr.nextId), false)
  {
    var raised := SendPreferencesView(store, tr, FromMessage(msg.chat), msg.user, msg.hint, false, detect);
  }

  /** `prefs_menu`: clears the FSM context, then shows the view in place. */
  method CbPrefsMenu(ctx: FsmContext, store: UserStore, tr: Transport, call: Callback,
                     detect: Option<String> -> String)
    returns (raised: bool)
    modifies ctx, tr
    ensures ctx.Current() == Transition(old(ctx.Current()), OpenMenu)
    ensures tr.nextId == old(tr.nextId) + (if call.user in store.users then 0 else 1)
    ensures tr.log == old(tr.log)
      + ViewEffects(FromCallback(call.chat, call.message), true,
                    PrepareView(store.users, call.user, call.hint, detect), old(tr.nextId), raised)
  {
    ctx.Clear();
    raised := SendPreferencesView(store, tr, FromCallback(call.chat, call.message), call.user, call.hint, true, detect);
  }

  /**
   * `prefs_schedule_time`: for a known user, sends the prompt, enters
   * `schedule_time` and stores the preferences message, its chat and the
   * prompt; for an unknown user, says so and leaves the context alone.
   */
  method CbPrefsScheduleTime(ctx: FsmContext, store: UserStore, tr: Transport, call: Callback,
                             detect: Option<String> -> String)
    modifies ctx, tr
    ensures ctx.Current()
      == Transition(old(ctx.Current()), RequestScheduleEdit(call.chat, call.message, old(tr.nextId), call.user in store.users))
    ensures tr.nextId == old(tr.nextId) + 1
    ensures tr.log == old(tr.log) + [
      Sent(call.chat, old(tr.nextId),
           Notice(if call.user in store.users then "profile.preferences_schedule_prompt" else "profile.no_profile",
                  ViewLang(store.users, call.user, call.hint, detect))),
      CallbackAnswered]
  {
    var p := PrepareView(store.users, call.user, call.hint, detect);
    if p.user.None? {
      var sent := tr.Answer(call.chat, Notice("profile.no_profile", p.lang));
      tr.AnswerCallback();
      return;
    }
    var prompt := tr.Answer(call.chat, Notice("profile.preferences_schedule_prompt", p.lang));
    ctx.SetState(ScheduleTime);
    ctx.UpdateData(map[PrefsMessageKey := call.message, PrefsChatKey := call.chat, PromptKey := prompt]);
    tr.AnswerCallback();
  }

  /** `prefs_back_profile`: clears the FSM context and hands over to the profile view. */
  method CbPrefsBackProfile(ctx: FsmContext, tr: Transport, call: Callback)
    modifies ctx, tr
    ensures ctx.Current() == Transition(old(ctx.Current()), BackToProfile)
    ensures tr.nextId == old(tr.nextId)
    ensures tr.log == old(tr.log) + [ProfileShown(call.user, call.chat, call.message), CallbackAnswered]
  {
    ctx.Clear();
    tr.ShowProfile(call.user, call.chat, call.message);
    tr.AnswerCallback();
  }

  /**
   * `prefs_lang_menu`: sends the language menu in the client's language and
   * clears the FSM context; no state waits for the choice.
   */
  method CbPrefsLangMenu(ctx: FsmContext, tr: Transport, call: Callback, detect: Option<String> -> String)
    modifies ctx, tr
    ensures ctx.Current() == Transition(old(ctx.Current()), OpenLanguageMenu)
    ensures tr.nextId == old(tr.nextId) + 1
    ensures tr.log == old(tr.log) + [Sent(call.chat, old(tr.nextId), LanguageMenu(detect(call.hint))), CallbackAnswered]
  {
    var lang := detect(call.hint);
    var sent := tr.Answer(call.chat, LanguageMenu(lang));
    ctx.Clear();
    tr.AnswerCallback();
  }

  /**
   * `prefs_set_lang:<code>`: in any FSM state (the context is not touched),
   * writes the language only for the codes `en` and `ru`, then confirms and
   * shows the view in place; any other code is answered with a notice and
   * no write.
   */
  method CbPrefsSetLang(store: UserStore, tr: Transport, call: Callback, detect: Option<String> -> String)
    returns (raised: bool)
    requires |call.data| >= |LangPrefix| && call.data[..|LangPrefix|] == LangPrefix   // the router's filter
    modifies store, tr
    ensures tr.nextId == old(tr.nextId)
      + (if LanguageCode(call.data) in SupportedCodes && call.user !in old(store.users) then 2 else 1)
    ensures LanguageCode(call.data) !in SupportedCodes ==>
      && store.users == old(store.users)
      && tr.log == old(tr.log) + [
           Sent(call.chat, old(tr.nextId), Notice("profile.preferences_lang_invalid", detect(call.hint))),
           CallbackAnswered]
    ensures LanguageCode(call.data) in SupportedCodes ==>
      var target := detect(Some(LanguageCode(call.data)));
      && store.users == WithLanguage(old(store.users), call.user, target)
      && tr.log == old(tr.log)
           + [Sent(call.chat, old(tr.nextId), Notice("profile.preferences_lang_saved", target)), CallbackAnswered]
           + ViewEffects(FromCallback(call.chat, call.message), true,
                         PrepareView(store.users, call.user, call.hint, detect), old(tr.nextId) + 1, raised)
  {
    raised := false;
    var code := LanguageCode(call.data);
    if code !in SupportedCodes {
      var lang := detect(call.hint);
      var sent := tr.Answer(call.chat, Notice("profile.preferences_lang_invalid", lang));
      tr.AnswerCallback();
      return;
    }
    var target := detect(Some(code));
    store.UpdateLanguageCode(call.user, target);
    var sent := tr.Answer(call.chat, Notice("profile.preferences_lang_saved", target));
    tr.AnswerCallback();
    raised := SendPreferencesView(store, tr, FromCallback(call.chat, call.message), call.user, call.hint, true, detect);
  }

  /** The value written for a completed reply: `None` for a clear keyword, the canonical time otherwise. */
  function StoredValue(input: ScheduleInput): PrefValue
    requires !input.Invalid?
  {
    if input.Clear? then None else Some(input.time)
  }

  /** The confirmation sent for a completed reply. */
  function Confirmation(input: ScheduleInput, lang: String): Reply
    requires !input.Invalid?
  {
    if input.Clear? then Notice("profile.preferences_schedule_cleared", lang)
    else NoticeWith("profile.preferences_schedule_saved", lang, input.time)
  }

  /**
   * `save_schedule_time`, reached only in the `schedule_time` state. An
   * unusable reply gets a notice and changes nothing else. A clear keyword
   * or a valid time is written, confirmed, the transient messages are
   * deleted, the preferences message is refreshed from the new store, and
   * the FSM context is cleared.
   */
  method SaveScheduleTime(ctx: FsmContext, store: UserStore, tr: Transport, msg: Message,
                          detect: Option<String> -> String)
    requires ctx.state == ScheduleTime   // the router's state filter
    modifies ctx, store, tr
    ensures ctx.Current() == Transition(old(ctx.Current()), ScheduleReply(ClassifyReply(msg.text)))
    ensures tr.nextId == old(tr.nextId) + 1
    ensures ClassifyReply(msg.text).Invalid? ==>
      && store.users == old(store.users)
      && tr.log == old(tr.log) + [Sent(msg.chat, old(tr.nextId),
           Notice("profile.preferences_schedule_invalid", ViewLang(old(store.users), msg.user, msg.hint, detect)))]
    ensures !ClassifyReply(msg.text).Invalid? ==>
      var input := ClassifyReply(msg.text);
      && store.users == WithSchedule(old(store.users), msg.user, StoredValue(input))
      && tr.log == old(tr.log)
           + [Sent(msg.chat, old(tr.nextId), Confirmation(input, ViewLang(old(store.users), msg.user, msg.hint, detect)))]
           + CleanupEffects(msg.chat, [Get(old(ctx.data), PromptKey), Some(msg.id), Some(old(tr.nextId))])
           + RefreshEffects(old(ctx.data), store.users, msg.user, msg.hint, detect)
  {
    var raw := Strip(msg.text.GetOr(""));
    var p := PrepareView(store.users, msg.user, msg.hint, detect);
    var lang := p.lang;
    if Lower(raw) in ClearKeywords {
      store.UpdatePreferences(msg.user, None);
      var confirmation := tr.Answer(msg.chat, Notice("profile.preferences_schedule_cleared", lang));
      CleanupScheduleMessages(ctx, tr, msg, confirmation);
      RefreshPreferencesMessage(ctx, store, tr, msg, detect);
      ctx.Clear();
      return;
    }
    var parsed := ParseTime(raw);
    if parsed.None? {
      var sent := tr.Answer(msg.chat, Notice("profile.preferences_schedule_invalid", lang));
      return;
    }
    store.UpdatePreferences(msg.user, parsed);
    var confirmation := tr.Answer(msg.chat, NoticeWith("profile.preferences_schedule_saved", lang, parsed.value));
    CleanupScheduleMessages(ctx, tr, msg, confirmation);
    RefreshPreferencesMessage(ctx, store, tr, msg, detect);
    ctx.Clear();
  }

  /**
   * After a completed reply, the refresh (when it happens) shows the value
   * just written: the new time, or the "not set" placeholder after a clear.
   */
  lemma {:induction false} RefreshShowsWrittenValue(data: map<String, int>, users: map<UserId, User>,
                                                   msg: Message, detect: Option<String> -> String)
    requires !ClassifyReply(msg.text).Invalid?
    requires msg.user in users && Present(Get(data, PrefsMessageKey)) && Present(Get(data, PrefsChatKey))
    ensures RefreshEffects(data, WithSchedule(users, msg.user, StoredValue(ClassifyReply(msg.text))), msg.user, msg.hint, detect)
      == [Edited(data[PrefsChatKey], data[PrefsMessageKey],
                 View(ViewLang(users, msg.user, msg.hint, detect),
                      if ClassifyReply(msg.text).Clear? then NotSet else Time(ClassifyReply(msg.text).time)))]
  {
    var input := ClassifyReply(msg.text);
    if input.Clear? {
      ViewAfterClear(users, msg.user, msg.hint, detect);
    } else {
      ViewAfterSave(users, msg.user, Strip(msg.text.GetOr("")), msg.hint, detect);
    }
  }
}
