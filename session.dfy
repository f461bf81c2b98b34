/**
 * The per-user FSM context the preferences handlers drive, as values: the
 * current state and the data dictionary, what each handler does to them, and
 * the invariant that holds after any sequence of handler runs.
 */
module Session {
  import opened Wrappers
  import opened PyStr
  import opened TimeParser

  /** No state, or `EditPreferences.schedule_time`; the flow has no language-choice state. */
  datatype FsmState = NoState | ScheduleTime

  /** The storage keys written by the schedule-time button. */
  const PrefsMessageKey: String := "prefs_message_id"
  const PrefsChatKey: String := "prefs_chat_id"
  const PromptKey: String := "prompt_message_id"
  const ScheduleDataKeys: set<String> := {PrefsMessageKey, PrefsChatKey, PromptKey}

  /** The FSM context of one user: `state.get_state()` and `state.get_data()`. */
  datatype Snapshot = Snapshot(state: FsmState, data: map<String, int>)

  /** What `state.clear()` leaves: no state and no data. */
  const Cleared: Snapshot := Snapshot(NoState, map[])

  /** `data.get(key)`. */
  function Get(data: map<String, int>, key: String): Option<int> {
    if key in data then Some(data[key]) else None
  }

  /**
   * The invariant: the data holds the three message references exactly while
   * the state is `schedule_time`, and nothing otherwise.
   */
  predicate Inv(s: Snapshot) {
    s.data.Keys == if s.state == ScheduleTime then ScheduleDataKeys else {}
  }

  /** The inputs that reach the handlers of this flow. */
  datatype Event =
    | OpenPreferences          // `/preferences` command
    | OpenMenu                 // `prefs_menu` button
    | BackToProfile            // `prefs_back_profile` button
    | OpenLanguageMenu         // `prefs_lang_menu` button
    | ChooseLanguage(data: String)   // `prefs_set_lang:<code>` button
    | RequestScheduleEdit(chat: int, prefsMessage: int, prompt: int, profileExists: bool)
        // `prefs_schedule_time` button pressed on message `prefsMessage` of `chat`; `prompt` is the id
        // of the prompt sent; `profileExists` says whether the store has a record for the user
    | ScheduleReply(input: ScheduleInput)   // a text message, as `ClassifyReply` reads it

  /**
   * The new FSM context after handling `e`: every handler leaves the context
   * as it was, clears it, or (only the schedule-time button, for a known
   * user) enters `schedule_time` with the three references stored.
   */
  function Transition(s: Snapshot, e: Event): (r: Snapshot)
    ensures r == s || r == Cleared
      || (e.RequestScheduleEdit? && e.profileExists && r.state == ScheduleTime
          && r.data == s.data + map[PrefsMessageKey := e.prefsMessage, PrefsChatKey := e.chat, PromptKey := e.prompt])
    ensures e.OpenPreferences? || e.ChooseLanguage? ==> r == s
    ensures e.OpenMenu? || e.BackToProfile? || e.OpenLanguageMenu? ==> r == Cleared
  {
    match e
    case OpenPreferences => s
    case OpenMenu => Cleared
    case BackToProfile => Cleared
    case OpenLanguageMenu => Cleared
    case ChooseLanguage(_) => s
    case RequestScheduleEdit(chat, prefsMessage, prompt, profileExists) =>
      if !profileExists then s
      else Snapshot(ScheduleTime,
                    s.data + map[PrefsMessageKey := prefsMessage, PrefsChatKey := chat, PromptKey := prompt])
    case ScheduleReply(input) =>
      if s.state != ScheduleTime then s   // not routed to `save_schedule_time`
      else if input.Invalid? then s
      else Cleared
  }

  /** Every handler keeps the invariant. */
  lemma {:induction false} TransitionKeepsInv(s: Snapshot, e: Event)
    requires Inv(s)
    ensures Inv(Transition(s, e))
  {
    match e
    case RequestScheduleEdit(chat, prefsMessage, prompt, _) =>
      var m := map[PrefsMessageKey := prefsMessage, PrefsChatKey := chat, PromptKey := prompt];
      assert m.Keys == ScheduleDataKeys;
      assert (s.data + m).Keys == s.data.Keys + m.Keys;
    case _ =>
  }

  /** Entering `schedule_time` happens only through the schedule-time button, and stores all three references. */
  lemma OnlyScheduleButtonEnters(s: Snapshot, e: Event)
    requires s.state == NoState
    requires Transition(s, e).state == ScheduleTime
    ensures e.RequestScheduleEdit? && e.profileExists
    ensures Transition(s, e).data[PrefsMessageKey] == e.prefsMessage
    ensures Transition(s, e).data[PrefsChatKey] == e.chat
    ensures Transition(s, e).data[PromptKey] == e.prompt
  {
  }

  /** An unparseable reply leaves state and data as they were, so the user may retry. */
  lemma InvalidReplyKeepsSession(s: Snapshot, text: Option<String>)
    requires s.state == ScheduleTime
    requires Lower(Strip(text.GetOr(""))) !in ClearKeywords && ParseTime(Strip(text.GetOr(""))).None?
    ensures Transition(s, ScheduleReply(ClassifyReply(text))) == s
  {
  }

  /** A clear keyword or a valid time ends the session. */
  lemma CompletedReplyClears(s: Snapshot, text: Option<String>)
    requires s.state == ScheduleTime
    requires Lower(Strip(text.GetOr(""))) in ClearKeywords || ParseTime(Strip(text.GetOr(""))).Some?
    ensures Transition(s, ScheduleReply(ClassifyReply(text))) == Cleared
  {
  }

  /** The FSM context after a whole sequence of events. */
  function Run(s: Snapshot, events: seq<Event>): Snapshot
    decreases |events|
  {
    if events == [] then s
    else Run(Transition(s, events[0]), events[1..])
  }

  /**
   * After any sequence of events from a state satisfying the invariant, the
   * invariant holds; in particular the prompt reference is stored exactly
   * while the state is `schedule_time`.
   */
  lemma {:induction false} RunKeepsInv(s: Snapshot, events: seq<Event>)
    requires Inv(s)
    ensures Inv(Run(s, events))
    ensures PromptKey in Run(s, events).data <==> Run(s, events).state == ScheduleTime
    decreases |events|
  {
    if events != [] {
      TransitionKeepsInv(s, events[0]);
      RunKeepsInv(Transition(s, events[0]), events[1..]);
    }
  }

  /** A fresh context (nothing stored yet) satisfies the invariant. */
  lemma InitialInv()
    ensures Inv(Cleared)
  {
  }

  /** Opening the language menu and going back leaves no state and no dangling prompt reference. */
  lemma LanguageMenuThenBack(s: Snapshot)
    ensures Run(s, [OpenLanguageMenu, BackToProfile]) == Cleared
  {
    assert [OpenLanguageMenu, BackToProfile][1..] == [BackToProfile];
  }

  /**
   * Asking for the time and then sending an unusable reply (such as `25:00`,
   * see `OutOfRangeReplyInvalid`) leaves the user waiting for a time, with the
   * references intact.
   */
  lemma ScheduleThenInvalidReply(chat: int, prefsMessage: int, prompt: int)
    ensures Run(Cleared, [RequestScheduleEdit(chat, prefsMessage, prompt, true), ScheduleReply(Invalid)])
      == Snapshot(ScheduleTime, map[PrefsMessageKey := prefsMessage, PrefsChatKey := chat, PromptKey := prompt])
  {
    var evs := [RequestScheduleEdit(chat, prefsMessage, prompt, true), ScheduleReply(Invalid)];
    var s1 := Transition(Cleared, evs[0]);
    assert evs[1..] == [ScheduleReply(Invalid)] && evs[1..][1..] == [];
    assert Run(Cleared, evs) == Run(s1, evs[1..]);
    assert Run(s1, evs[1..]) == Run(Transition(s1, evs[1]), []);
    assert map[] + map[PrefsMessageKey := prefsMessage, PrefsChatKey := chat, PromptKey := prompt]
      == map[PrefsMessageKey := prefsMessage, PrefsChatKey := chat, PromptKey := prompt];
  }

  /** Asking for the time and then sending a valid time or a clear keyword ends the session. */
  lemma ScheduleThenCompletedReply(chat: int, prefsMessage: int, prompt: int, input: ScheduleInput)
    requires !input.Invalid?
    ensures Run(Cleared, [RequestScheduleEdit(chat, prefsMessage, prompt, true), ScheduleReply(input)]) == Cleared
  {
    var evs := [RequestScheduleEdit(chat, prefsMessage, prompt, true), ScheduleReply(input)];
    var s1 := Transition(Cleared, evs[0]);
    assert evs[1..] == [ScheduleReply(input)] && evs[1..][1..] == [];
    assert Run(Cleared, evs) == Run(s1, evs[1..]);
    assert Run(s1, evs[1..]) == Run(Transition(s1, evs[1]), []);
  }
}
