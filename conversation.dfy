/**
 * The preference-configuration conversation: what each handler decides
 * (as functions of the update, the session and the preference table) and
 * the handlers that write `context.user_data` and the preference table.
 * Both the current service and the older builder use these.
 */
module Conversation {
  import opened Wrappers
  import opened TelegramSchema
  import opened Updates
  import PreferencesRepo

  type UserData = map<string, string>

  /**
   * What a handler hands back to the conversation handler: a state to move
   * to, the end of the conversation, or an exception (the conversation then
   * stays where it was).
   */
  datatype Next = Goto(state: State) | End | Raised

  /** A handler's decision and the session it leaves behind. */
  datatype Step = Step(next: Next, data: UserData)

  /** Where a user's conversation stands between two messages. */
  datatype Position = Idle | In(state: State)

  /** How the conversation handler applies a handler's result. */
  function Advance(pos: Position, next: Next): Position
  {
    match next
    case Goto(s) => In(s)
    case End => Idle
    case Raised => pos
  }

  /** The cancel token is neither option value. */
  lemma TokenIsNoOption()
    ensures !IsOptionValue(EndConversationToken)
  {
    assert |EndConversationToken| == 7;
    assert |OptionValue(AlertStartTime)| == 20 && |OptionValue(AlertEndTime)| == 18;
  }

  /**
   * The session after `__end_conversation`: when there is a message and the
   * session holds a selected option, the whole session is cleared; without
   * a message the session is kept.
   */
  function EndedSession(u: Update, data: UserData): (r: UserData)
    ensures u.message.Some? ==> SelectedOptionKey !in r
    ensures r == data || r == map[]
    ensures SelectedOptionKey !in data ==> r == data
    ensures u.message.None? ==> r == data
  {
    if u.message.Some? && SelectedOptionKey in data then map[] else data
  }

  /** The update is the `/configure` command that opens the conversation. */
  predicate IsConfigureCommand(u: Update)
  {
    u.message.Some? && u.message.value.text == Some("/configure")
  }

  /** `configure_notifications`: the entry state. */
  function ConfigureStep(u: Update): (s: State)
    ensures s == Fallback <==> SenderOf(u).None?
    ensures s != AlertTime
  {
    if u.message.None? || u.message.value.fromUser.None? then Fallback else SelectingNotificationOption
  }

  /** `selected_option` (current service): the option text is validated first. */
  function SelectOptionStep(u: Update, data: UserData): (r: Step)
    ensures IncomingText(u).None? ==> r == Step(Goto(Fallback), data)
    ensures IncomingText(u) == Some(EndConversationToken) ==> r.next == End && SelectedOptionKey !in r.data
    ensures r.next == Goto(AlertTime) <==> IncomingText(u).Some? && IsOptionValue(IncomingText(u).value)
    ensures r.next == Goto(AlertTime) ==> r.data == data[SelectedOptionKey := IncomingText(u).value]
    ensures (IncomingText(u).Some? && IncomingText(u).value != EndConversationToken
             && !IsOptionValue(IncomingText(u).value)) ==> r == Step(Goto(SelectingNotificationOption), data)
    ensures r.next != Raised
  {
    TokenIsNoOption();
    var text := IncomingText(u);
    if text.None? then Step(Goto(Fallback), data)
    else if text.value == EndConversationToken then Step(End, EndedSession(u, data))
    else if !IsOptionValue(text.value) then Step(Goto(SelectingNotificationOption), data)
    else Step(Goto(AlertTime), data[SelectedOptionKey := text.value])
  }

  /**
   * `selected_option` (older builder): any text is stored first, and the
   * instruction lookup then fails for a text that is not an option value.
   */
  function LegacySelectOptionStep(u: Update, data: UserData): (r: Step)
    ensures IncomingText(u).None? ==> r == Step(Goto(Fallback), data)
    ensures IncomingText(u) == Some(EndConversationToken) ==> r.next == End && SelectedOptionKey !in r.data
    ensures IncomingText(u).Some? && IncomingText(u).value != EndConversationToken ==>
              r.data == data[SelectedOptionKey := IncomingText(u).value]
              && r.next == (if IsOptionValue(IncomingText(u).value) then Goto(AlertTime) else Raised)
  {
    var text := IncomingText(u);
    if text.None? then Step(Goto(Fallback), data)
    else if text.value == EndConversationToken then Step(End, EndedSession(u, data))
    else
      var stored := data[SelectedOptionKey := text.value];
      if IsOptionValue(text.value) then Step(Goto(AlertTime), stored) else Step(Raised, stored)
  }

  /**
   * `str(user_data and user_data["selected_option"])`: the text of an empty
   * session is "{}"; a non-empty session without the key raises (none).
   */
  function SelectedOptionText(data: UserData): (r: Option<string>)
    ensures data == map[] ==> r == Some("{}")
    ensures data != map[] ==> (r.Some? <==> SelectedOptionKey in data)
    ensures data != map[] && r.Some? ==> r.value == data[SelectedOptionKey]
  {
    if data == map[] then Some("{}")
    else if SelectedOptionKey in data then Some(data[SelectedOptionKey])
    else None
  }

  /** The preference with only the field the selected option names set to `input`. */
  function WithSelectedField(p: Preference, selected: string, input: string): (q: Preference)
    ensures q.id == p.id
    ensures selected == OptionValue(AlertStartTime) ==>
              q.silenceStartTime == input && q.silenceEndTime == p.silenceEndTime
    ensures selected == OptionValue(AlertEndTime) ==>
              q.silenceEndTime == input && q.silenceStartTime == p.silenceStartTime
    ensures !IsOptionValue(selected) ==> q == p
  {
    if selected == OptionValue(AlertStartTime) then p.(silenceStartTime := input)
    else if selected == OptionValue(AlertEndTime) then p.(silenceEndTime := input)
    else p
  }

  /** A handler's decision, the session after it, and the preference it writes, if any. */
  datatype AlertTimeStep = AlertTimeStep(next: Next, data: UserData, write: Option<Preference>)

  /**
   * `configure_alert_time`, as its intended preference update: a time text
   * that fails `validTime` re-prompts, a missing preference goes to FALLBACK,
   * otherwise only the selected field is written and the conversation ends.
   */
  function AlertTimeStepOf(u: Update, data: UserData, prefs: PreferencesRepo.PreferenceTable,
                           validTime: string -> bool): (r: AlertTimeStep)
    ensures IncomingText(u).None? ==> r == AlertTimeStep(Goto(Fallback), data, None)
    ensures IncomingText(u) == Some(EndConversationToken) ==>
              r.next == End && SelectedOptionKey !in r.data && r.write == None
    ensures (IncomingText(u).Some? && IncomingText(u).value != EndConversationToken
             && !validTime(IncomingText(u).value)) ==> r == AlertTimeStep(Goto(AlertTime), data, None)
    ensures (IncomingText(u).Some? && IncomingText(u).value != EndConversationToken
             && validTime(IncomingText(u).value) && SenderOf(u).value.id !in prefs)
            ==> r == AlertTimeStep(Goto(Fallback), data, None)
    ensures r.write.Some? <==>
              IncomingText(u).Some? && IncomingText(u).value != EndConversationToken
              && validTime(IncomingText(u).value) && SenderOf(u).value.id in prefs
              && SelectedOptionText(data).Some?
    ensures r.write.Some? ==>
              var id := SenderOf(u).value.id;
              r.next == End && SelectedOptionKey !in r.data
              && r.write.value == WithSelectedField(PreferencesRepo.RowToPreference(id, prefs[id]),
                                                    SelectedOptionText(data).value, IncomingText(u).value)
    ensures (IncomingText(u).Some? && IncomingText(u).value != EndConversationToken
             && validTime(IncomingText(u).value) && SenderOf(u).value.id in prefs
             && SelectedOptionText(data).None?)
            ==> r == AlertTimeStep(Raised, data, None)
    ensures r.next == Raised ==> r.data == data && r.write == None
    ensures r.next == End ==> r.data == EndedSession(u, data)
  {
    var text := IncomingText(u);
    if text.None? then AlertTimeStep(Goto(Fallback), data, None)
    else if text.value == EndConversationToken then AlertTimeStep(End, EndedSession(u, data), None)
    else if !validTime(text.value) then AlertTimeStep(Goto(AlertTime), data, None)
    else
      var id := SenderOf(u).value.id;
      var pref := PreferencesRepo.Lookup(prefs, id);
      if pref.None? then AlertTimeStep(Goto(Fallback), data, None)
      else
        var selected := SelectedOptionText(data);
        if selected.None? then AlertTimeStep(Raised, data, None)
        else AlertTimeStep(End, EndedSession(u, data), Some(WithSelectedField(pref.value, selected.value, text.value)))
  }

  /** The preference table after the handler's write, if it makes one. */
  function ApplyWrite(t: PreferencesRepo.PreferenceTable, write: Option<Preference>): (r: PreferencesRepo.PreferenceTable)
    ensures write.None? ==> r == t
    ensures r.Keys == t.Keys
    ensures write.Some? ==> forall k :: k in t && k != write.value.id ==> r[k] == t[k]
    ensures write.Some? && write.value.id in t ==>
              r[write.value.id] == PreferencesRepo.PreferenceRow(write.value.silenceStartTime, write.value.silenceEndTime)
    ensures write.Some? && write.value.id !in t ==> r == t
  {
    if write.None? then t
    else PreferencesRepo.Updated(t, write.value.id, write.value.silenceStartTime, write.value.silenceEndTime)
  }

  /**
   * After a confirmed time, the sender's row differs from before only in
   * the field the selected option names, and every other row is unchanged.
   */
  lemma AlertTimeWritesOnlySelectedField(u: Update, data: UserData, prefs: PreferencesRepo.PreferenceTable,
                                         validTime: string -> bool)
    requires AlertTimeStepOf(u, data, prefs, validTime).write.Some?
    ensures var id := SenderOf(u).value.id;
            var t := ApplyWrite(prefs, AlertTimeStepOf(u, data, prefs, validTime).write);
            var input := IncomingText(u).value;
            var selected := SelectedOptionText(data).value;
            && t.Keys == prefs.Keys
            && (forall k :: k in prefs && k != id ==> t[k] == prefs[k])
            && (selected == OptionValue(AlertStartTime) ==> t[id] == prefs[id].(silenceStartTime := input))
            && (selected == OptionValue(AlertEndTime) ==> t[id] == prefs[id].(silenceEndTime := input))
            && (!IsOptionValue(selected) ==> t == prefs)
  {
  }

  /**
   * A whole configuration: `/configure`, then the start-time option, then a
   * valid time leave the conversation idle, the session empty, and only the
   * sender's start time changed.
   */
  lemma ConfigureStartTimeFlow(u1: Update, u2: Update, u3: Update, data: UserData,
                               prefs: PreferencesRepo.PreferenceTable, validTime: string -> bool)
    requires IsConfigureCommand(u1) && SenderOf(u1).Some?
    requires IncomingText(u2) == Some(OptionValue(AlertStartTime))
    requires IncomingText(u3).Some? && IncomingText(u3).value != EndConversationToken
    requires validTime(IncomingText(u3).value) && SenderOf(u3).value.id in prefs
    ensures var s2 := SelectOptionStep(u2, data);
            var s3 := AlertTimeStepOf(u3, s2.data, prefs, validTime);
            var id := SenderOf(u3).value.id;
            && ConfigureStep(u1) == SelectingNotificationOption
            && Advance(In(SelectingNotificationOption), s2.next) == In(AlertTime)
            && Advance(In(AlertTime), s3.next) == Idle
            && s3.data == map[]
            && ApplyWrite(prefs, s3.write) == prefs[id := prefs[id].(silenceStartTime := IncomingText(u3).value)]
  {
    var s2 := SelectOptionStep(u2, data);
    assert IsOptionValue(OptionValue(AlertStartTime));
    assert s2.data == data[SelectedOptionKey := OptionValue(AlertStartTime)];
    assert SelectedOptionKey in s2.data;
    assert SelectedOptionText(s2.data) == Some(OptionValue(AlertStartTime));
  }

  /** `fallback_conversation`: ends the conversation. */
  function FallbackStep(u: Update, data: UserData): (r: Step)
    ensures r.next == End
    ensures u.message.Some? ==> SelectedOptionKey !in r.data
  {
    Step(End, EndedSession(u, data))
  }

  /** `__end_conversation`: clears the session as `EndedSession` says; always ends. */
  method EndConversation(u: Update, context: CallbackContext) returns (next: Next)
    modifies context
    ensures next == End
    ensures context.userData == EndedSession(u, old(context.userData))
  {
    if u.message.None? {
      return End;
    }
    if SelectedOptionKey in context.userData {
      context.userData := context.userData - {SelectedOptionKey};
      context.userData := map[];
    }
    next := End;
  }

  /** `configure_alert_time`, over the session and the preference repository. */
  method ConfigureAlertTime(u: Update, context: CallbackContext,
                            preferences: PreferencesRepo.PreferencesRepository,
                            validTime: string -> bool) returns (next: Next)
    modifies context, preferences
    ensures var r := AlertTimeStepOf(u, old(context.userData), old(preferences.table), validTime);
            next == r.next && context.userData == r.data
            && preferences.table == ApplyWrite(old(preferences.table), r.write)
  {
    var text := IncomingText(u);
    if text.None? {
      return Goto(Fallback);
    }
    if text.value == EndConversationToken {
      next := EndConversation(u, context);
      return;
    }
    var input := text.value;
    if !validTime(input) {
      return Goto(AlertTime);
    }
    var pref := preferences.GetUserPreference(u.message.value.fromUser.value.id);
    if pref.None? {
      return Goto(Fallback);
    }
    var selected := SelectedOptionText(context.userData);
    if selected.None? {
      return Raised;
    }
    // The current service adds `alert_start_time` / `alert_end_time` keys next to the
    // dumped `silence_*` ones (weather.py:320-323), which `update_preferences` does not
    // accept; this is the intended update, the one the older builder makes.
    var params := pref.value;
    if selected.value == OptionValue(AlertStartTime) {
      params := params.(silenceStartTime := input);
    } else if selected.value == OptionValue(AlertEndTime) {
      params := params.(silenceEndTime := input);
    }
    preferences.UpdatePreferences(params.id, params.silenceStartTime, params.silenceEndTime);
    next := EndConversation(u, context);
  }

  /** `fallback_conversation`. */
  method FallbackConversation(u: Update, context: CallbackContext) returns (next: Next)
    modifies context
    ensures Step(next, context.userData) == FallbackStep(u, old(context.userData))
  {
    next := EndConversation(u, context);
  }

}
