/**
 * Four handlers of the current service as they are written. Each calls a
 * repository method with keyword arguments it does not take; the call
 * raises before any statement runs, and the surrounding transaction rolls
 * back whatever the handler wrote before it. The rest of the model uses
 * the intended operations (`Subscription.TrackedTables`,
 * `WeatherBot.UnsubscribeStep`, `Subscription.SubscribeStep`,
 * `Conversation.AlertTimeStepOf`); the lemmas here name inputs on which
 * the written code and the intended operation part ways.
 */
module AsWritten {
  import opened Wrappers
  import opened Time
  import opened TelegramSchema
  import opened Updates
  import opened Conversation
  import opened Subscription
  import TelegramRepo
  import PreferencesRepo
  import WeatherBot

  /**
   * `track_users` as written: `create_preferences` gets `alert_*` keywords,
   * so for a sender without a preference the whole transaction, the
   * upsert included, is rolled back.
   */
  function TrackedTablesAsWritten(u: Update, now: Timestamp, t: Tables): (r: Tables)
    ensures SenderOf(u).None? || SenderOf(u).value.isBot ==> r == t
    ensures SenderOf(u).Some? && !SenderOf(u).value.isBot && SenderOf(u).value.id !in t.prefs ==> r == t
    ensures SenderOf(u).Some? && !SenderOf(u).value.isBot && SenderOf(u).value.id in t.prefs ==>
              r == TrackedTables(u, now, t)
  {
    var s := SenderOf(u);
    if s.None? || s.value.isBot || s.value.id !in t.prefs then t
    else TrackedTables(u, now, t)
  }

  /** A first-time human sender is never stored as written, but is by the intended handler. */
  lemma TrackAsWrittenDropsNewSender(u: Update, now: Timestamp, t: Tables)
    requires SenderOf(u).Some? && !SenderOf(u).value.isBot
    requires SenderOf(u).value.id !in t.users && SenderOf(u).value.id !in t.prefs
    ensures SenderOf(u).value.id !in TrackedTablesAsWritten(u, now, t).users
    ensures SenderOf(u).value.id in TrackedTables(u, now, t).users
    ensures TrackedTables(u, now, t).prefs[SenderOf(u).value.id]
            == PreferencesRepo.PreferenceRow(DefaultStartTime, DefaultEndTime)
  {
  }

  /**
   * `unsubscribe` as written: `update_is_deleted_user` gets a `chat_id`
   * keyword, so a live user's unsubscribe raises (none) and changes nothing.
   */
  function UnsubscribeStepAsWritten(u: Update, t: TelegramRepo.TelegramTable, today: Date)
    : (r: (Option<UnsubscribeReply>, TelegramRepo.TelegramTable))
    ensures r.1 == t
    ensures SenderOf(u).Some? && SenderOf(u).value.id in t && !t[SenderOf(u).value.id].isDeleted ==>
              r.0 == None
    ensures !(SenderOf(u).Some? && SenderOf(u).value.id in t && !t[SenderOf(u).value.id].isDeleted) ==>
              r == (Some(WeatherBot.UnsubscribeStep(u, t, today).0), t)
  {
    var s := SenderOf(u);
    if s.Some? && s.value.id in t && !t[s.value.id].isDeleted then (None, t)
    else (Some(WeatherBot.UnsubscribeStep(u, t, today).0), t)
  }

  /** A live subscriber stays live as written; the intended handler marks them deleted. */
  lemma UnsubscribeAsWrittenKeepsLiveUser(u: Update, t: TelegramRepo.TelegramTable, today: Date)
    requires SenderOf(u).Some? && SenderOf(u).value.id in t && !t[SenderOf(u).value.id].isDeleted
    ensures !UnsubscribeStepAsWritten(u, t, today).1[SenderOf(u).value.id].isDeleted
    ensures WeatherBot.UnsubscribeStep(u, t, today).1[SenderOf(u).value.id].isDeleted
  {
  }

  /**
   * `subscribe` as written: the same extra `chat_id` keyword, so resubscribing
   * a deleted user raises (none) and changes nothing.
   */
  function SubscribeStepAsWritten(u: Update, t: TelegramRepo.TelegramTable)
    : (r: (Option<SubscribeReply>, TelegramRepo.TelegramTable))
    ensures r.1 == t
    ensures SenderOf(u).Some? && SenderOf(u).value.id in t && t[SenderOf(u).value.id].isDeleted ==>
              r.0 == None
    ensures !(SenderOf(u).Some? && SenderOf(u).value.id in t && t[SenderOf(u).value.id].isDeleted) ==>
              r == (Some(SubscribeStep(u, t).0), t)
  {
    var s := SenderOf(u);
    if s.Some? && s.value.id in t && t[s.value.id].isDeleted then (None, t)
    else (Some(SubscribeStep(u, t).0), t)
  }

  /** A deleted subscriber stays deleted as written; the intended handler brings them back. */
  lemma SubscribeAsWrittenKeepsDeletedUser(u: Update, t: TelegramRepo.TelegramTable)
    requires SenderOf(u).Some? && SenderOf(u).value.id in t && t[SenderOf(u).value.id].isDeleted
    ensures SubscribeStepAsWritten(u, t).1[SenderOf(u).value.id].isDeleted
    ensures !SubscribeStep(u, t).1[SenderOf(u).value.id].isDeleted
  {
  }

  /**
   * `configure_alert_time` as written: for a selected option, an `alert_*`
   * key joins the `silence_*` ones and `update_preferences` raises, so the
   * conversation stays in ALERT_TIME with nothing written; a session whose
   * text is no option ("{}") passes the unchanged preference through.
   */
  function AlertTimeStepAsWritten(u: Update, data: UserData, prefs: PreferencesRepo.PreferenceTable,
                                  validTime: string -> bool): (r: AlertTimeStep)
    ensures AlertTimeStepOf(u, data, prefs, validTime).write.Some? && IsOptionValue(SelectedOptionText(data).value) ==>
              r == AlertTimeStep(Raised, data, None)
    ensures !(AlertTimeStepOf(u, data, prefs, validTime).write.Some? && IsOptionValue(SelectedOptionText(data).value)) ==>
              r == AlertTimeStepOf(u, data, prefs, validTime)
    ensures ApplyWrite(prefs, r.write) == ApplyWrite(prefs, AlertTimeStepOf(u, data, prefs, validTime).write)
            || r.next == Raised
  {
    var intended := AlertTimeStepOf(u, data, prefs, validTime);
    if intended.write.Some? && IsOptionValue(SelectedOptionText(data).value) then AlertTimeStep(Raised, data, None)
    else intended
  }

  /**
   * A valid start time for a selected start-time option writes nothing as
   * written and leaves the user in ALERT_TIME; the intended handler writes
   * it and ends.
   */
  lemma AlertTimeAsWrittenNeverWrites(u: Update, data: UserData, prefs: PreferencesRepo.PreferenceTable,
                                      validTime: string -> bool)
    requires IncomingText(u).Some? && IncomingText(u).value != EndConversationToken
    requires validTime(IncomingText(u).value) && SenderOf(u).value.id in prefs
    requires SelectedOptionKey in data && data[SelectedOptionKey] == OptionValue(AlertStartTime)
    ensures AlertTimeStepAsWritten(u, data, prefs, validTime).write == None
    ensures Advance(In(AlertTime), AlertTimeStepAsWritten(u, data, prefs, validTime).next) == In(AlertTime)
    ensures AlertTimeStepOf(u, data, prefs, validTime).write.Some?
    ensures Advance(In(AlertTime), AlertTimeStepOf(u, data, prefs, validTime).next) == Idle
  {
    assert data != map[];
    assert SelectedOptionText(data) == Some(OptionValue(AlertStartTime));
  }

}
