/**
 * The current bot service: the dispatch cycle with its de-duplication
 * marker `last_updated`, the handlers bound to the bot's commands, and the
 * conversation handler's mapping from states to handlers.
 */
module WeatherBot {
  import opened Wrappers
  import opened Time
  import opened WeatherSchema
  import opened TelegramSchema
  import opened Updates
  import opened Conversation
  import opened Subscription
  import TelegramRepo
  import PreferencesRepo

  /** `__is_going_to_rain`: the first record's condition is in `rain_forecast_list`. */
  function IsGoingToRain(forecast: TwentyFourHour): (r: bool)
    requires |forecast.data.records| > 0
    ensures r <==> (ConditionOf(forecast.data.records[0]) in
                    {LightRain, ModerateRain, HeavyRain, PassingShowers, LightShowers, Showers,
                     HeavyShowers, ThunderyShowers, HeavyThunderyShowers, HeavyThunderyShowersWithGustyWinds})
  {
    RainListExactly();
    IsRainLike(ConditionOf(forecast.data.records[0]))
  }

  /** The dispatch guard: a rain-like record whose update time is not the one last sent. */
  predicate ShouldDispatch(lastUpdated: Option<Timestamp>, r: Record)
  {
    IsRainLike(ConditionOf(r)) && lastUpdated != Some(r.updatedTimestamp)
  }

  /**
   * The marker after a cycle on `r`: moved to the record's update time when
   * the cycle dispatches, unchanged otherwise; either way a repeat cycle on
   * the same record does not dispatch.
   */
  function MarkerAfter(lastUpdated: Option<Timestamp>, r: Record): (m: Option<Timestamp>)
    ensures ShouldDispatch(lastUpdated, r) ==> m == Some(r.updatedTimestamp)
    ensures !ShouldDispatch(lastUpdated, r) ==> m == lastUpdated
    ensures !ShouldDispatch(m, r)
  {
    if ShouldDispatch(lastUpdated, r) then Some(r.updatedTimestamp) else lastUpdated
  }

  /** Once a record is dispatched, no record with the same update time is dispatched next. */
  lemma SameTimestampSuppressed(lastUpdated: Option<Timestamp>, r: Record, r': Record)
    requires ShouldDispatch(lastUpdated, r)
    requires r'.updatedTimestamp == r.updatedTimestamp
    ensures !ShouldDispatch(MarkerAfter(lastUpdated, r), r')
  {
  }

  /**
   * Heavy Rain at T1 dispatches; the same forecast again does not; Fair at
   * T2 does not and leaves the marker at T1; Thundery Showers at T3 dispatches.
   */
  lemma DispatchScenario(a: Record, b: Record, c: Record)
    requires ConditionOf(a) == HeavyRain && ConditionOf(b) == Fair && ConditionOf(c) == ThunderyShowers
    requires c.updatedTimestamp != a.updatedTimestamp
    ensures ShouldDispatch(None, a)
    ensures MarkerAfter(None, a) == Some(a.updatedTimestamp)
    ensures !ShouldDispatch(MarkerAfter(None, a), a)
    ensures !ShouldDispatch(MarkerAfter(None, a), b)
    ensures MarkerAfter(MarkerAfter(None, a), b) == Some(a.updatedTimestamp)
    ensures ShouldDispatch(MarkerAfter(MarkerAfter(None, a), b), c)
  {
  }

  /** The list of sends: one per listed subscriber, to that subscriber's chat. */
  method SendList(users: seq<SubscriberPreference>) returns (ids: seq<ChatId>)
    ensures |ids| == |users|
    ensures forall i :: 0 <= i < |users| ==> ids[i] == users[i].telegram.chatId
  {
    ids := [];
    for i := 0 to |users|
      invariant |ids| == i
      invariant forall k :: 0 <= k < i ==> ids[k] == users[k].telegram.chatId
    {
      ids := ids + [users[i].telegram.chatId];
    }
  }

  /** How a dispatch cycle ended. */
  datatype CycleOutcome = NoForecast | NoRecords | Suppressed | Dispatched

  /** What `unsubscribe` does to the table (current service). */
  function UnsubscribeStep(u: Update, t: TelegramRepo.TelegramTable, today: Date)
    : (r: (UnsubscribeReply, TelegramRepo.TelegramTable))
    ensures SenderOf(u).None? || SenderOf(u).value.id !in t ==> r == (UnsubscribeIgnored, t)
    ensures SenderOf(u).Some? && SenderOf(u).value.id in t ==>
              var row := t[SenderOf(u).value.id];
              if row.isDeleted then r == (AlreadyUnsubscribed(DaysLeft(today, row.updatedAt)), t)
              else r.0 == Unsubscribed && r.1 == TelegramRepo.DeletedFlagSet(t, SenderOf(u).value.id, true)
                   && r.1[SenderOf(u).value.id].isDeleted
                   && r.1[SenderOf(u).value.id].updatedAt == row.updatedAt
  {
    var s := SenderOf(u);
    if s.None? then (UnsubscribeIgnored, t)
    else
      var user := TelegramRepo.Lookup(t, s.value.id);
      if user.None? || user.value.updatedAt.None? then (UnsubscribeIgnored, t)
      else if user.value.isDeleted then (AlreadyUnsubscribed(DaysLeft(today, user.value.updatedAt.value)), t)
      else (Unsubscribed, TelegramRepo.DeletedFlagSet(t, s.value.id, true))
  }

  /**
   * The reply promises 30 days before the data is deleted, but `updated_at`
   * is still the insert time: a subscriber of more than 30 days who
   * unsubscribes is removed by the very next purge.
   */
  lemma UnsubscribeOfOldRowPurgedAtOnce(u: Update, t: TelegramRepo.TelegramTable, today: Date, now: Timestamp)
    requires SenderOf(u).Some? && SenderOf(u).value.id in t
    requires !t[SenderOf(u).value.id].isDeleted && t[SenderOf(u).value.id].updatedAt < now - ThirtyDays
    ensures UnsubscribeStep(u, t, today).0 == Unsubscribed
    ensures SenderOf(u).value.id !in TelegramRepo.Purged(UnsubscribeStep(u, t, today).1, now)
  {
  }

  /**
   * `unsubscribe` with a flag flip that stamps `updated_at` at `now`, as
   * the reply presumes: the same replies, on the day of `now`.
   */
  function UnsubscribeStepStamped(u: Update, t: TelegramRepo.TelegramTable, now: Timestamp)
    : (r: (UnsubscribeReply, TelegramRepo.TelegramTable))
    ensures r.0 == UnsubscribeStep(u, t, DateOf(now)).0
    ensures r.0 != Unsubscribed ==> r.1 == t
    ensures SenderOf(u).Some? && r.0 == Unsubscribed ==>
              r.1 == TelegramRepo.DeletedFlagStamped(t, SenderOf(u).value.id, true, now)
  {
    var s := SenderOf(u);
    var reply := UnsubscribeStep(u, t, DateOf(now)).0;
    if s.Some? && reply == Unsubscribed then (reply, TelegramRepo.DeletedFlagStamped(t, s.value.id, true, now))
    else (reply, t)
  }

  /**
   * Unsubscribed at `now0` with the stamping flip, a live subscriber
   * survives exactly the purges of the next 30 days, and a repeated
   * unsubscribe at once replies that 30 days are left.
   */
  lemma StampedUnsubscribeKeepsThirtyDays(u: Update, t: TelegramRepo.TelegramTable, now0: Timestamp, now: Timestamp)
    requires SenderOf(u).Some? && SenderOf(u).value.id in t && !t[SenderOf(u).value.id].isDeleted
    ensures UnsubscribeStepStamped(u, t, now0).0 == Unsubscribed
    ensures SenderOf(u).value.id in TelegramRepo.Purged(UnsubscribeStepStamped(u, t, now0).1, now)
            <==> now <= now0 + ThirtyDays
    ensures UnsubscribeStepStamped(u, UnsubscribeStepStamped(u, t, now0).1, now0).0 == AlreadyUnsubscribed(30)
  {
    TelegramRepo.StampedDeleteSurvivesWindow(t, SenderOf(u).value.id, now0, now);
  }

  /** `WeatherService`. */
  class WeatherService {
    /** `last_updated`: the update time of the last forecast that was dispatched. */
    var lastUpdated: Option<Timestamp>
    /** The chats messages were sent to, oldest first. */
    var outbox: seq<ChatId>
    const telegramRepo: TelegramRepo.TelegramRepository
    const preferencesRepo: PreferencesRepo.PreferencesRepository
    /** `re.match(TWENTY_FOUR_HOUR_TIME_REGEX, text)`; the pattern is not part of this model. */
    const isValidTime: string -> bool

    constructor (telegramRepo: TelegramRepo.TelegramRepository,
                 preferencesRepo: PreferencesRepo.PreferencesRepository,
                 isValidTime: string -> bool)
      ensures lastUpdated == None && outbox == []
      ensures this.telegramRepo == telegramRepo && this.preferencesRepo == preferencesRepo
      ensures this.isValidTime == isValidTime
    {
      this.telegramRepo := telegramRepo;
      this.preferencesRepo := preferencesRepo;
      this.isValidTime := isValidTime;
      lastUpdated := None;
      outbox := [];
    }

    /** `__update_last_updated`. */
    method UpdateLastUpdated(dt: Timestamp)
      modifies this
      ensures lastUpdated == Some(dt) && outbox == old(outbox)
    {
      lastUpdated := Some(dt);
    }

    /**
     * `send_weather_update_to_users`, given the fetched forecast and the
     * subscriber listing: without a forecast nothing happens; otherwise the
     * first record decides, the marker moves before any send, and each listed
     * subscriber's chat gets one message.
     */
    method SendWeatherUpdateToUsers(current: Option<TwentyFourHour>, users: seq<SubscriberPreference>)
      returns (outcome: CycleOutcome, sent: seq<ChatId>)
      modifies this
      ensures outbox == old(outbox) + sent
      ensures current.None? ==> outcome == NoForecast && lastUpdated == old(lastUpdated)
      ensures current.Some? && |current.value.data.records| == 0 ==>
                outcome == NoRecords && lastUpdated == old(lastUpdated)
      ensures current.Some? && |current.value.data.records| > 0 ==>
                var r := current.value.data.records[0];
                && lastUpdated == MarkerAfter(old(lastUpdated), r)
                && (outcome == Dispatched <==> ShouldDispatch(old(lastUpdated), r))
                && (outcome == Suppressed <==> !ShouldDispatch(old(lastUpdated), r))
      ensures outcome != Dispatched ==> sent == []
      ensures outcome == Dispatched ==>
                |sent| == |users| && forall i :: 0 <= i < |users| ==> sent[i] == users[i].telegram.chatId
    {
      if current.None? {
        return NoForecast, [];
      }
      if |current.value.data.records| == 0 {
        // `records[0]` raises before anything changes.
        return NoRecords, [];
      }
      var record := current.value.data.records[0];
      if IsGoingToRain(current.value) && lastUpdated != Some(record.updatedTimestamp) {
        UpdateLastUpdated(record.updatedTimestamp);
        sent := SendList(users);
        outbox := outbox + sent;
        outcome := Dispatched;
      } else {
        outcome, sent := Suppressed, [];
      }
    }

    /** `track_users`. */
    method TrackUsers(u: Update, now: Timestamp)
      modifies telegramRepo, preferencesRepo
      ensures Tables(telegramRepo.table, preferencesRepo.table)
              == TrackedTables(u, now, Tables(old(telegramRepo.table), old(preferencesRepo.table)))
    {
      Subscription.TrackUsers(u, now, telegramRepo, preferencesRepo);
    }

    /** `unsubscribe`: an already-deleted user only hears how many days are left. */
    method Unsubscribe(u: Update, today: Date) returns (reply: UnsubscribeReply)
      modifies telegramRepo
      ensures (reply, telegramRepo.table) == UnsubscribeStep(u, old(telegramRepo.table), today)
    {
      if u.message.None? || u.message.value.fromUser.None? {
        return UnsubscribeIgnored;
      }
      var user := telegramRepo.GetTelegramUser(u.message.value.fromUser.value.id);
      if user.None? || user.value.updatedAt.None? {
        return UnsubscribeIgnored;
      }
      var daysLeft := DaysLeft(today, user.value.updatedAt.value);
      if user.value.isDeleted {
        return AlreadyUnsubscribed(daysLeft);
      }
      // The call also passes `chat_id` (weather.py:158-162), which
      // `update_is_deleted_user` does not take; this is the intended call.
      telegramRepo.UpdateIsDeletedUser(true, u.message.value.fromUser.value.id);
      reply := Unsubscribed;
    }

    /** `subscribe`. */
    method Subscribe(u: Update) returns (reply: SubscribeReply)
      modifies telegramRepo
      ensures (reply, telegramRepo.table) == SubscribeStep(u, old(telegramRepo.table))
    {
      reply := Subscription.Subscribe(u, telegramRepo);
    }

    /** `selected_option`. */
    method SelectedOption(u: Update, context: CallbackContext) returns (next: Next)
      modifies context
      ensures Step(next, context.userData) == SelectOptionStep(u, old(context.userData))
    {
      var text := IncomingText(u);
      if text.None? {
        return Goto(Fallback);
      }
      if text.value == EndConversationToken {
        next := EndConversation(u, context);
        return;
      }
      if !IsOptionValue(text.value) {
        return Goto(SelectingNotificationOption);
      }
      context.userData := context.userData[SelectedOptionKey := text.value];
      next := Goto(AlertTime);
    }

    /** `configure_alert_time`. */
    method ConfigureAlertTime(u: Update, context: CallbackContext) returns (next: Next)
      modifies context, preferencesRepo
      ensures var r := AlertTimeStepOf(u, old(context.userData), old(preferencesRepo.table), isValidTime);
              next == r.next && context.userData == r.data
              && preferencesRepo.table == ApplyWrite(old(preferencesRepo.table), r.write)
    {
      next := Conversation.ConfigureAlertTime(u, context, preferencesRepo, isValidTime);
    }
  }

  /** The conversation handler which `WeatherConversationDirector` builds. */
  class WeatherConversationDirector {
    const service: WeatherService

    constructor (service: WeatherService)
      ensures this.service == service
    {
      this.service := service;
    }

    /**
     * One text message for a user whose conversation is at `pos`: the state's
     * handler runs and its result moves the conversation.
     */
    method HandleText(pos: Position, u: Update, context: CallbackContext) returns (next: Position)
      modifies context, service.preferencesRepo
      ensures pos == Idle ==>
                context.userData == old(context.userData)
                && service.preferencesRepo.table == old(service.preferencesRepo.table)
                && next == (if IsConfigureCommand(u) then In(ConfigureStep(u)) else Idle)
      ensures pos == In(SelectingNotificationOption) ==>
                var s := SelectOptionStep(u, old(context.userData));
                next == Advance(pos, s.next) && context.userData == s.data
                && service.preferencesRepo.table == old(service.preferencesRepo.table)
      ensures pos == In(AlertTime) ==>
                var s := AlertTimeStepOf(u, old(context.userData), old(service.preferencesRepo.table), service.isValidTime);
                next == Advance(pos, s.next) && context.userData == s.data
                && service.preferencesRepo.table == ApplyWrite(old(service.preferencesRepo.table), s.write)
      ensures pos == In(Fallback) ==>
                next == Idle && context.userData == FallbackStep(u, old(context.userData)).data
                && service.preferencesRepo.table == old(service.preferencesRepo.table)
      ensures pos.In? && pos.state != Fallback && IncomingText(u) == Some(EndConversationToken) ==>
                next == Idle && SelectedOptionKey !in context.userData
                && service.preferencesRepo.table == old(service.preferencesRepo.table)
    {
      match pos
      case Idle =>
        next := if IsConfigureCommand(u) then In(ConfigureStep(u)) else Idle;
      case In(state) =>
        var result: Next;
        match state {
          case SelectingNotificationOption =>
            result := service.SelectedOption(u, context);
          case AlertTime =>
            result := service.ConfigureAlertTime(u, context);
          case Fallback =>
            result := FallbackConversation(u, context);
        }
        next := Advance(pos, result);
    }
  }

}
