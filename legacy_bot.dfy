/**
 * The older `WeatherConversationBuilder` and its director: the same
 * conversation, but `selected_option` stores any text before it looks the
 * text up, and `unsubscribe` soft-deletes by user id and chat id.
 */
module LegacyBot {
  import opened Wrappers
  import opened Time
  import opened TelegramSchema
  import opened Updates
  import opened Conversation
  import opened Subscription
  import TelegramRepo
  import PreferencesRepo

  /**
   * `unsubscribe` (older builder): a stored, live user is soft-deleted with
   * the message's chat id, so the row changes only when that chat id is the
   * stored one; the reply names success either way.
   */
  function LegacyUnsubscribeStep(u: Update, t: TelegramRepo.TelegramTable, today: Date)
    : (r: (UnsubscribeReply, TelegramRepo.TelegramTable))
    ensures SenderOf(u).None? || SenderOf(u).value.id !in t ==> r == (UnsubscribeIgnored, t)
    ensures SenderOf(u).Some? && SenderOf(u).value.id in t && t[SenderOf(u).value.id].isDeleted ==>
              r == (AlreadyUnsubscribed(DaysLeft(today, t[SenderOf(u).value.id].updatedAt)), t)
    ensures SenderOf(u).Some? && SenderOf(u).value.id in t && !t[SenderOf(u).value.id].isDeleted ==>
              var id := SenderOf(u).value.id;
              && r.0 == Unsubscribed
              && r.1 == TelegramRepo.SoftDeleted(t, id, u.message.value.chatId)
              && r.1.Keys == t.Keys
              && (forall k :: k in t && k != id ==> r.1[k] == t[k])
              && (r.1[id].isDeleted <==> t[id].chatId == u.message.value.chatId)
              && r.1[id].updatedAt == t[id].updatedAt
  {
    var s := SenderOf(u);
    if s.None? then (UnsubscribeIgnored, t)
    else
      var user := TelegramRepo.Lookup(t, s.value.id);
      if user.None? || user.value.updatedAt.None? then (UnsubscribeIgnored, t)
      else if user.value.isDeleted then (AlreadyUnsubscribed(DaysLeft(today, user.value.updatedAt.value)), t)
      else (Unsubscribed, TelegramRepo.SoftDeleted(t, s.value.id, u.message.value.chatId))
  }

  /** A second unsubscribe leaves the table as the first one left it. */
  lemma {:induction false} LegacyUnsubscribeTwice(u: Update, t: TelegramRepo.TelegramTable, today: Date)
    ensures var t' := LegacyUnsubscribeStep(u, t, today).1;
            LegacyUnsubscribeStep(u, t', today).1 == t'
  {
    var s := SenderOf(u);
    if s.Some? && s.value.id in t && !t[s.value.id].isDeleted {
      TelegramRepo.SoftDeleteIdempotent(t, s.value.id, u.message.value.chatId);
    }
  }

  /**
   * The older builder's reply promises 30 days as well, and its soft delete
   * keeps `updated_at` too: a subscriber of more than 30 days is removed by
   * the next purge.
   */
  lemma LegacyUnsubscribeOfOldRowPurgedAtOnce(u: Update, t: TelegramRepo.TelegramTable, today: Date, now: Timestamp)
    requires SenderOf(u).Some? && SenderOf(u).value.id in t
    requires TelegramRepo.SoftDeleteMatches(t, SenderOf(u).value.id, u.message.value.chatId)
    requires t[SenderOf(u).value.id].updatedAt < now - ThirtyDays
    ensures LegacyUnsubscribeStep(u, t, today).0 == Unsubscribed
    ensures SenderOf(u).value.id !in TelegramRepo.Purged(LegacyUnsubscribeStep(u, t, today).1, now)
  {
  }

  /**
   * The two `selected_option`s agree except on a text that is neither an
   * option nor the cancel token: there the older one stores it and raises,
   * the current one re-prompts with the session untouched.
   */
  lemma SelectionsAgree(u: Update, data: UserData)
    ensures (IncomingText(u).None? || IncomingText(u) == Some(EndConversationToken)
             || IsOptionValue(IncomingText(u).value))
            ==> LegacySelectOptionStep(u, data) == SelectOptionStep(u, data)
    ensures (IncomingText(u).Some? && IncomingText(u).value != EndConversationToken
             && !IsOptionValue(IncomingText(u).value))
            ==> && LegacySelectOptionStep(u, data) == Step(Raised, data[SelectedOptionKey := IncomingText(u).value])
                && SelectOptionStep(u, data) == Step(Goto(SelectingNotificationOption), data)
  {
  }

  /** `WeatherConversationBuilder`. */
  class WeatherConversationBuilder {
    const telegramRepo: TelegramRepo.TelegramRepository
    const preferencesRepo: PreferencesRepo.PreferencesRepository
    /** `re.match(TWENTY_FOUR_HOUR_TIME_REGEX, text)`; the pattern is not part of this model. */
    const isValidTime: string -> bool

    constructor (telegramRepo: TelegramRepo.TelegramRepository,
                 preferencesRepo: PreferencesRepo.PreferencesRepository,
                 isValidTime: string -> bool)
      ensures this.telegramRepo == telegramRepo && this.preferencesRepo == preferencesRepo
      ensures this.isValidTime == isValidTime
    {
      this.telegramRepo := telegramRepo;
      this.preferencesRepo := preferencesRepo;
      this.isValidTime := isValidTime;
    }

    /** `track_users`: creates the default preference with the `silence_*` columns. */
    method TrackUsers(u: Update, now: Timestamp)
      modifies telegramRepo, preferencesRepo
      ensures Tables(telegramRepo.table, preferencesRepo.table)
              == TrackedTables(u, now, Tables(old(telegramRepo.table), old(preferencesRepo.table)))
    {
      Subscription.TrackUsers(u, now, telegramRepo, preferencesRepo);
    }

    /** `unsubscribe`. */
    method Unsubscribe(u: Update, today: Date) returns (reply: UnsubscribeReply)
      modifies telegramRepo
      ensures (reply, telegramRepo.table) == LegacyUnsubscribeStep(u, old(telegramRepo.table), today)
    {
      if u.message.None? || u.message.value.fromUser.None? {
        return UnsubscribeIgnored;
      }
      var user := telegramRepo.GetTelegramUser(u.message.value.fromUser.value.id);
      if user.None? || user.value.updatedAt.None? {
        return UnsubscribeIgnored;
      }
      var daysLeft := DaysLeft(today, user.value.updatedAt.value);
      if user.value.isDeleted {
        return AlreadyUnsubscribed(daysLeft);
      }
      telegramRepo.SoftDeleteTelegramUser(u.message.value.fromUser.value.id, u.message.value.chatId);
      reply := Unsubscribed;
    }

    /** `subscribe`. */
    method Subscribe(u: Update) returns (reply: SubscribeReply)
      modifies telegramRepo
      ensures (reply, telegramRepo.table) == SubscribeStep(u, old(telegramRepo.table))
    {
      reply := Subscription.Subscribe(u, telegramRepo);
    }

    /** `selected_option`: the text is stored, then looked up. */
    method SelectedOption(u: Update, context: CallbackContext) returns (next: Next)
      modifies context
      ensures Step(next, context.userData) == LegacySelectOptionStep(u, old(context.userData))
    {
      var text := IncomingText(u);
      if text.None? {
        return Goto(Fallback);
      }
      if text.value == EndConversationToken {
        next := EndConversation(u, context);
        return;
      }
      context.userData := context.userData[SelectedOptionKey := text.value];
      if !IsOptionValue(text.value) {
        // The instruction map has no entry for this text: KeyError.
        return Raised;
      }
      next := Goto(AlertTime);
    }

    /** `configure_alert_time`, on the `silence_*` fields. */
    method ConfigureAlertTime(u: Update, context: CallbackContext) returns (next: Next)
      modifies context, preferencesRepo
      ensures var r := AlertTimeStepOf(u, old(context.userData), old(preferencesRepo.table), isValidTime);
              next == r.next && context.userData == r.data
              && preferencesRepo.table == ApplyWrite(old(preferencesRepo.table), r.write)
    {
      next := Conversation.ConfigureAlertTime(u, context, preferencesRepo, isValidTime);
    }
  }

  /** The older `WeatherConversationDirector`: the same states, bound to the builder. */
  class WeatherConversationDirector {
    const builder: WeatherConversationBuilder

    constructor (builder: WeatherConversationBuilder)
      ensures this.builder == builder
    {
      this.builder := builder;
    }

    /** One text message for a user whose conversation is at `pos`. */
    method HandleText(pos: Position, u: Update, context: CallbackContext) returns (next: Position)
      modifies context, builder.preferencesRepo
      ensures pos == Idle ==>
                context.userData == old(context.userData)
                && builder.preferencesRepo.table == old(builder.preferencesRepo.table)
                && next == (if IsConfigureCommand(u) then In(ConfigureStep(u)) else Idle)
      ensures pos == In(SelectingNotificationOption) ==>
                var s := LegacySelectOptionStep(u, old(context.userData));
                next == Advance(pos, s.next) && context.userData == s.data
                && builder.preferencesRepo.table == old(builder.preferencesRepo.table)
      ensures pos == In(AlertTime) ==>
                var s := AlertTimeStepOf(u, old(context.userData), old(builder.preferencesRepo.table), builder.isValidTime);
                next == Advance(pos, s.next) && context.userData == s.data
                && builder.preferencesRepo.table == ApplyWrite(old(builder.preferencesRepo.table), s.write)
      ensures pos == In(Fallback) ==>
                next == Idle && context.userData == FallbackStep(u, old(context.userData)).data
                && builder.preferencesRepo.table == old(builder.preferencesRepo.table)
    {
      match pos
      case Idle =>
        next := if IsConfigureCommand(u) then In(ConfigureStep(u)) else Idle;
      case In(state) =>
        var result: Next;
        match state {
          case SelectingNotificationOption =>
            result := builder.SelectedOption(u, context);
          case AlertTime =>
            result := builder.ConfigureAlertTime(u, context);
          case Fallback =>
            result := FallbackConversation(u, context);
        }
        next := Advance(pos, result);
    }
  }

}
