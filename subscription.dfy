/**
 * The subscriber-side handlers: tracking every sender, resubscribing, and
 * the days-left arithmetic of unsubscribing. Both the current service and
 * the older builder use these.
 */
module Subscription {
  import opened Wrappers
  import opened Time
  import opened TelegramSchema
  import opened Updates
  import TelegramRepo
  import PreferencesRepo

  /** The two tables `track_users` leaves behind. */
  datatype Tables = Tables(users: TelegramRepo.TelegramTable, prefs: PreferencesRepo.PreferenceTable)

  /**
   * `track_users`: a human sender's row is upserted and, if they have no
   * preference yet, the 07:00/22:00 one is created; bots and updates
   * without a sender change nothing.
   */
  function TrackedTables(u: Update, now: Timestamp, t: Tables): (r: Tables)
    ensures SenderOf(u).None? || SenderOf(u).value.isBot ==> r == t
    ensures SenderOf(u).Some? && !SenderOf(u).value.isBot ==>
              var s := SenderOf(u).value;
              && r.users == TelegramRepo.Upserted(t.users, s.id, u.message.value.chatId,
                                                  s.username, s.firstName, s.lastName, now)
              && r.prefs.Keys == t.prefs.Keys + {s.id}
              && (forall k :: k in t.prefs ==> r.prefs[k] == t.prefs[k])
              && (s.id !in t.prefs ==> r.prefs[s.id] == PreferencesRepo.PreferenceRow(DefaultStartTime, DefaultEndTime))
    ensures TelegramRepo.ForeignKeysHold(t.users, t.prefs) ==> TelegramRepo.ForeignKeysHold(r.users, r.prefs)
  {
    var s := SenderOf(u);
    if s.None? || s.value.isBot then t
    else
      var users := TelegramRepo.Upserted(t.users, s.value.id, u.message.value.chatId,
                                         s.value.username, s.value.firstName, s.value.lastName, now);
      var prefs := if s.value.id in t.prefs then t.prefs
                   else PreferencesRepo.Inserted(t.prefs, s.value.id, DefaultStartTime, DefaultEndTime).value;
      Tables(users, prefs)
  }

  /** What `subscribe` replies. */
  datatype SubscribeReply = SubscribeIgnored | AlreadySubscribed | Resubscribed

  /**
   * `subscribe`: only a stored, deleted user is flipped back to live; a
   * missing or live user only gets the "already subscribed" reply.
   */
  function SubscribeStep(u: Update, t: TelegramRepo.TelegramTable): (r: (SubscribeReply, TelegramRepo.TelegramTable))
    ensures SenderOf(u).None? ==> r == (SubscribeIgnored, t)
    ensures SenderOf(u).Some? ==>
              var id := SenderOf(u).value.id;
              if id in t && t[id].isDeleted
              then r.0 == Resubscribed && r.1 == TelegramRepo.DeletedFlagSet(t, id, false) && !r.1[id].isDeleted
              else r == (AlreadySubscribed, t)
  {
    var s := SenderOf(u);
    if s.None? then (SubscribeIgnored, t)
    else
      var user := TelegramRepo.Lookup(t, s.value.id);
      if user.None? || !user.value.isDeleted then (AlreadySubscribed, t)
      else (Resubscribed, TelegramRepo.DeletedFlagSet(t, user.value.userId, false))
  }

  /**
   * `abs(days_left)` with `days_left = (today - updated_at.date()).days - 30`:
   * inside the 30-day window, the days that remain of it.
   */
  function DaysLeft(today: Date, updatedAt: Timestamp): (r: nat)
    ensures today - DateOf(updatedAt) <= 30 ==> r + (today - DateOf(updatedAt)) == 30
    ensures today - DateOf(updatedAt) > 30 ==> r == (today - DateOf(updatedAt)) - 30
  {
    var daysLeft := (today - DateOf(updatedAt)) - 30;
    if daysLeft < 0 then -daysLeft else daysLeft
  }

  /** What `unsubscribe` replies. */
  datatype UnsubscribeReply = UnsubscribeIgnored | AlreadyUnsubscribed(daysLeft: nat) | Unsubscribed

  /** `track_users`, over the two repositories. */
  method TrackUsers(u: Update, now: Timestamp,
                    users: TelegramRepo.TelegramRepository, prefs: PreferencesRepo.PreferencesRepository)
    modifies users, prefs
    ensures Tables(users.table, prefs.table) == TrackedTables(u, now, Tables(old(users.table), old(prefs.table)))
  {
    if u.message.None? || u.message.value.fromUser.None? {
      return;
    }
    var sender := u.message.value.fromUser.value;
    if sender.isBot {
      return;
    }
    users.UpsertTelegramUser(sender.id, u.message.value.chatId, sender.username, sender.firstName, sender.lastName, now);
    var pref := prefs.GetUserPreference(sender.id);
    if pref.None? {
      // The current service passes `alert_start_time` / `alert_end_time` here
      // (weather.py:113-118) while `create_preferences` takes `silence_*`;
      // this is the intended creation, the one the older builder makes.
      var ok := prefs.CreatePreferences(sender.id, DefaultStartTime, DefaultEndTime);
    }
  }

  /** `subscribe`, over the subscriber repository. */
  method Subscribe(u: Update, users: TelegramRepo.TelegramRepository) returns (reply: SubscribeReply)
    modifies users
    ensures (reply, users.table) == SubscribeStep(u, old(users.table))
  {
    if u.message.None? || u.message.value.fromUser.None? {
      return SubscribeIgnored;
    }
    var user := users.GetTelegramUser(u.message.value.fromUser.value.id);
    if user.None? || !user.value.isDeleted {
      return AlreadySubscribed;
    }
    // The current service also passes `chat_id` (weather.py:186-190), which
    // `update_is_deleted_user` does not take; this is the intended call.
    users.UpdateIsDeletedUser(false, user.value.userId);
    reply := Resubscribed;
  }

}
