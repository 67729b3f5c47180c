/**
 * The `telegram` table of subscribers, keyed by user id, and the
 * repository whose statements change it in place.
 */
module TelegramRepo {
  import opened Wrappers
  import opened Time
  import opened TelegramSchema
  import PreferencesRepo

  /** One row of the `telegram` table (its key, `user_id`, is the map key). */
  datatype TelegramRow = TelegramRow(
    chatId: ChatId,
    username: Option<string>,
    firstName: Option<string>,
    lastName: Option<string>,
    isDeleted: bool,
    updatedAt: Timestamp)

  type TelegramTable = map<UserId, TelegramRow>

  /** `__dao_to_dto`: every column copied; `updated_at` is never null in the table. */
  function RowToUser(userId: UserId, row: TelegramRow): TelegramUser
  {
    TelegramUser(userId, row.chatId, row.isDeleted, Some(row.updatedAt), row.username, row.firstName, row.lastName)
  }

  /** `SELECT ... WHERE user_id = :user_id`, as a value. */
  function Lookup(t: TelegramTable, userId: UserId): (r: Option<TelegramUser>)
    ensures r.None? <==> userId !in t
    ensures r.Some? ==> r.value.userId == userId && r.value.chatId == t[userId].chatId
                        && r.value.isDeleted == t[userId].isDeleted
                        && r.value.updatedAt == Some(t[userId].updatedAt)
    ensures r.Some? ==> r.value.username == t[userId].username && r.value.firstName == t[userId].firstName
                        && r.value.lastName == t[userId].lastName
    ensures r.Some? ==> r.value == RowToUser(userId, t[userId])
  {
    if userId in t then Some(RowToUser(userId, t[userId])) else None
  }

  /**
   * `INSERT ... ON CONFLICT (user_id) DO UPDATE SET chat_id, username, first_name, last_name`.
   * A new row takes the column defaults: not deleted, `updated_at` = now.
   */
  function Upserted(t: TelegramTable, userId: UserId, chatId: ChatId,
                    username: Option<string>, firstName: Option<string>, lastName: Option<string>,
                    now: Timestamp): (r: TelegramTable)
    ensures r.Keys == t.Keys + {userId}
    ensures forall u :: u in t && u != userId ==> r[u] == t[u]
    ensures r[userId].chatId == chatId && r[userId].username == username
    ensures r[userId].firstName == firstName && r[userId].lastName == lastName
    ensures userId !in t ==> !r[userId].isDeleted && r[userId].updatedAt == now
    ensures userId in t ==> r[userId].isDeleted == t[userId].isDeleted
                            && r[userId].updatedAt == t[userId].updatedAt
  {
    if userId in t then
      t[userId := t[userId].(chatId := chatId, username := username, firstName := firstName, lastName := lastName)]
    else
      t[userId := TelegramRow(chatId, username, firstName, lastName, false, now)]
  }

  /** `UPDATE telegram SET is_deleted = :is_deleted WHERE user_id = :user_id`. */
  function DeletedFlagSet(t: TelegramTable, userId: UserId, isDeleted: bool): (r: TelegramTable)
    ensures r.Keys == t.Keys
    ensures forall u :: u in t && u != userId ==> r[u] == t[u]
    ensures userId in t ==> r[userId].isDeleted == isDeleted
                            && r[userId] == t[userId].(isDeleted := r[userId].isDeleted)
  {
    if userId in t then t[userId := t[userId].(isDeleted := isDeleted)] else t
  }

  /** The row the soft delete's WHERE clause selects. */
  predicate SoftDeleteMatches(t: TelegramTable, userId: UserId, chatId: ChatId)
  {
    userId in t && t[userId].chatId == chatId && !t[userId].isDeleted
  }

  /**
   * `UPDATE telegram SET is_deleted = TRUE WHERE user_id = :user_id AND chat_id = :chat_id
   * AND is_deleted = FALSE`: only a live row with both ids matching changes.
   */
  function SoftDeleted(t: TelegramTable, userId: UserId, chatId: ChatId): (r: TelegramTable)
    ensures r.Keys == t.Keys
    ensures forall u :: u in t && u != userId ==> r[u] == t[u]
    ensures userId in t ==> r[userId].isDeleted == (t[userId].isDeleted || t[userId].chatId == chatId)
    ensures userId in t ==> r[userId] == t[userId].(isDeleted := r[userId].isDeleted)
    ensures !SoftDeleteMatches(t, userId, chatId) ==> r == t
  {
    if SoftDeleteMatches(t, userId, chatId) then t[userId := t[userId].(isDeleted := true)] else t
  }

  /** A second soft delete with the same ids changes nothing. */
  lemma SoftDeleteIdempotent(t: TelegramTable, userId: UserId, chatId: ChatId)
    ensures SoftDeleted(SoftDeleted(t, userId, chatId), userId, chatId) == SoftDeleted(t, userId, chatId)
  {
  }

  /** The rows the purge removes: deleted, and last updated more than 30 days before now. */
  predicate Expired(row: TelegramRow, now: Timestamp)
  {
    row.isDeleted && row.updatedAt < now - ThirtyDays
  }

  /** `DELETE FROM telegram WHERE is_deleted = TRUE AND updated_at < now - 30 days`. */
  function Purged(t: TelegramTable, now: Timestamp): (r: TelegramTable)
    ensures forall u :: u in r <==> u in t && !Expired(t[u], now)
    ensures forall u :: u in r ==> r[u] == t[u]
  {
    map u | u in t && !Expired(t[u], now) :: t[u]
  }

  /** `ON DELETE CASCADE`: the preferences of the users the purge removes go with them. */
  function Cascaded(prefs: PreferencesRepo.PreferenceTable, t: TelegramTable, now: Timestamp)
    : (r: PreferencesRepo.PreferenceTable)
    ensures forall k :: k in r <==> k in prefs && !(k in t && Expired(t[k], now))
    ensures forall k :: k in r ==> r[k] == prefs[k]
  {
    map k | k in prefs && !(k in t && Expired(t[k], now)) :: prefs[k]
  }

  /** Every preference belongs to a subscriber (the foreign key of `preferences.id`). */
  predicate ForeignKeysHold(t: TelegramTable, prefs: PreferencesRepo.PreferenceTable)
  {
    prefs.Keys <= t.Keys
  }

  /** The cascading purge keeps the foreign key. */
  lemma PurgeKeepsForeignKeys(t: TelegramTable, prefs: PreferencesRepo.PreferenceTable, now: Timestamp)
    requires ForeignKeysHold(t, prefs)
    ensures ForeignKeysHold(Purged(t, now), Cascaded(prefs, t, now))
  {
  }

  /** The purge keeps every live row, whatever its age. */
  lemma PurgeKeepsLiveRows(t: TelegramTable, now: Timestamp, userId: UserId)
    requires userId in t && !t[userId].isDeleted
    ensures userId in Purged(t, now) && Purged(t, now)[userId] == t[userId]
  {
  }

  /**
   * A repeated soft delete does not move the row's purge time: nothing
   * writes `updated_at` after the insert, so purge eligibility is the same
   * before and after it.
   */
  lemma SoftDeleteKeepsPurgeClock(t: TelegramTable, userId: UserId, chatId: ChatId, now: Timestamp)
    requires userId in t && t[userId].isDeleted
    ensures Purged(SoftDeleted(t, userId, chatId), now) == Purged(t, now)
  {
  }

  /**
   * The flag flip the "30 days left" reply presumes: it also stamps
   * `updated_at` with the time of the flip. No statement of the repository
   * does this; it is the corrected form of `DeletedFlagSet`.
   */
  function DeletedFlagStamped(t: TelegramTable, userId: UserId, isDeleted: bool, now: Timestamp)
    : (r: TelegramTable)
    ensures r.Keys == t.Keys
    ensures forall u :: u in t && u != userId ==> r[u] == t[u]
    ensures userId in t ==> r[userId].isDeleted == isDeleted && r[userId].updatedAt == now
                            && r[userId] == t[userId].(isDeleted := isDeleted, updatedAt := now)
  {
    if userId in t then t[userId := t[userId].(isDeleted := isDeleted, updatedAt := now)] else t
  }

  /**
   * A row soft-deleted at `now0` with the stamping flip survives exactly
   * the purges run no more than 30 days later.
   */
  lemma StampedDeleteSurvivesWindow(t: TelegramTable, userId: UserId, now0: Timestamp, now: Timestamp)
    requires userId in t
    ensures userId in Purged(DeletedFlagStamped(t, userId, true, now0), now) <==> now <= now0 + ThirtyDays
  {
  }

  /**
   * The soft delete with the same WHERE clause, also stamping `updated_at`
   * with the time of the flip: the corrected form of `SoftDeleted`.
   */
  function SoftDeletedStamped(t: TelegramTable, userId: UserId, chatId: ChatId, now: Timestamp): (r: TelegramTable)
    ensures r.Keys == t.Keys
    ensures forall u :: u in t && u != userId ==> r[u] == t[u]
    ensures SoftDeleteMatches(t, userId, chatId) ==>
              r[userId] == t[userId].(isDeleted := true, updatedAt := now)
    ensures !SoftDeleteMatches(t, userId, chatId) ==> r == t
  {
    if SoftDeleteMatches(t, userId, chatId) then t[userId := t[userId].(isDeleted := true, updatedAt := now)] else t
  }

  /**
   * A live row soft-deleted from its stored chat at `now0` with the
   * stamping statement survives exactly the purges of the next 30 days.
   */
  lemma StampedSoftDeleteSurvivesWindow(t: TelegramTable, userId: UserId, chatId: ChatId,
                                        now0: Timestamp, now: Timestamp)
    requires SoftDeleteMatches(t, userId, chatId)
    ensures userId in Purged(SoftDeletedStamped(t, userId, chatId, now0), now) <==> now <= now0 + ThirtyDays
  {
  }

  /** The subscriber repository; `table` is the `telegram` table. */
  class TelegramRepository {
    var table: TelegramTable

    constructor (table: TelegramTable)
      ensures this.table == table
    {
      this.table := table;
    }

    /** `get_telegram_user`: none when no row has that user id. */
    method GetTelegramUser(userId: UserId) returns (user: Option<TelegramUser>)
      ensures user.None? <==> userId !in table
      ensures user.Some? ==> user.value == RowToUser(userId, table[userId])
    {
      if userId in table {
        user := Some(RowToUser(userId, table[userId]));
      } else {
        user := None;
      }
    }

    /** `upsert_telegram_user`. */
    method UpsertTelegramUser(userId: UserId, chatId: ChatId, username: Option<string>,
                              firstName: Option<string>, lastName: Option<string>, now: Timestamp)
      modifies this
      ensures table == Upserted(old(table), userId, chatId, username, firstName, lastName, now)
    {
      if userId in table {
        var row := table[userId];
        table := table[userId := row.(chatId := chatId, username := username, firstName := firstName, lastName := lastName)];
      } else {
        table := table[userId := TelegramRow(chatId, username, firstName, lastName, false, now)];
      }
    }

    /** `update_is_deleted_user`: sets the flag on that user's row; `updated_at` is not touched. */
    method UpdateIsDeletedUser(isDeleted: bool, userId: UserId)
      modifies this
      ensures table == DeletedFlagSet(old(table), userId, isDeleted)
    {
      if userId in table {
        table := table[userId := table[userId].(isDeleted := isDeleted)];
      }
    }

    /** `soft_delete_telegram_user`. */
    method SoftDeleteTelegramUser(userId: UserId, chatId: ChatId)
      modifies this
      ensures table == SoftDeleted(old(table), userId, chatId)
    {
      if userId in table && table[userId].chatId == chatId && !table[userId].isDeleted {
        table := table[userId := table[userId].(isDeleted := true)];
      }
    }

    /**
     * `hard_delete_telegram_users`: removes exactly the expired rows; the
     * database cascades the removal to their preferences.
     */
    method HardDeleteTelegramUsers(now: Timestamp, preferences: PreferencesRepo.PreferencesRepository)
      modifies this, preferences
      ensures table == Purged(old(table), now)
      ensures preferences.table == Cascaded(old(preferences.table), old(table), now)
    {
      preferences.table := map k | k in preferences.table && !(k in table && Expired(table[k], now)) :: preferences.table[k];
      table := map u | u in table && !Expired(table[u], now) :: table[u];
    }
  }

}
