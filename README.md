# Singapore weather-alert bot: a Dafny model

This project models the core of a Telegram bot that alerts Singapore subscribers when the 24-hour forecast turns to rain. It has three parts.

- **The dispatch cycle** (`WeatherBot.WeatherService.SendWeatherUpdateToUsers`). It takes the fetched forecast. The first record counts as rain when its condition is one of the ten values of `rain_forecast_list`. An in-memory marker `last_updated` stops the same forecast from going out twice. The marker moves before the fan-out. The fan-out sends one message to each listed subscriber's chat, and a send is modelled as the chat id appended to `outbox`.
- **The preference-configuration conversation.** It moves between the states SELECTING_NOTIFICATION_OPTION, ALERT_TIME and FALLBACK, and ends on END. The session is `context.user_data` with its `"selected_option"` key. The cancel token is "See ya!". The conversation appears twice: in the current `WeatherService` (module `WeatherBot`) and in the older `WeatherConversationBuilder` (module `LegacyBot`). The pure decisions live in module `Conversation`:
  - `SelectOptionStep` and `LegacySelectOptionStep`;
  - `AlertTimeStepOf`;
  - `FallbackStep`;
  - `Advance`, which applies a handler's result the way the conversation handler does. A handler that raises leaves the conversation where it was.

  The handler methods change a `CallbackContext.userData` map and the preference table in place. Each handler method is proved equal to its decision function.
- **The two stores.** The `telegram` table is keyed by user id and has an `is_deleted` flag and `updated_at`. The `preferences` table holds the silence window, keyed by the same id, with a cascading foreign key:
  - `TelegramRepo.TelegramRepository` and `PreferencesRepo.PreferencesRepository` are classes whose `map` field each statement reassigns;
  - pure functions `Upserted`, `DeletedFlagSet`, `SoftDeleted`, `Purged`, `Cascaded`, `Inserted` and `Updated` say what each statement does to the table.

Other modules:
- `Subscription`: `track_users`, `subscribe` and the days-left arithmetic of `unsubscribe`, which both services share.
- `WeatherSchema`: the forecast enumeration and the record shape.
- `AsWritten`: four handlers of the current service exactly as written (see Findings).

Times are integers of seconds and dates are day numbers. The clock is never read: `now` and `today` are parameters. The 24-hour time pattern lives in `src/core/regex`, which is not part of this model, so the model takes it as a `string -> bool` value (`isValidTime`). The subscriber listing `list_subscribed_users_within_timeframe` is also not part of this model; it is an input sequence.

## Model

| member | source | states |
|---|---|---|
| Time.DateOf | backend/src/microservices/weather_bot/services/weather.py:147 | `.date()` of a timestamp: the day whose 86400-second span contains it |
| WeatherSchema.FromValue | backend/src/schemas/weather.py:7-30 | looking a text up among the enum's values returns a member only when that member's value is the text |
| WeatherSchema.FromValueOfValue | backend/src/schemas/weather.py:7-30 | every one of the 23 members is found again from its own value |
| WeatherSchema.ValueInjective | backend/src/schemas/weather.py:7-30 | the 23 values are pairwise distinct, so the text-to-member map is injective |
| WeatherSchema.RainListExactly | backend/src/schemas/weather.py:33-44 | `rain_forecast_list` has 10 distinct members; a condition is in it iff it is Light Rain … Heavy Thundery Showers with Gusty Winds; no fair, cloudy, hazy, windy, mist or fog value is in it |
| WeatherSchema.ExampleRecordIsRainLike | backend/src/schemas/weather.py:149-154 | "Thundery Showers", the example record's condition, parses to that record's member and is rain-like |
| Updates.SenderOf | backend/src/microservices/weather_bot/services/weather.py:92 | the sender is present iff the update has a message and the message has a sender, and is then that message's sender |
| Updates.IncomingText | backend/src/microservices/weather_bot/services/weather.py:236-241 | a conversation handler gets text iff there are a message, a sender and a non-empty text |
| PreferencesRepo.Lookup | backend/src/repository/preferences.py:14-30 | none iff no row has that id, else the preference that row describes: that id and the row's start and end |
| PreferencesRepo.Inserted | backend/src/repository/preferences.py:32-53 | the insert fails iff the id is taken; otherwise exactly one new row with the given start and end, all other rows kept |
| PreferencesRepo.Updated | backend/src/repository/preferences.py:55-76 | both columns of the row with that id are set, every other row is unchanged, and an absent id changes nothing |
| PreferencesRepo.LookupAfterUpdate | backend/src/repository/preferences.py:14-30 | reading back after an update gives the written start and end, or none when there was no row |
| PreferencesRepo.LookupAfterInsert | backend/src/repository/preferences.py:32-53 | an insert of a fresh id succeeds and reads back as the inserted values |
| PreferencesRepo.PreferencesRepository.GetUserPreference | backend/src/repository/preferences.py:21-30 | none iff no preference has that id, else its DTO; the table is untouched |
| PreferencesRepo.PreferencesRepository.CreatePreferences | backend/src/repository/preferences.py:32-53 | succeeds iff the id is new, and then the table is `Inserted`'s |
| PreferencesRepo.PreferencesRepository.UpdatePreferences | backend/src/repository/preferences.py:55-76 | the new table is `Updated` of the old one |
| TelegramRepo.Lookup | backend/src/repository/telegram.py:14-32 | none iff no row has that user id, else the user that row describes: its chat id, username, first and last name, flag and `updated_at` |
| TelegramRepo.Upserted | backend/src/repository/telegram.py:34-60 | a new id gets a live row stamped `now`; an existing id gets new chat id and names but keeps `is_deleted` and `updated_at`; other rows unchanged |
| TelegramRepo.DeletedFlagSet | backend/src/repository/telegram.py:62-80 | only that user's `is_deleted` changes; every other column and row is unchanged, and `updated_at` is not refreshed |
| TelegramRepo.SoftDeleted | backend/src/repository/telegram.py:82-104 | a row is flagged only when both ids match and it is live; nothing else changes |
| TelegramRepo.SoftDeleteIdempotent | backend/src/repository/telegram.py:89-104 | a second soft delete with the same ids changes nothing |
| TelegramRepo.SoftDeleteKeepsPurgeClock | backend/src/repository/telegram.py:89-93 | soft-deleting an already-deleted row does not change which rows the purge removes |
| TelegramRepo.DeletedFlagStamped | backend/src/repository/telegram.py:62-80 | corrected flag flip (see Findings): only that user's row changes, its flag set and `updated_at` stamped with the flip's time |
| TelegramRepo.StampedDeleteSurvivesWindow | backend/src/repository/telegram.py:107-123 | a row soft-deleted at `now0` by the stamping flip is kept by a purge at `now` iff `now` is at most 30 days after `now0` |
| TelegramRepo.SoftDeletedStamped | backend/src/repository/telegram.py:83-105 | corrected soft delete (see Findings): the same WHERE clause, and the matching row is flagged with `updated_at` stamped; otherwise nothing changes |
| TelegramRepo.StampedSoftDeleteSurvivesWindow | backend/src/repository/telegram.py:107-123 | a live row soft-deleted from its stored chat at `now0` by the stamping statement is kept by a purge at `now` iff `now` is at most 30 days after `now0` |
| TelegramRepo.Purged | backend/src/repository/telegram.py:106-123 | a row remains iff it is not (deleted and last updated more than 30 days before now); remaining rows are unchanged |
| TelegramRepo.PurgeKeepsLiveRows | backend/src/repository/telegram.py:109-113 | a live row survives the purge whatever its age |
| TelegramRepo.Cascaded | backend/src/models/preferences.py:8-11 | a preference remains iff its user is not purged; remaining preferences are unchanged |
| TelegramRepo.PurgeKeepsForeignKeys | backend/src/models/preferences.py:8-11 | if every preference has a user before the purge and its cascade, it still has one after |
| TelegramRepo.TelegramRepository.GetTelegramUser | backend/src/repository/telegram.py:25-32 | none iff no row has that user id, else its DTO; the table is untouched |
| TelegramRepo.TelegramRepository.UpsertTelegramUser | backend/src/repository/telegram.py:34-60 | the new table is `Upserted` of the old one |
| TelegramRepo.TelegramRepository.UpdateIsDeletedUser | backend/src/repository/telegram.py:62-80 | the new table is `DeletedFlagSet` of the old one |
| TelegramRepo.TelegramRepository.SoftDeleteTelegramUser | backend/src/repository/telegram.py:82-104 | the new table is `SoftDeleted` of the old one |
| TelegramRepo.TelegramRepository.HardDeleteTelegramUsers | backend/src/repository/telegram.py:106-123 | the user table becomes `Purged` and the preference table `Cascaded` |
| Conversation.TokenIsNoOption | backend/src/schemas/telegram.py:16-25 | "See ya!" is neither option value |
| Conversation.EndedSession | backend/src/microservices/weather_bot/services/weather.py:71-86 | with a message, no `selected_option` is left afterwards; the session is either kept or emptied, and is kept when it has no selected option or when there is no message |
| Conversation.ConfigureStep | backend/src/microservices/weather_bot/services/weather.py:200-227 | `/configure` goes to FALLBACK iff there is no sender, otherwise to SELECTING_NOTIFICATION_OPTION, never to ALERT_TIME |
| Conversation.SelectOptionStep | backend/src/microservices/weather_bot/services/weather.py:229-279 | no text goes to FALLBACK; "See ya!" ends and drops the option; a non-option text re-prompts with the session unchanged; the move to ALERT_TIME happens iff the text is an option, and it stores that option; the handler never raises |
| Conversation.LegacySelectOptionStep | backend/src/microservices/bot/services/telegram.py:232-269 | any text other than the cancel token is stored first; the step goes to ALERT_TIME for an option value and raises (state kept) otherwise |
| Conversation.SelectedOptionText | backend/src/microservices/weather_bot/services/weather.py:316-318 | an empty session reads as "{}"; a non-empty session gives its option, and raises iff the key is missing |
| Conversation.WithSelectedField | backend/src/microservices/bot/services/telegram.py:305-313 | only the field the selected option names is overwritten; other text leaves the preference as it was |
| Conversation.AlertTimeStepOf | backend/src/microservices/weather_bot/services/weather.py:281-334 | no text goes to FALLBACK; "See ya!" ends with nothing written; a time failing the pattern stays in ALERT_TIME with nothing written; a missing preference goes to FALLBACK; a session without a selected option raises and keeps the session; a write happens iff the time is valid, the preference exists and the option can be read; the write holds the selected field only; every END leaves the session `EndedSession` gives |
| Conversation.ApplyWrite | backend/src/microservices/weather_bot/services/weather.py:325-327 | no write leaves the table; a write keeps the same ids and every other row, gives the written id the written start and end, and changes nothing when that id has no row |
| Conversation.AlertTimeWritesOnlySelectedField | backend/src/microservices/bot/services/telegram.py:305-317 | after a confirmed time, only the sender's row changes, and only in the selected field |
| Conversation.ConfigureStartTimeFlow | backend/src/microservices/weather_bot/services/weather.py:413-433 | `/configure`, the start-time option and a valid time end the conversation with an empty session and only the sender's start time changed |
| Conversation.FallbackStep | backend/src/microservices/weather_bot/services/weather.py:336-343 | the fallback always ends; with a message, the selected option is dropped |
| Conversation.EndConversation | backend/src/microservices/weather_bot/services/weather.py:71-86 | returns END and leaves the session `EndedSession` says |
| Conversation.ConfigureAlertTime | backend/src/microservices/weather_bot/services/weather.py:281-334 | the result, the session and the preference table are those of `AlertTimeStepOf` and `ApplyWrite` |
| Conversation.FallbackConversation | backend/src/microservices/weather_bot/services/weather.py:336-343 | the result and session are `FallbackStep`'s |
| Subscription.TrackedTables | backend/src/microservices/weather_bot/services/weather.py:88-118 | bots and sender-less updates change nothing; a human is upserted and given 07:00/22:00 only if they have no preference; existing preferences are kept; the foreign key is preserved |
| Subscription.SubscribeStep | backend/src/microservices/weather_bot/services/weather.py:171-196 | only a stored, deleted user is flipped back to live; for a missing or live user the reply is "already subscribed" and nothing changes |
| Subscription.DaysLeft | backend/src/microservices/weather_bot/services/weather.py:147-153 | `abs(elapsed days - 30)`: within 30 days it plus the elapsed days is 30, after that it is the days past 30 |
| Subscription.TrackUsers | backend/src/microservices/weather_bot/services/weather.py:88-118 | the two tables become `TrackedTables` of the old ones |
| Subscription.Subscribe | backend/src/microservices/weather_bot/services/weather.py:171-196 | the reply and the new table are `SubscribeStep`'s |
| WeatherBot.IsGoingToRain | backend/src/microservices/weather_bot/services/weather.py:351-352 | true iff the first record's condition is one of the ten rain values |
| WeatherBot.MarkerAfter | backend/src/microservices/weather_bot/services/weather.py:383-390 | a dispatching cycle moves the marker to the record's update time, any other leaves it, and a repeat on the same record never dispatches |
| WeatherBot.SameTimestampSuppressed | backend/src/microservices/weather_bot/services/weather.py:383-390 | once a record has gone out, a record with the same update time does not go out next |
| WeatherBot.DispatchScenario | backend/src/microservices/weather_bot/services/weather.py:364-401 | Heavy Rain at T1 goes out, the same forecast again does not, Fair at T2 does not and keeps T1, Thundery Showers at T3 goes out |
| WeatherBot.SendList | backend/src/microservices/weather_bot/services/weather.py:392-401 | one send per listed subscriber, the i-th to the i-th subscriber's chat id |
| WeatherBot.UnsubscribeStep | backend/src/microservices/weather_bot/services/weather.py:137-169 | a missing user is ignored; an already-deleted user only hears the days left and nothing changes; a live user is flagged deleted with `updated_at` kept |
| WeatherBot.UnsubscribeOfOldRowPurgedAtOnce | backend/src/microservices/weather_bot/services/weather.py:158-169 | a live subscriber stored more than 30 days before `now` is replied "Unsubscribed" (30 days left) yet is gone after a purge at `now` |
| WeatherBot.UnsubscribeStepStamped | backend/src/microservices/weather_bot/services/weather.py:137-169 | corrected handler (see Findings): the same replies as `UnsubscribeStep`; unsubscribing flips the flag with `updated_at` stamped, anything else leaves the table |
| WeatherBot.StampedUnsubscribeKeepsThirtyDays | backend/src/microservices/weather_bot/services/weather.py:163-169 | with the corrected handler, a live subscriber unsubscribed at `now0` survives a purge at `now` iff `now <= now0` + 30 days, and a repeat at once replies 30 days left |
| WeatherBot.WeatherService.constructor | backend/src/microservices/weather_bot/services/weather.py:47-53 | the marker starts empty and nothing has been sent |
| WeatherBot.WeatherService.UpdateLastUpdated | backend/src/microservices/weather_bot/services/weather.py:354-355 | the marker becomes the given time; nothing is sent |
| WeatherBot.WeatherService.SendWeatherUpdateToUsers | backend/src/microservices/weather_bot/services/weather.py:364-401 | no forecast or no record: nothing changes; otherwise it dispatches iff `ShouldDispatch`, the marker becomes `MarkerAfter`, and the outbox grows by exactly one chat id per listed subscriber in order, or by nothing |
| WeatherBot.WeatherService.TrackUsers | backend/src/microservices/weather_bot/services/weather.py:88-118 | the tables become `TrackedTables` of the old ones |
| WeatherBot.WeatherService.Unsubscribe | backend/src/microservices/weather_bot/services/weather.py:137-169 | the reply and the new table are `UnsubscribeStep`'s |
| WeatherBot.WeatherService.Subscribe | backend/src/microservices/weather_bot/services/weather.py:171-196 | the reply and the new table are `SubscribeStep`'s |
| WeatherBot.WeatherService.SelectedOption | backend/src/microservices/weather_bot/services/weather.py:229-279 | the result and the session are `SelectOptionStep`'s |
| WeatherBot.WeatherService.ConfigureAlertTime | backend/src/microservices/weather_bot/services/weather.py:281-334 | the result, session and preference table are `AlertTimeStepOf`'s and `ApplyWrite`'s |
| WeatherBot.WeatherConversationDirector.HandleText | backend/src/microservices/weather_bot/services/weather.py:413-447 | idle: only `/configure` enters; in each state the state's handler decides and `Advance` applies it; "See ya!" in a handler state ends the conversation, drops the option and writes nothing |
| LegacyBot.LegacyUnsubscribeStep | backend/src/microservices/bot/services/telegram.py:153-184 | a missing user is ignored; an already-deleted user only hears the days left and is not soft-deleted again; a live user's table is `SoftDeleted` with the message's chat id: the row is flagged iff that chat id is the stored one, and no other column or row changes |
| LegacyBot.LegacyUnsubscribeTwice | backend/src/microservices/bot/services/telegram.py:153-184 | a second unsubscribe leaves the table as the first one left it |
| LegacyBot.LegacyUnsubscribeOfOldRowPurgedAtOnce | backend/src/microservices/bot/services/telegram.py:174-184 | a live subscriber stored more than 30 days before `now`, unsubscribing from the stored chat, is replied "Unsubscribed" yet is gone after a purge at `now` |
| LegacyBot.SelectionsAgree | backend/src/microservices/bot/services/telegram.py:232-269 | the older and current `selected_option` agree except on a non-option text, where the older stores it and raises while the current re-prompts |
| LegacyBot.WeatherConversationBuilder.TrackUsers | backend/src/microservices/bot/services/telegram.py:106-136 | the tables become `TrackedTables` of the old ones |
| LegacyBot.WeatherConversationBuilder.Unsubscribe | backend/src/microservices/bot/services/telegram.py:153-184 | the reply and the new table are `LegacyUnsubscribeStep`'s |
| LegacyBot.WeatherConversationBuilder.Subscribe | backend/src/microservices/bot/services/telegram.py:186-210 | the reply and the new table are `SubscribeStep`'s |
| LegacyBot.WeatherConversationBuilder.SelectedOption | backend/src/microservices/bot/services/telegram.py:232-269 | the result and the session are `LegacySelectOptionStep`'s |
| LegacyBot.WeatherConversationBuilder.ConfigureAlertTime | backend/src/microservices/bot/services/telegram.py:271-324 | the result, session and preference table are `AlertTimeStepOf`'s and `ApplyWrite`'s |
| LegacyBot.WeatherConversationDirector.HandleText | backend/src/microservices/bot/services/telegram.py:345-380 | the same routing as the current director, with the older `selected_option` |
| AsWritten.TrackedTablesAsWritten | backend/src/microservices/weather_bot/services/weather.py:113-118 | as written, a human sender without a preference leaves both tables as they were |
| AsWritten.TrackAsWrittenDropsNewSender | backend/src/microservices/weather_bot/services/weather.py:113-118 | a first-time sender is never stored as written, but is stored with 07:00/22:00 by the intended handler |
| AsWritten.UnsubscribeStepAsWritten | backend/src/microservices/weather_bot/services/weather.py:158-162 | as written, unsubscribing a live user raises and the table is unchanged |
| AsWritten.UnsubscribeAsWrittenKeepsLiveUser | backend/src/microservices/weather_bot/services/weather.py:158-162 | as written a live user stays live; the intended handler flags them deleted |
| AsWritten.SubscribeStepAsWritten | backend/src/microservices/weather_bot/services/weather.py:186-190 | as written, resubscribing a deleted user raises and the table is unchanged |
| AsWritten.SubscribeAsWrittenKeepsDeletedUser | backend/src/microservices/weather_bot/services/weather.py:186-190 | as written a deleted user stays deleted; the intended handler restores them |
| AsWritten.AlertTimeStepAsWritten | backend/src/microservices/weather_bot/services/weather.py:315-327 | as written, a confirmed time for a selected option raises with nothing written; otherwise it is the intended step |
| AsWritten.AlertTimeAsWrittenNeverWrites | backend/src/microservices/weather_bot/services/weather.py:320-323 | a valid start time for the start-time option writes nothing and stays in ALERT_TIME as written, while the intended step writes it and ends |

## Findings

| source | as written | input that shows it | evidently intended | confidence | as-written member | corrected member |
|---|---|---|---|---|---|---|
| backend/src/microservices/weather_bot/services/weather.py:113-118 | `create_preferences` is called with `alert_start_time`/`alert_end_time`; it takes `silence_start_time`/`silence_end_time` (backend/src/repository/preferences.py:32-38) and raises `TypeError`, which rolls back the whole `track_users` transaction, the upsert included | a first message from a human sender with no stored row and no preference | store the sender and give them the 07:00/22:00 window, as the older builder does | high, not executed | AsWritten.TrackAsWrittenDropsNewSender | Subscription.TrackedTables |
| backend/src/microservices/weather_bot/services/weather.py:158-162 | `update_is_deleted_user` is called with a `chat_id` keyword it does not take (backend/src/repository/telegram.py:63-68), so it raises before the UPDATE runs | `/unsubscribe` from a stored, live user | flag the user deleted | high, not executed | AsWritten.UnsubscribeAsWrittenKeepsLiveUser | WeatherBot.UnsubscribeStep |
| backend/src/microservices/weather_bot/services/weather.py:186-190 | the same extra `chat_id` keyword on the resubscribe call | `/subscribe` from a stored, deleted user | flag the user live again, as the older builder does | high, not executed | AsWritten.SubscribeAsWrittenKeepsDeletedUser | Subscription.SubscribeStep |
| backend/src/microservices/weather_bot/services/weather.py:320-323 | `alert_start_time`/`alert_end_time` keys are added to a dict dumped from a schema with `silence_*` keys (backend/src/schemas/preferences.py:5-8), and `update_preferences(**params)` gets a keyword it does not take | a valid time after choosing "Start time of alerts", for a user with a preference | overwrite `silence_start_time` (or `silence_end_time`) and end, as the older builder does | high, not executed | AsWritten.AlertTimeAsWrittenNeverWrites | Conversation.AlertTimeStepOf |
| backend/src/microservices/weather_bot/services/weather.py:158-169 | latent behind the `chat_id` keyword of lines 158-162, which raises first: once that keyword is dropped, the reply promises 30 days before the data is deleted, but the flag flip keeps `updated_at` at the insert time (backend/src/models/telegram.py:19-23), and the purge compares that time with now minus 30 days (backend/src/repository/telegram.py:107-123) | with the keyword of lines 158-162 removed, `/unsubscribe` from a live subscriber stored more than 30 days ago, followed by the purge | the flip stamps `updated_at`, so the row is kept for 30 days | high, not executed | WeatherBot.UnsubscribeOfOldRowPurgedAtOnce | WeatherBot.StampedUnsubscribeKeepsThirtyDays |
| backend/src/microservices/bot/services/telegram.py:174-184 | the older builder makes the same promise over `soft_delete_telegram_user`, which keeps `updated_at` too | `/unsubscribe` from the stored chat by a live subscriber stored more than 30 days ago, followed by the purge | the soft delete stamps `updated_at`, so the row is kept for 30 days | high, not executed | LegacyBot.LegacyUnsubscribeOfOldRowPurgedAtOnce | TelegramRepo.StampedSoftDeleteSurvivesWindow |

## Left out

- Telegram transport is not modelled: replies, keyboards, `set_my_commands`, `start_conversation`'s greeting and all message text. A send is only a chat id appended to `outbox`.
- The fan-out's `asyncio.gather`, `block=False` handlers and handler groups are concurrency; the fan-out is a sequential loop (`SendList`).
- The SQLAlchemy engine and sessions and the `async_transaction` wrapper are plumbing. Each repository call applies its table update entirely or, where it raises, not at all.
- HTTP fetching, JSON parsing and the forecast connector are not modelled; the cycle receives the parsed forecast, or none.
- The regex in `src/core/regex` is not part of this model; it is the `isValidTime` parameter. `toddmmYYYYHHMM` only formats message text.
- `list_subscribed_users_within_timeframe` is not part of this model; its result is the `users` input of the cycle, and no alert-window filtering is invented.
- The scheduler, configuration, bootstrap and the abstract builder and director base classes hold no logic that is modelled.
- WeatherBot.WeatherService.constructor: the model builds the intended object. As written, backend/src/microservices/weather_bot/services/weather.py:48 calls `super().__init__()` with no arguments, but the base `__init__` (backend/src/microservices/weather_bot/utils/builder.py:20-30) requires `application`. So `WeatherService()` at backend/src/microservices/weather_bot/main.py:22 raises `TypeError` and the current service never starts. The model's constructor takes the repositories the base would supply by default.
- WeatherBot.WeatherService.SendWeatherUpdateToUsers: `self.weather_connector` (backend/src/microservices/weather_bot/services/weather.py:349) is never assigned, so the fetch as written raises `AttributeError`. The model receives the forecast as a parameter, as if a connector were set.
- WeatherBot.WeatherConversationDirector.HandleText: the entry test is an exact `/configure` text; command suffixes such as `/configure@bot` or trailing arguments are not modelled, and neither are non-text updates.
- Conversation.SelectOptionStep: `context.user_data` is always a dictionary here; the case where it is `None` (which the current handler tolerates) is not modelled.
- Subscription.TrackedTables: the foreign key on `preferences.id` is stated and preserved as a property, but an insert for an unknown user is never attempted by the model, so its rejection is not modelled.
- The record shape keeps only the fields the core reads. Humidity, wind and the regional periods are left out.
- Nothing writes `updated_at` after the insert: backend/src/models/telegram.py:19-23 gives it only a server default of the insert time, and no statement in backend/src/repository/telegram.py:34-123 sets it. The model follows this, so the purge time of a row is fixed by its insert (see Findings).
- The service classes keep the repository statements as written; the stamping flip of Findings is stated on values (`TelegramRepo.DeletedFlagStamped`, `TelegramRepo.SoftDeletedStamped`, `WeatherBot.UnsubscribeStepStamped`), because no repository statement performs it.
- The older builder imports `TelegramWeatherConfigStatesEnum`, which does not appear in backend/src/schemas/telegram.py. The model gives it the values of `TelegramWeatherConversationStatesEnum`, so "See ya!" is the cancel token there too.
- The purge removes only telegram rows in its statement; the removal of their preferences comes from the foreign key's `ON DELETE CASCADE` (backend/src/models/preferences.py:8-11) and is modelled as `Cascaded`.
