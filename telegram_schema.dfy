/**
 * Identifiers, the rows handed out by the two repositories, and the
 * fixed texts of the preference conversation.
 */
module TelegramSchema {
  import opened Wrappers
  import opened Time

  /** `str(from_user.id)` */
  type UserId = string

  /** `str(message.chat_id)` */
  type ChatId = string

  /** `TelegramRepositorySchema`: a subscriber as the repository returns it. */
  datatype TelegramUser = TelegramUser(
    userId: UserId,
    chatId: ChatId,
    isDeleted: bool,
    updatedAt: Option<Timestamp>,
    username: Option<string>,
    firstName: Option<string>,
    lastName: Option<string>)

  /** `PreferencesRepositorySchema`: a quiet-hours window keyed by the user id. */
  datatype Preference = Preference(id: UserId, silenceStartTime: string, silenceEndTime: string)

  /** `TelegramPreferenceRepositorySchema`: one row of the subscriber listing. */
  datatype SubscriberPreference = SubscriberPreference(telegram: TelegramUser, preference: Preference)

  /** The window a new subscriber gets. */
  const DefaultStartTime: string := "07:00"
  const DefaultEndTime: string := "22:00"

  /** `TelegramWeatherConfigEnum`: the two settings a user may pick. */
  datatype ConfigOption = AlertStartTime | AlertEndTime

  function OptionValue(o: ConfigOption): string
  {
    match o
    case AlertStartTime => "Start time of alerts"
    case AlertEndTime => "End time of alerts"
  }

  /** The text is one of the option values. */
  predicate IsOptionValue(s: string)
  {
    s == OptionValue(AlertStartTime) || s == OptionValue(AlertEndTime)
  }

  /** `TelegramWeatherConversationStatesEnum.END_CONVERSATION`: the cancel token. */
  const EndConversationToken: string := "See ya!"

  /** The conversation states a handler can hand back. */
  datatype State = SelectingNotificationOption | AlertTime | Fallback

  /** The key the chosen option is kept under in `user_data`. */
  const SelectedOptionKey: string := "selected_option"

}
