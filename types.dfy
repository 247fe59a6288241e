/**
 * The records of the application: users, feeding logs and journal entries.
 * Optional fields of the TypeScript interfaces become `Option`s; dates are
 * abstract instants (`Timestamp`), ids are opaque strings.
 */
module Types {

  /** Absent-or-present value, used for the optional fields of the records. */
  datatype Option<+T> = None | Some(value: T)

  /** An instant, as milliseconds since the epoch. */
  type Timestamp = int

  datatype FeedType = Breast | Bottle | Pump

  datatype Side = Left | Right | Both

  /** A feeding record; which of the optional fields are set depends on its type. */
  datatype FeedLog = FeedLog(
    id: string,
    kind: FeedType,
    timestamp: Timestamp,
    durationMinutes: Option<int>,
    amountMl: Option<int>,
    side: Option<Side>,
    note: Option<string>)

  /**
   * A registered user. Registration stores the record together with the
   * password it was given, in plain text, so the stored record carries it.
   */
  datatype User = User(
    id: string,
    name: string,
    email: string,
    babyName: Option<string>,
    babyDob: Option<string>,
    password: Option<string>)

  /** The closed set of moods a journal entry can carry. */
  datatype Mood = Happy | Calm | Tired | Stressed | Sad

  datatype JournalEntry = JournalEntry(
    id: string,
    timestamp: Timestamp,
    text: string,
    mood: Mood)
}
