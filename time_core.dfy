/** The part of the external time-core package that the handlers see: its
    entities, its error values and a fallible key-addressed store. How
    time-core persists, re-parents or validates is not part of this model. */
module TimeCore {
  import opened Js

  /** A timestamp as the handlers pass it along; its format is opaque here. */
  type Timestamp = string

  /** The error values time-core throws, which the handlers compare against.
      `Other` is any further failure (a lost database connection, a
      duplicate-key error from MySQL) with its message. */
  datatype TimeError =
    | DataNotFound
    | DataIncorrectFormat
    | RequestInvalidAction
    | RequestInvalidState
    | RequestInvalidType
    | CategoryInconsistentParentAndAccount
    | CategoryInsufficientParentOrAccount
    | AuthTokenExpired
    | AuthTokenInvalid
    | AuthInvalidPassword
    | AuthUniqueTokenNotFound
    | Other(message: string)

  /** The `message` of an error value. */
  function Message(e: TimeError): string {
    match e
    case DataNotFound => "NOT_FOUND"
    case DataIncorrectFormat => "INCORRECT_FORMAT"
    case RequestInvalidAction => "INVALID_ACTION"
    case RequestInvalidState => "INVALID_STATE"
    case RequestInvalidType => "INVALID_TYPE"
    case CategoryInconsistentParentAndAccount => "INCONSISTENT_PARENT_AND_ACCOUNT"
    case CategoryInsufficientParentOrAccount => "INSUFFICIENT_PARENT_OR_ACCOUNT"
    case AuthTokenExpired => "TOKEN_EXPIRED"
    case AuthTokenInvalid => "TOKEN_INVALID"
    case AuthInvalidPassword => "INVALID_PASSWORD"
    case AuthUniqueTokenNotFound => "UNIQUE_TOKEN_NOT_FOUND"
    case Other(m) => m
  }

  datatype EntryType = Event | Range

  /** The string value of `Time.Type.Entry.EVENT` / `.RANGE`. */
  function TypeName(t: EntryType): string {
    match t
    case Event => "event"
    case Range => "range"
  }

  /** The entry type a request string names, if any. */
  function ParseType(s: string): (r: Option<EntryType>)
    ensures r.Some? ==> TypeName(r.value) == s
    ensures forall t :: TypeName(t) == s ==> r == Some(t)
  {
    if s == "event" then Some(Event) else if s == "range" then Some(Range) else None
  }

  const ENTRY_TYPES: set<string> := {"event", "range"}

  /** An account and the ids of the users that may act on it, in the order
      time-core lists them. */
  datatype Account = Account(id: int, userIDs: seq<int>)

  /** A category; `parentID` is `None` for an account's root. */
  datatype Category = Category(id: int, accountID: int, parentID: Option<int>, name: string)

  /** An entry; `endedAt` is `None` for events and for open ranges. */
  datatype Entry = Entry(id: int, entryType: EntryType, categoryID: int, startedAt: Timestamp, endedAt: Option<Timestamp>)

  /** An import request, known here only by its owner. */
  datatype ImportRequest = ImportRequest(id: int, userID: int)

  /** The result of a time-core call: a value, or the error it throws. */
  datatype Fetched<+T> = Found(value: T) | Failed(error: TimeError)

  /** One table of the store: the rows it holds, and the ids whose fetch
      fails with some error other than "not found". */
  datatype Table<T> = Table(rows: map<int, T>, faults: map<int, TimeError>) {
    /** `Time.X.fetch(id)`. */
    function Fetch(id: int): Fetched<T> {
      if id in faults then Failed(faults[id])
      else if id in rows then Found(rows[id])
      else Failed(DataNotFound)
    }

    /** The row `id` exists and can be read. */
    predicate Has(id: int) {
      id !in faults && id in rows
    }

    /** Fetching `id` reports that it does not exist. */
    predicate Missing(id: int) {
      Fetch(id) == Failed(DataNotFound)
    }
  }

  /** The time-core store the handlers read from. */
  datatype Store = Store(
    accounts: Table<Account>,
    categories: Table<Category>,
    entries: Table<Entry>,
    imports: Table<ImportRequest>)
}
