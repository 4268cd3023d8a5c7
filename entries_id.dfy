/** handlers/entries-id.js: `GET`, `PUT` and `DELETE /entries/{id}`. Each
    authorizes through the ownership walk before it reads or changes anything. */
module EntriesId {
  import opened Js
  import opened Http
  import opened TimeCore
  import Formatter
  import Loader

  /** The payload of `PUT /entries/{id}`. */
  datatype PutPayload = PutPayload(
    categoryID: Option<int>,
    entryType: Option<string>,
    startedAt: Option<string>,
    endedAt: Option<string>)

  /** `PUT_PAYLOAD`: at least one key; `type` an entry type; `ended_at`
      forbidden when `type` is `event`. */
  predicate ValidPutPayload(p: PutPayload) {
    && (p.categoryID.Some? || p.entryType.Some? || p.startedAt.Some? || p.endedAt.Some?)
    && (p.entryType.Some? ==> p.entryType.value in ENTRY_TYPES)
    && (p.startedAt.Some? ==> p.startedAt.value != "")
    && (p.endedAt.Some? ==> p.endedAt.value != "")
    && (p.entryType == Some(TypeName(Event)) ==> p.endedAt.None?)
  }

  /** The fetched time-core entry, whose fields `PUT_HANDLER` assigns one by one. */
  class EntryDraft {
    const id: int
    var entryType: EntryType
    var categoryID: int
    var startedAt: Timestamp
    var endedAt: Option<Timestamp>

    /** The entry the draft currently describes. */
    function Value(): Entry
      reads this
    {
      Entry(id, entryType, categoryID, startedAt, endedAt)
    }

    constructor (e: Entry)
      ensures Value() == e
    {
      id, entryType, categoryID, startedAt, endedAt := e.id, e.entryType, e.categoryID, e.startedAt, e.endedAt;
    }

    /** `entry.category = category`. */
    method SetCategory(c: Category)
      modifies this
      ensures Value() == old(Value()).(categoryID := c.id)
    {
      categoryID := c.id;
    }

    /** `entry.type = type`. */
    method SetType(t: EntryType)
      modifies this
      ensures Value() == old(Value()).(entryType := t)
    {
      entryType := t;
    }

    /** `entry.startedAt = startedAt`. */
    method SetStartedAt(t: Timestamp)
      modifies this
      ensures Value() == old(Value()).(startedAt := t)
    {
      startedAt := t;
    }

    /** `entry.endedAt = endedAt`; time-core's setter may refuse with `error`. */
    method SetEndedAt(t: Timestamp, error: Option<TimeError>) returns (failure: Option<TimeError>)
      modifies this
      ensures failure == error
      ensures Value() == if error.None? then old(Value()).(endedAt := Some(t)) else old(Value())
    {
      failure := error;
      if error.None? {
        endedAt := Some(t);
      }
    }
  }

  /** The entry after the update: each field the payload gives (truthily) is
      replaced, `newCategory` being the authorized category of `category_id`. */
  function Updated(e: Entry, p: PutPayload, newCategory: Option<Category>): (u: Entry)
    requires ValidPutPayload(p)
  {
    Entry(
      e.id,
      if TextGiven(p.entryType) then ParseType(p.entryType.value).value else e.entryType,
      if newCategory.Some? then newCategory.value.id else e.categoryID,
      if TextGiven(p.startedAt) then p.startedAt.value else e.startedAt,
      if TextGiven(p.endedAt) then Some(p.endedAt.value) else e.endedAt)
  }

  /** `PUT` overwrites exactly the fields the payload names and leaves the
      others as they were; the entry keeps its id. */
  lemma UpdatedChangesOnlyGivenFields(e: Entry, p: PutPayload, newCategory: Option<Category>)
    requires ValidPutPayload(p)
    ensures var u := Updated(e, p, newCategory);
      && u.id == e.id
      && (p.entryType.None? ==> u.entryType == e.entryType)
      && (p.entryType.Some? ==> TypeName(u.entryType) == p.entryType.value)
      && (newCategory.None? ==> u.categoryID == e.categoryID)
      && (newCategory.Some? ==> u.categoryID == newCategory.value.id)
      && (p.startedAt.None? ==> u.startedAt == e.startedAt)
      && (p.startedAt.Some? ==> u.startedAt == p.startedAt.value)
      && (p.endedAt.None? ==> u.endedAt == e.endedAt)
      && (p.endedAt.Some? ==> u.endedAt == p.endedAt)
  {
  }

  /** The response of `GET` and `PUT`: the entry's five fields under their
      snake-case names (the shape of `formatter.entry`). */
  function FormatReturn(e: Entry): Object {
    Formatter.FormatEntry(e)
  }

  /** `GET_HANDLER`. */
  function Get(s: Store, userID: int, entryID: int): (r: Outcome<Object>)
    ensures r.Ok? <==> Loader.MayAccessEntry(s, userID, entryID)
    ensures r.Ok? ==> r.value == FormatReturn(s.entries.rows[entryID])
    ensures !r.Ok? ==> r == Loader.FetchEntry(s, userID, entryID).Cast()
  {
    match Loader.FetchEntry(s, userID, entryID)
    case Ok(entry) => Ok(FormatReturn(entry))
    case BadRequest(m) => BadRequest(m)
    case Unauthorized(m) => Unauthorized(m)
    case NotFound => NotFound
    case Conflict => Conflict
    case ServerError => ServerError
  }

  /** The user may access the entry and, when the payload moves it, the new category. */
  predicate PutAuthorized(s: Store, userID: int, entryID: int, p: PutPayload) {
    && Loader.MayAccessEntry(s, userID, entryID)
    && (IntGiven(p.categoryID) ==> Loader.MayAccessCategory(s, userID, p.categoryID.value))
  }

  /** `PUT_HANDLER`. `endedAtError` is what time-core's `endedAt` setter
      throws, if anything; `save` is the result of `entry.save()`. */
  method Put(s: Store, userID: int, entryID: int, p: PutPayload,
             endedAtError: Option<TimeError>, save: Entry -> Option<TimeError>) returns (r: Outcome<Object>)
    requires ValidPutPayload(p)
    ensures !Loader.MayAccessEntry(s, userID, entryID) ==>
      r == Loader.FetchEntry(s, userID, entryID).Cast()
    ensures (Loader.MayAccessEntry(s, userID, entryID) && IntGiven(p.categoryID)
             && !Loader.MayAccessCategory(s, userID, p.categoryID.value)) ==>
      r == Loader.FetchCategory(s, userID, p.categoryID.value).Cast()
    ensures r.Ok? ==> PutAuthorized(s, userID, entryID, p)
    ensures PutAuthorized(s, userID, entryID, p) ==>
      var newCategory := if IntGiven(p.categoryID) then Some(s.categories.rows[p.categoryID.value]) else None;
      var u := Updated(s.entries.rows[entryID], p, newCategory);
      if TextGiven(p.endedAt) && endedAtError.Some? then
        r == (if endedAtError.value == RequestInvalidState then BadRequest(BAD_REQUEST) else ServerError)
      else if save(u).Some? then r == ServerError
      else r == Ok(FormatReturn(u))
  {
    var fetched := Loader.FetchEntry(s, userID, entryID);
    if !fetched.Ok? {
      return fetched.Cast();
    }
    var entry := new EntryDraft(fetched.value);

    if IntGiven(p.categoryID) {
      var category := Loader.FetchCategory(s, userID, p.categoryID.value);
      if !category.Ok? {
        return category.Cast();
      }
      entry.SetCategory(category.value);
    }

    if TextGiven(p.entryType) {
      entry.SetType(ParseType(p.entryType.value).value);
    }

    if TextGiven(p.startedAt) {
      entry.SetStartedAt(p.startedAt.value);
    }

    if TextGiven(p.endedAt) {
      var failure := entry.SetEndedAt(p.endedAt.value, endedAtError);
      if failure.Some? {
        return if failure.value == RequestInvalidState then BadRequest(BAD_REQUEST) else ServerError;
      }
    }

    if save(entry.Value()).Some? {
      return ServerError;
    }
    r := Ok(FormatReturn(entry.Value()));
  }

  /** `DELETE_HANDLER`. `remove` is the result of `entry.delete()`. */
  function Delete(s: Store, userID: int, entryID: int, remove: Entry -> Option<TimeError>): (r: Outcome<Object>)
    ensures r.Ok? <==> Loader.MayAccessEntry(s, userID, entryID) && remove(s.entries.rows[entryID]).None?
    ensures r.Ok? ==> r.value == map["success" := Bool(true)]
    ensures !Loader.MayAccessEntry(s, userID, entryID) ==> r == Loader.FetchEntry(s, userID, entryID).Cast()
    ensures Loader.MayAccessEntry(s, userID, entryID) && remove(s.entries.rows[entryID]).Some? ==> r == ServerError
  {
    match Loader.FetchEntry(s, userID, entryID)
    case Ok(entry) => if remove(entry).Some? then ServerError else Ok(map["success" := Bool(true)])
    case BadRequest(m) => BadRequest(m)
    case Unauthorized(m) => Unauthorized(m)
    case NotFound => NotFound
    case Conflict => Conflict
    case ServerError => ServerError
  }
}
