/** handlers/entries.js: `GET /entries` (the search filter) and
    `POST /entries` (log an event, start or stop a range). */
module Entries {
  import opened Js
  import opened Http
  import opened TimeCore
  import opened Seqs
  import Formatter
  import Loader

  const START_ACTION := "start"
  const STOP_ACTION := "stop"
  const INVALID_ACTION_MESSAGE := "Unable to perform the desired action at this time"

  // ---------------------------------------------------------------- POST

  /** The payload of `POST /entries`. */
  datatype PostPayload = PostPayload(
    categoryID: Option<int>,
    entryType: Option<string>,
    action: Option<string>,
    timezone: Option<string>)

  /** A character the timezone pattern `[a-zA-Z0-9/_\-\+]` admits. */
  predicate TimezoneChar(c: char) {
    || 'a' <= c <= 'z' || 'A' <= c <= 'Z' || '0' <= c <= '9'
    || c == '/' || c == '_' || c == '-' || c == '+'
  }

  /** A timezone label: a non-empty run of admitted characters. */
  predicate ValidTimezone(tz: string) {
    |tz| > 0 && forall i :: 0 <= i < |tz| ==> TimezoneChar(tz[i])
  }

  /** The anchored pattern `^[a-zA-Z0-9/_\-\+]+$`, matched one character at a time. */
  predicate MatchesTimezonePattern(tz: string) {
    |tz| > 0 && TimezoneChar(tz[0]) && (|tz| == 1 || MatchesTimezonePattern(tz[1..]))
  }

  /** The character-by-character match agrees with the description of a valid label. */
  lemma {:induction false} TimezonePatternIsValidTimezone(tz: string)
    ensures MatchesTimezonePattern(tz) <==> ValidTimezone(tz)
  {
    if |tz| > 1 {
      TimezonePatternIsValidTimezone(tz[1..]);
      if ValidTimezone(tz) {
        assert forall i :: 0 <= i < |tz| - 1 ==> tz[1..][i] == tz[i + 1];
      }
      if MatchesTimezonePattern(tz) {
        forall i | 0 <= i < |tz| ensures TimezoneChar(tz[i]) {
          if i > 0 { assert tz[i] == tz[1..][i - 1]; }
        }
      }
    }
  }

  /** `POST_PAYLOAD`: `category_id` is required; `type` is an entry type;
      `action` is `start` or `stop`, required when `type` is `range` and
      forbidden otherwise; `timezone` matches the timezone pattern. */
  predicate ValidPostPayload(p: PostPayload) {
    && p.categoryID.Some?
    && (p.entryType.Some? ==> p.entryType.value in ENTRY_TYPES)
    && (if p.entryType == Some("range")
        then p.action.Some? && p.action.value in {START_ACTION, STOP_ACTION}
        else p.action.None?)
    && (p.timezone.Some? ==> MatchesTimezonePattern(p.timezone.value))
  }

  /** The three entry-store operations a POST can end in. */
  datatype EntryCall = LogFor | StartFor | StopFor

  /** The dispatch of `POST_HANDLER`: events are logged, a `start` action
      starts a range, and every other request stops one. */
  function ChooseCall(entryType: Option<string>, action: Option<string>): (c: EntryCall)
    ensures c == LogFor <==> entryType == Some(TypeName(Event))
    ensures c == StartFor <==> entryType != Some(TypeName(Event)) && action == Some(START_ACTION)
  {
    if entryType == Some(TypeName(Event)) then LogFor
    else if action == Some(START_ACTION) then StartFor
    else StopFor
  }

  /** On a valid payload the dispatch is the one the documentation describes:
      a range goes by its action. */
  lemma RangeFollowsAction(p: PostPayload)
    requires ValidPostPayload(p) && p.entryType == Some("range")
    ensures ChooseCall(p.entryType, p.action) == (if p.action == Some("start") then StartFor else StopFor)
  {
  }

  /** A valid payload that names no type carries no action, and stops the
      category's open range. */
  lemma UntypedPostStops(p: PostPayload)
    requires ValidPostPayload(p) && p.entryType.None?
    ensures p.action.None? && ChooseCall(p.entryType, p.action) == StopFor
  {
  }

  /** The `catch` of `POST_HANDLER`. */
  function PostError(e: TimeError): (r: Outcome<Object>)
    ensures r.BadRequest? <==> e == RequestInvalidAction
    ensures r.BadRequest? ==> r.message == INVALID_ACTION_MESSAGE
    ensures !r.BadRequest? ==> r == ServerError
  {
    if e == RequestInvalidAction then BadRequest(INVALID_ACTION_MESSAGE) else ServerError
  }

  /** `POST_HANDLER`. `entryStore(call, category, timezone)` is the result of
      the time-core call the handler makes. */
  function Post(s: Store, userID: int, p: PostPayload,
                entryStore: (EntryCall, Category, Option<string>) -> Fetched<Entry>): (r: Outcome<Object>)
    requires ValidPostPayload(p)
    ensures !Loader.FetchCategory(s, userID, p.categoryID.value).Ok? ==>
      r == Loader.FetchCategory(s, userID, p.categoryID.value).Cast()
    ensures r.Ok? ==> Loader.MayAccessCategory(s, userID, p.categoryID.value)
    ensures Loader.MayAccessCategory(s, userID, p.categoryID.value) ==>
      var category := s.categories.rows[p.categoryID.value];
      match entryStore(ChooseCall(p.entryType, p.action), category, p.timezone)
      case Found(e) => r == Ok(Formatter.FormatEntry(e))
      case Failed(RequestInvalidAction) => r == BadRequest(INVALID_ACTION_MESSAGE)
      case Failed(_) => r == ServerError
  {
    match Loader.FetchCategory(s, userID, p.categoryID.value)
    case Ok(category) =>
      (match entryStore(ChooseCall(p.entryType, p.action), category, p.timezone)
       case Found(entry) => Ok(Formatter.FormatEntry(entry))
       case Failed(e) => PostError(e))
    case BadRequest(m) => BadRequest(m)
    case Unauthorized(m) => Unauthorized(m)
    case NotFound => NotFound
    case Conflict => Conflict
    case ServerError => ServerError
  }

  /** Whatever the entry store would do, a request on a category of another
      account is refused with 401 (test: "denies requests to unauthorized categories"). */
  lemma ForeignCategoryPostIsUnauthorized(s: Store, userID: int, p: PostPayload,
                                          entryStore: (EntryCall, Category, Option<string>) -> Fetched<Entry>)
    requires ValidPostPayload(p)
    requires Loader.ForeignCategory(s, userID, p.categoryID.value)
    ensures Post(s, userID, p, entryStore).StatusCode() == 401
  {
  }

  // ---------------------------------------------------------------- GET

  /** The query of `GET /entries` once validated (`reference` defaults to `start`). */
  datatype GetQuery = GetQuery(
    categoryIDs: Option<seq<int>>,
    accountIDs: Option<seq<int>>,
    entryType: Option<string>,
    after: Option<string>,
    before: Option<string>,
    reference: string,
    deleted: Option<bool>)

  /** The user's account ids, kept only where the query's `account_id` list
      (when given, even empty) contains them. */
  function PermittedAccountIDs(userAccountIDs: seq<int>, filter: Option<seq<int>>): (r: seq<int>)
    ensures forall a :: a in r <==> a in userAccountIDs && (filter.Some? ==> a in filter.value)
    ensures IsSubsequence(r, userAccountIDs)
  {
    if filter.Some? then
      var keep := a => a in filter.value;
      FilterIsSubsequence(userAccountIDs, keep);
      Filter(userAccountIDs, keep)
    else
      SubsequenceRefl(userAccountIDs);
      userAccountIDs
  }

  function IntsValue(o: Option<seq<int>>): Value {
    if o.Some? then IntArray(o.value) else Undefined
  }

  /** The keys of `searchFilters` in the order the object literal creates them. */
  const FILTER_KEYS: seq<string> :=
    ["account_ids", "category_ids", "type", "after", "before", "reference", "deleted"]

  /** `searchFilters` as the object literal builds it. */
  function RawFilters(accountIDs: seq<int>, q: GetQuery): (o: Object)
    ensures o.Keys == set k | k in FILTER_KEYS
  {
    map[
      "account_ids" := IntsValue(Some(accountIDs)),
      "category_ids" := IntsValue(q.categoryIDs),
      "type" := StrValue(q.entryType),
      "after" := StrValue(q.after),
      "before" := StrValue(q.before),
      "reference" := Str(q.reference),
      "deleted" := if q.deleted.Some? then Bool(q.deleted.value) else Undefined]
  }

  /** The object with its falsy properties removed. */
  function Compact(o: Object): (r: Object)
    ensures forall k :: k in r <==> k in o && Truthy(o[k])
    ensures forall k :: k in r ==> r[k] == o[k]
  {
    map k | k in o && Truthy(o[k]) :: o[k]
  }

  /** `Object.keys(o).forEach(key => { if (!o[key]) delete o[key] })`, with
      `keys` the keys of `o`, each once. */
  method DropFalsy(o: Object, keys: seq<string>) returns (r: Object)
    requires forall k :: k in o <==> k in keys
    requires forall i, j :: 0 <= i < j < |keys| ==> keys[i] != keys[j]
    ensures r == Compact(o)
  {
    r := o;
    var i := 0;
    while i < |keys|
      invariant 0 <= i <= |keys|
      invariant forall k :: k in r <==> k in o && (k in keys[i..] || Truthy(o[k]))
      invariant forall k :: k in r ==> r[k] == o[k]
    {
      var key := keys[i];
      if !Truthy(r[key]) {
        r := r - {key};
      }
      assert forall k :: k in keys[i..] <==> k == key || k in keys[i + 1..] by {
        assert keys[i..] == [key] + keys[i + 1..];
      }
      i := i + 1;
    }
  }

  /** `showDeleted`: the compacted filter holds `deleted: true`. */
  predicate ShowDeleted(filters: Object) {
    "deleted" in filters && filters["deleted"] == Bool(true)
  }

  /** The filter `GET_HANDLER` hands to `Entry.findFor`: the account ids are
      always kept (an array is truthy even when empty), `deleted: false` and
      absent keys are dropped, and deleted entries are shown only on `deleted: true`. */
  lemma SearchFilterShape(accountIDs: seq<int>, q: GetQuery)
    ensures var f := Compact(RawFilters(accountIDs, q));
      && "account_ids" in f
      && f["account_ids"] == IntsValue(Some(accountIDs))
      && ("deleted" in f <==> q.deleted == Some(true))
      && (ShowDeleted(f) <==> q.deleted == Some(true))
      && ("category_ids" in f <==> q.categoryIDs.Some?)
      && ("type" in f <==> TextGiven(q.entryType))
  {
    var raw := RawFilters(accountIDs, q);
    assert raw["account_ids"] == IntsValue(Some(accountIDs));
    assert raw["deleted"] == if q.deleted.Some? then Bool(q.deleted.value) else Undefined;
    assert raw["category_ids"] == IntsValue(q.categoryIDs);
    assert raw["type"] == StrValue(q.entryType);
  }

  /** `GET_HANDLER`. `userAccountIDs` are the ids of the accounts
      `Account.findForUser` gives, `findFor` is `Entry.findFor`; a failure of
      either escapes the handler as a 500. */
  method Get(userAccountIDs: Fetched<seq<int>>, q: GetQuery, findFor: Object -> Fetched<seq<Entry>>)
    returns (r: Outcome<seq<Object>>)
    ensures r.Ok? || r.ServerError?
    ensures userAccountIDs.Failed? ==> r == ServerError
    ensures userAccountIDs.Found? ==>
      var filters := Compact(RawFilters(PermittedAccountIDs(userAccountIDs.value, q.accountIDs), q));
      match findFor(filters)
      case Failed(_) => r == ServerError
      case Found(entries) =>
        && r.Ok? && |r.value| == |entries|
        && forall i :: 0 <= i < |entries| ==> r.value[i] == Formatter.FormatEntry(entries[i])
  {
    if userAccountIDs.Failed? {
      return ServerError;
    }
    var accountIDs := PermittedAccountIDs(userAccountIDs.value, q.accountIDs);
    var filters := DropFalsy(RawFilters(accountIDs, q), FILTER_KEYS);
    var found := findFor(filters);
    if found.Failed? {
      return ServerError;
    }
    var entries := found.value;
    r := Ok(seq(|entries|, i requires 0 <= i < |entries| => Formatter.FormatEntry(entries[i])));
  }
}
