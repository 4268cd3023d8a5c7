/** lib/loader.js: the ownership walk user -> account -> category -> entry
    that authorizes every entry and category request, and the owner check on
    import requests, each translating store errors into one HTTP outcome. */
module Loader {
  import opened Js
  import opened Http
  import opened TimeCore

  /** The walk succeeds: the category and its account can both be read, and
      the user is one of the account's users. */
  predicate MayAccessCategory(s: Store, userID: int, categoryID: int) {
    && s.categories.Has(categoryID)
    && s.accounts.Has(s.categories.rows[categoryID].accountID)
    && userID in s.accounts.rows[s.categories.rows[categoryID].accountID].userIDs
  }

  /** The category and its account exist, but the user is not one of the account's users. */
  predicate ForeignCategory(s: Store, userID: int, categoryID: int) {
    && s.categories.Has(categoryID)
    && s.accounts.Has(s.categories.rows[categoryID].accountID)
    && userID !in s.accounts.rows[s.categories.rows[categoryID].accountID].userIDs
  }

  /** The category is missing, or it exists and its account is missing. */
  predicate DanglingCategory(s: Store, categoryID: int) {
    || s.categories.Missing(categoryID)
    || (s.categories.Has(categoryID) && s.accounts.Missing(s.categories.rows[categoryID].accountID))
  }

  /** `fetchCategory(userID, categoryID)`. */
  function FetchCategory(s: Store, userID: int, categoryID: int): (r: Outcome<Category>)
    ensures r.Ok? <==> MayAccessCategory(s, userID, categoryID)
    ensures r.Ok? ==> r.value == s.categories.rows[categoryID]
    ensures r.Unauthorized? <==> ForeignCategory(s, userID, categoryID)
    ensures r.BadRequest? <==> DanglingCategory(s, categoryID)
    ensures r.ServerError? <==>
      !MayAccessCategory(s, userID, categoryID) && !ForeignCategory(s, userID, categoryID)
      && !DanglingCategory(s, categoryID)
    ensures r.Unauthorized? ==> r.message == UNAUTHORIZED
    ensures r.BadRequest? ==> r.message == BAD_REQUEST
    ensures !r.NotFound? && !r.Conflict?
  {
    match s.categories.Fetch(categoryID)
    case Failed(e) => Translate(e)
    case Found(category) =>
      match s.accounts.Fetch(category.accountID)
      case Failed(e) => Translate(e)
      case Found(account) =>
        if userID in account.userIDs then Ok(category) else Unauthorized(UNAUTHORIZED)
  }

  /** The `catch` of `fetchCategory` and `fetchImport` for a store error. */
  function Translate<T>(e: TimeError): (r: Outcome<T>)
    ensures r.BadRequest? || r.ServerError?
    ensures r.BadRequest? <==> e == DataNotFound
  {
    if e == DataNotFound then BadRequest(BAD_REQUEST) else ServerError
  }

  /** The entry exists and the walk from its category succeeds. */
  predicate MayAccessEntry(s: Store, userID: int, entryID: int) {
    s.entries.Has(entryID) && MayAccessCategory(s, userID, s.entries.rows[entryID].categoryID)
  }

  /** `fetchEntry(userID, entryID)`: the entry itself, once its category authorizes. */
  function FetchEntry(s: Store, userID: int, entryID: int): (r: Outcome<Entry>)
    ensures r.Ok? <==> MayAccessEntry(s, userID, entryID)
    ensures r.Ok? ==> r.value == s.entries.rows[entryID]
    ensures s.entries.Missing(entryID) ==> r == BadRequest(BAD_REQUEST)
    ensures !s.entries.Has(entryID) && !s.entries.Missing(entryID) ==> r == ServerError
    ensures r.BadRequest? <==>
      || s.entries.Missing(entryID)
      || (s.entries.Has(entryID) && DanglingCategory(s, s.entries.rows[entryID].categoryID))
    ensures r.Unauthorized? <==>
      s.entries.Has(entryID) && ForeignCategory(s, userID, s.entries.rows[entryID].categoryID)
    ensures s.entries.Has(entryID) && !r.Ok? ==>
      r == FetchCategory(s, userID, s.entries.rows[entryID].categoryID).Cast()
    ensures !r.NotFound? && !r.Conflict?
  {
    match s.entries.Fetch(entryID)
    case Failed(e) => if e == DataNotFound then BadRequest(BAD_REQUEST) else ServerError
    case Found(entry) =>
      match FetchCategory(s, userID, entry.categoryID)
      case Ok(_) => Ok(entry)
      case BadRequest(m) => BadRequest(m)
      case Unauthorized(m) => Unauthorized(m)
      case NotFound => NotFound
      case Conflict => Conflict
      case ServerError => ServerError
  }

  /** `fetchImport(userID, importID)`. */
  function FetchImport(s: Store, userID: int, importID: int): (r: Outcome<ImportRequest>)
    ensures r.Ok? <==> s.imports.Has(importID) && s.imports.rows[importID].userID == userID
    ensures r.Ok? ==> r.value == s.imports.rows[importID]
    ensures r.Unauthorized? <==> s.imports.Has(importID) && s.imports.rows[importID].userID != userID
    ensures r.BadRequest? <==> s.imports.Missing(importID)
    ensures !r.NotFound? && !r.Conflict?
  {
    match s.imports.Fetch(importID)
    case Failed(e) => Translate(e)
    case Found(importRequest) =>
      if importRequest.userID == userID then Ok(importRequest) else Unauthorized(UNAUTHORIZED)
  }

  /** A user outside the account never receives the category, and is told
      so with 401 whenever the category and its account exist. */
  lemma OutsiderIsUnauthorized(s: Store, userID: int, categoryID: int)
    requires s.categories.Has(categoryID)
    requires s.accounts.Has(s.categories.rows[categoryID].accountID)
    requires userID !in s.accounts.rows[s.categories.rows[categoryID].accountID].userIDs
    ensures FetchCategory(s, userID, categoryID).StatusCode() == 401
  {
  }

  /** Membership is checked only after both fetches succeed: a category that
      does not exist can never produce 401, whoever asks. */
  lemma MissingCategoryIsBadRequest(s: Store, userID: int, categoryID: int)
    requires s.categories.Missing(categoryID)
    ensures FetchCategory(s, userID, categoryID) == BadRequest(BAD_REQUEST)
  {
  }

  /** An entry whose category belongs to another account yields 401, the
      error of the category check passed through unchanged. */
  lemma ForeignEntryIsUnauthorized(s: Store, userID: int, entryID: int)
    requires s.entries.Has(entryID)
    requires ForeignCategory(s, userID, s.entries.rows[entryID].categoryID)
    ensures FetchEntry(s, userID, entryID) == Unauthorized(UNAUTHORIZED)
  {
  }

  /** The outcome of the walk depends only on the account's users, not on who
      else can see it: adding the user to the account turns 401 into success. */
  lemma JoiningTheAccountGrantsAccess(s: Store, userID: int, categoryID: int)
    requires ForeignCategory(s, userID, categoryID)
    ensures
      var c := s.categories.rows[categoryID];
      var a := s.accounts.rows[c.accountID];
      var s' := s.(accounts := s.accounts.(rows := s.accounts.rows[c.accountID := a.(userIDs := a.userIDs + [userID])]));
      FetchCategory(s', userID, categoryID) == Ok(c)
  {
    var c := s.categories.rows[categoryID];
    var a := s.accounts.rows[c.accountID];
    assert userID in a.userIDs + [userID];
  }
}
