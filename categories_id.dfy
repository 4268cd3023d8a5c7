/** handlers/categories-id.js: `GET`, `PUT` and `DELETE /categories/{id}`,
    one handler that authorizes and then dispatches on the request method. */
module CategoriesId {
  import opened Js
  import opened Http
  import opened TimeCore
  import Formatter
  import Categories

  /** The payload of `PUT /categories/{id}`. */
  datatype PutPayload = PutPayload(accountID: Option<int>, name: Option<string>, parentID: Option<int>)

  /** `PUT_PAYLOAD`: at least one of `account_id`, `name`, `parent_id`. */
  predicate ValidPutPayload(p: PutPayload) {
    && (p.accountID.Some? || p.name.Some? || p.parentID.Some?)
    && (p.name.Some? ==> p.name.value != "")
  }

  /** The payload of `DELETE /categories/{id}`, which may also be `null`. */
  datatype DeletePayload = DeletePayload(deleteChildren: Option<bool>)

  /** `VALIDATE_ACCOUNT`: the account can be read and lists the user. A
      failing fetch is not converted, so hapi answers it with 500. */
  function ValidateAccount(s: Store, accountID: int, userID: int): (r: Outcome<()>)
    ensures r.Ok? <==> s.accounts.Has(accountID) && userID in s.accounts.rows[accountID].userIDs
    ensures r.Unauthorized? <==> s.accounts.Has(accountID) && userID !in s.accounts.rows[accountID].userIDs
    ensures !s.accounts.Has(accountID) ==> r == ServerError
    ensures r.Unauthorized? ==> r.message == UNAUTHORIZED
  {
    match s.accounts.Fetch(accountID)
    case Failed(_) => ServerError
    case Found(account) => if userID in account.userIDs then Ok(()) else Unauthorized(UNAUTHORIZED)
  }

  /** The first two steps of `HANDLER`: fetch the category (any failure is a
      404) and check the user belongs to its account. */
  function Authorize(s: Store, userID: int, categoryID: int): (r: Outcome<Category>)
    ensures !s.categories.Has(categoryID) ==> r == NotFound
    ensures s.categories.Has(categoryID) ==>
      var c := s.categories.rows[categoryID];
      if ValidateAccount(s, c.accountID, userID).Ok? then r == Ok(c)
      else r == ValidateAccount(s, c.accountID, userID).Cast()
    ensures r.NotFound? <==> !s.categories.Has(categoryID)
  {
    match s.categories.Fetch(categoryID)
    case Failed(_) => NotFound
    case Found(category) =>
      match ValidateAccount(s, category.accountID, userID)
      case Ok(_) => Ok(category)
      case BadRequest(m) => BadRequest(m)
      case Unauthorized(m) => Unauthorized(m)
      case NotFound => NotFound
      case Conflict => Conflict
      case ServerError => ServerError
  }

  /** A user outside the account of an existing category gets 401, and one
      asking for a category that cannot be read gets 404. */
  lemma AuthorizeStatuses(s: Store, userID: int, categoryID: int)
    ensures !s.categories.Has(categoryID) ==> Authorize(s, userID, categoryID).StatusCode() == 404
    ensures s.categories.Has(categoryID) && s.accounts.Has(s.categories.rows[categoryID].accountID)
      ==> (Authorize(s, userID, categoryID).StatusCode() == 401
           <==> userID !in s.accounts.rows[s.categories.rows[categoryID].accountID].userIDs)
  {
  }

  /** The payload once `VALIDATE_PUT` accepted it: an unchanged copy of the
      request payload, plus the parent category it fetched. */
  datatype ValidatedPut = ValidatedPut(payload: PutPayload, parent: Option<Category>)

  /** `VALIDATE_PUT`: the user must belong to the target account (when
      `account_id` is given) and to the parent's account (when `parent_id` is
      given). A parent that cannot be fetched is not converted: hapi answers 500. */
  function ValidatePut(s: Store, userID: int, p: PutPayload): (r: Outcome<ValidatedPut>)
    ensures r.Ok? <==>
      && (IntGiven(p.accountID) ==> ValidateAccount(s, p.accountID.value, userID).Ok?)
      && (IntGiven(p.parentID) ==>
            s.categories.Has(p.parentID.value)
            && ValidateAccount(s, s.categories.rows[p.parentID.value].accountID, userID).Ok?)
    ensures r.Ok? ==> r.value.payload == p
    ensures r.Ok? ==> r.value.parent == if IntGiven(p.parentID) then Some(s.categories.rows[p.parentID.value]) else None
    ensures IntGiven(p.accountID) && !ValidateAccount(s, p.accountID.value, userID).Ok? ==>
      r == ValidateAccount(s, p.accountID.value, userID).Cast()
    ensures (IntGiven(p.accountID) ==> ValidateAccount(s, p.accountID.value, userID).Ok?) && IntGiven(p.parentID) ==>
      if !s.categories.Has(p.parentID.value) then r == ServerError
      else
        var parentAccount := s.categories.rows[p.parentID.value].accountID;
        !ValidateAccount(s, parentAccount, userID).Ok? ==> r == ValidateAccount(s, parentAccount, userID).Cast()
  {
    var account := if IntGiven(p.accountID) then ValidateAccount(s, p.accountID.value, userID) else Ok(());
    if !account.Ok? then account.Cast()
    else if IntGiven(p.parentID) then
      match s.categories.Fetch(p.parentID.value)
      case Failed(_) => ServerError
      case Found(parent) =>
        match ValidateAccount(s, parent.accountID, userID)
        case Ok(_) => Ok(ValidatedPut(p, Some(parent)))
        case BadRequest(m) => BadRequest(m)
        case Unauthorized(m) => Unauthorized(m)
        case NotFound => NotFound
        case Conflict => Conflict
        case ServerError => ServerError
    else Ok(ValidatedPut(p, None))
  }

  /** Moving to a parent in an account the user does not belong to is refused with 401. */
  lemma ForeignParentIsUnauthorized(s: Store, userID: int, p: PutPayload)
    requires !IntGiven(p.accountID) && IntGiven(p.parentID)
    requires s.categories.Has(p.parentID.value)
    requires s.accounts.Has(s.categories.rows[p.parentID.value].accountID)
    requires userID !in s.accounts.rows[s.categories.rows[p.parentID.value].accountID].userIDs
    ensures ValidatePut(s, userID, p) == Unauthorized(UNAUTHORIZED)
  {
  }

  /** The fetched time-core category, whose fields `HANDLE_PUT` assigns. */
  class CategoryDraft {
    var id: int
    var accountID: int
    var parentID: Option<int>
    var name: string

    /** The category the draft currently describes. */
    function Value(): Category
      reads this
    {
      Category(id, accountID, parentID, name)
    }

    constructor (c: Category)
      ensures Value() == c
    {
      id, accountID, parentID, name := c.id, c.accountID, c.parentID, c.name;
    }

    /** `category.name = name`. */
    method SetName(n: string)
      modifies this
      ensures Value() == old(Value()).(name := n)
    {
      name := n;
    }

    /** `category.account = accountID`. */
    method SetAccount(a: int)
      modifies this
      ensures Value() == old(Value()).(accountID := a)
    {
      accountID := a;
    }

    /** `category.parent = parent`. */
    method SetParent(parent: Category)
      modifies this
      ensures Value() == old(Value()).(parentID := Some(parent.id))
    {
      parentID := Some(parent.id);
    }

    /** `await category.save()`. `save` gives the category as time-core leaves
        it (a move to another account re-parents it under that account's
        root), or the error it throws, in which case nothing changes. */
    method Save(save: Category -> Fetched<Category>) returns (failure: Option<TimeError>)
      modifies this
      ensures save(old(Value())).Found? ==> failure.None? && Value() == save(old(Value())).value
      ensures save(old(Value())).Failed? ==> failure == Some(save(old(Value())).error) && Value() == old(Value())
    {
      match save(Value())
      case Failed(e) =>
        failure := Some(e);
      case Found(saved) =>
        failure := None;
        id, accountID, parentID, name := saved.id, saved.accountID, saved.parentID, saved.name;
    }
  }

  /** The category as `HANDLE_PUT` leaves it before saving: `name`, account
      and parent replaced where the validated payload supplies them. */
  function Moved(c: Category, v: ValidatedPut): Category {
    Category(
      c.id,
      if IntGiven(v.payload.accountID) then v.payload.accountID.value else c.accountID,
      if v.parent.Some? then Some(v.parent.value.id) else c.parentID,
      if TextGiven(v.payload.name) then v.payload.name.value else c.name)
  }

  /** `HANDLE_PUT` changes only the name, the account and the parent, each
      only when supplied; the id is kept. */
  lemma MovedChangesOnlyGivenFields(c: Category, v: ValidatedPut)
    ensures Moved(c, v).id == c.id
    ensures !TextGiven(v.payload.name) ==> Moved(c, v).name == c.name
    ensures !IntGiven(v.payload.accountID) ==> Moved(c, v).accountID == c.accountID
    ensures v.parent.None? ==> Moved(c, v).parentID == c.parentID
    ensures v.parent.Some? ==> Moved(c, v).parentID == Some(v.parent.value.id)
  {
  }

  /** `HANDLE_PUT`. `save` is the result of `category.save()`; its `catch`
      is the same table as the one of `POST /categories`. The response shows
      the category as saved. */
  method HandlePut(c: Category, v: ValidatedPut, save: Category -> Fetched<Category>) returns (r: Outcome<Object>)
    ensures match save(Moved(c, v))
      case Found(saved) => r == Ok(Formatter.FormatCategory(saved))
      case Failed(e) => r == Categories.SaveError(e)
  {
    var category := new CategoryDraft(c);
    if TextGiven(v.payload.name) {
      category.SetName(v.payload.name.value);
    }
    if IntGiven(v.payload.accountID) {
      category.SetAccount(v.payload.accountID.value);
    }
    if v.parent.Some? {
      category.SetParent(v.parent.value);
    }
    var failure := category.Save(save);
    if failure.Some? {
      return Categories.SaveError(failure.value);
    }
    r := Ok(Formatter.FormatCategory(category.Value()));
  }

  /** `(payload || {}).delete_children || false`. */
  function DeleteChildren(payload: Option<DeletePayload>): (b: bool)
    ensures b <==> payload == Some(DeletePayload(Some(true)))
  {
    var given := if payload.Some? then payload.value else DeletePayload(None);
    given.deleteChildren.Some? && given.deleteChildren.value
  }

  /** `HANDLE_DELETE`. `remove(category, deleteChildren)` is the result of
      `category.delete(deleteChildren)`, which is not caught. */
  function HandleDelete(c: Category, payload: Option<DeletePayload>,
                        remove: (Category, bool) -> Option<TimeError>): (r: Outcome<Object>)
    ensures r.Ok? <==> remove(c, DeleteChildren(payload)).None?
    ensures r.Ok? ==> r.value == map["success" := Bool(true)]
    ensures !r.Ok? ==> r == ServerError
  {
    if remove(c, DeleteChildren(payload)).Some? then ServerError else Ok(map["success" := Bool(true)])
  }

  /** `HANDLER`, for the request method `verb` (`get`, `put` or `delete`). */
  method Handle(s: Store, userID: int, categoryID: int, verb: string,
                putPayload: PutPayload, deletePayload: Option<DeletePayload>,
                save: Category -> Fetched<Category>,
                remove: (Category, bool) -> Option<TimeError>) returns (r: Outcome<Object>)
    requires verb == "put" ==> ValidPutPayload(putPayload)
    ensures !Authorize(s, userID, categoryID).Ok? ==> r == Authorize(s, userID, categoryID).Cast()
    ensures Authorize(s, userID, categoryID).Ok? ==>
      var c := Authorize(s, userID, categoryID).value;
      var v := ValidatePut(s, userID, putPayload);
      if verb == "get" then r == Ok(Formatter.FormatCategory(c))
      else if verb == "put" then
        if !v.Ok? then r == v.Cast()
        else match save(Moved(c, v.value))
          case Found(saved) => r == Ok(Formatter.FormatCategory(saved))
          case Failed(e) => r == Categories.SaveError(e)
      else if verb == "delete" then r == HandleDelete(c, deletePayload, remove)
      else r == ServerError
  {
    var authorized := Authorize(s, userID, categoryID);
    if !authorized.Ok? {
      return authorized.Cast();
    }
    var category := authorized.value;
    if verb == "get" {
      r := Ok(Formatter.FormatCategory(category));
    } else if verb == "put" {
      var validated := ValidatePut(s, userID, putPayload);
      if !validated.Ok? {
        return validated.Cast();
      }
      r := HandlePut(category, validated.value, save);
    } else if verb == "delete" {
      r := HandleDelete(category, deletePayload, remove);
    } else {
      r := ServerError;
    }
  }
}
