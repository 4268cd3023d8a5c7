/** handlers/categories.js: `GET /categories` (every category of the user's
    accounts) and `POST /categories` (create a category). */
module Categories {
  import opened Js
  import opened Http
  import opened TimeCore
  import opened Seqs
  import Formatter

  const MISMATCH_MESSAGE := "Mismatched Parent and Account IDs"

  /** The payload of `POST /categories`. */
  datatype PostPayload = PostPayload(accountID: Option<int>, name: Option<string>, parentID: Option<int>)

  /** `POST_PAYLOAD`: `account_id` and a non-empty `name` are required, `parent_id` is optional. */
  predicate ValidPostPayload(p: PostPayload) {
    p.accountID.Some? && p.name.Some? && p.name.value != ""
  }

  /** The `reduce` that looks for the target among the user's accounts. */
  function ListsAccount(accounts: seq<Account>, accountID: int): (b: bool)
    ensures b <==> exists a :: a in accounts && a.id == accountID
  {
    if accounts == [] then false
    else
      var init := accounts[..|accounts| - 1];
      var b := ListsAccount(init, accountID) || accounts[|accounts| - 1].id == accountID;
      assert forall a :: a in accounts <==> a in init || a == accounts[|accounts| - 1] by {
        assert accounts == init + [accounts[|accounts| - 1]];
      }
      b
  }

  /** `POST_HANDLER_REQUEST_VALIDATION`. `userAccounts` is the result of
      `Account.findForUser`, whose failure escapes as a 500. The account check
      comes first; then a given parent must be readable (any failure is a 400). */
  function ValidatePost(s: Store, userAccounts: Fetched<seq<Account>>, p: PostPayload): (r: Outcome<()>)
    requires ValidPostPayload(p)
    ensures r.ServerError? <==> userAccounts.Failed?
    ensures r.Unauthorized? <==>
      userAccounts.Found? && !(exists a :: a in userAccounts.value && a.id == p.accountID.value)
    ensures r.Unauthorized? ==> r.message == UNAUTHORIZED
    ensures r.BadRequest? <==>
      && userAccounts.Found? && (exists a :: a in userAccounts.value && a.id == p.accountID.value)
      && IntGiven(p.parentID) && !s.categories.Has(p.parentID.value)
    ensures r.BadRequest? ==> r.message == BAD_REQUEST
    ensures !r.NotFound? && !r.Conflict?
  {
    if userAccounts.Failed? then ServerError
    else
      var accounts := userAccounts.value;
      var hasAccounts := |accounts| > 0;
      var validAccount := ListsAccount(accounts, p.accountID.value);
      if !(hasAccounts && validAccount) then Unauthorized(UNAUTHORIZED)
      else if IntGiven(p.parentID) && !s.categories.Fetch(p.parentID.value).Found? then BadRequest(BAD_REQUEST)
      else Ok(())
  }

  /** The category `POST_HANDLER` asks time-core to create. */
  datatype NewCategory = NewCategory(name: string, accountID: int, parentID: Option<int>)

  /** The `catch` around `category.save()`, in `POST_HANDLER` and in `HANDLE_PUT`
      of `/categories/{id}` alike: only the parent/account mismatch is a client error. */
  function SaveError(e: TimeError): (r: Outcome<Object>)
    ensures r.BadRequest? <==> e == CategoryInconsistentParentAndAccount
    ensures r.BadRequest? ==> r.message == MISMATCH_MESSAGE
    ensures !r.BadRequest? ==> r == ServerError
  {
    if e == CategoryInconsistentParentAndAccount then BadRequest(MISMATCH_MESSAGE) else ServerError
  }

  /** `POST_HANDLER`. `save(request)` is the result of `category.save()` on the
      category built from `request`: the category as time-core has stored it
      (with its new id, and under the account's root when no parent was
      given), or the error it throws. */
  function Post(s: Store, userAccounts: Fetched<seq<Account>>, p: PostPayload,
                save: NewCategory -> Fetched<Category>): (r: Outcome<Object>)
    requires ValidPostPayload(p)
    ensures !ValidatePost(s, userAccounts, p).Ok? ==> r == ValidatePost(s, userAccounts, p).Cast()
    ensures ValidatePost(s, userAccounts, p).Ok? ==>
      match save(NewCategory(p.name.value, p.accountID.value, p.parentID))
      case Found(saved) => r == Ok(Formatter.FormatCategory(saved))
      case Failed(e) => r == SaveError(e)
  {
    match ValidatePost(s, userAccounts, p)
    case Ok(_) =>
      var request := NewCategory(p.name.value, p.accountID.value, p.parentID);
      (match save(request)
       case Found(saved) => Ok(Formatter.FormatCategory(saved))
       case Failed(e) => SaveError(e))
    case BadRequest(m) => BadRequest(m)
    case Unauthorized(m) => Unauthorized(m)
    case NotFound => NotFound
    case Conflict => Conflict
    case ServerError => ServerError
  }

  /** An account the user does not hold is refused with 401 before the parent
      is even looked at, whatever the store would answer. */
  lemma ForeignAccountBeforeParent(s: Store, userAccounts: seq<Account>, p: PostPayload,
                                   save: NewCategory -> Fetched<Category>)
    requires ValidPostPayload(p)
    requires forall a :: a in userAccounts ==> a.id != p.accountID.value
    ensures Post(s, Found(userAccounts), p, save) == Unauthorized(UNAUTHORIZED)
  {
  }

  /** A parent in another account passes the pre-checks; the store's
      consistency error then becomes the 400 with the mismatch message. */
  lemma ForeignParentIsMismatch(s: Store, userAccounts: seq<Account>, p: PostPayload,
                                save: NewCategory -> Fetched<Category>)
    requires ValidPostPayload(p)
    requires exists a :: a in userAccounts && a.id == p.accountID.value
    requires IntGiven(p.parentID) && s.categories.Has(p.parentID.value)
    requires save(NewCategory(p.name.value, p.accountID.value, p.parentID)) == Failed(CategoryInconsistentParentAndAccount)
    ensures Post(s, Found(userAccounts), p, save) == BadRequest(MISMATCH_MESSAGE)
  {
  }

  /** The user's accounts, kept only where the query's `account_id` list (when given) names them. */
  function PermittedAccounts(userAccounts: seq<Account>, filter: Option<seq<int>>): (r: seq<Account>)
    ensures forall a :: a in r <==> a in userAccounts && (filter.Some? ==> a.id in filter.value)
    ensures IsSubsequence(r, userAccounts)
  {
    if filter.Some? then
      var keep := (a: Account) => a.id in filter.value;
      FilterIsSubsequence(userAccounts, keep);
      Filter(userAccounts, keep)
    else
      SubsequenceRefl(userAccounts);
      userAccounts
  }

  /** `Category.findForAccount` succeeded for every account: otherwise
      `Promise.all` rejects and the handler fails. */
  predicate AllListed(accounts: seq<Account>, findForAccount: Account -> Fetched<seq<Category>>) {
    forall a :: a in accounts ==> findForAccount(a).Found?
  }

  /** The categories of the accounts, account after account. */
  function CategoriesFor(accounts: seq<Account>, findForAccount: Account -> Fetched<seq<Category>>): (r: seq<Category>)
    requires AllListed(accounts, findForAccount)
    ensures accounts == [] ==> r == []
    ensures |r| == TotalLength(seq(|accounts|, i requires 0 <= i < |accounts| => findForAccount(accounts[i]).value))
    ensures forall c :: c in r <==> exists a :: a in accounts && c in findForAccount(a).value
  {
    var lists := seq(|accounts|, i requires 0 <= i < |accounts| => findForAccount(accounts[i]).value);
    var r := Concat(lists);
    assert forall c :: c in r <==> exists a :: a in accounts && c in findForAccount(a).value by {
      forall c ensures c in r <==> exists a :: a in accounts && c in findForAccount(a).value {
        if c in r {
          var i :| 0 <= i < |lists| && c in lists[i];
          assert accounts[i] in accounts && c in findForAccount(accounts[i]).value;
        }
        if exists a :: a in accounts && c in findForAccount(a).value {
          var a :| a in accounts && c in findForAccount(a).value;
          var i :| 0 <= i < |accounts| && accounts[i] == a;
          assert c in lists[i];
        }
      }
    }
    r
  }

  /** One more account appends its own categories at the end: the list is
      the accounts' categories in account order. */
  lemma CategoriesForSnoc(accounts: seq<Account>, a: Account, findForAccount: Account -> Fetched<seq<Category>>)
    requires AllListed(accounts + [a], findForAccount)
    ensures AllListed(accounts, findForAccount)
    ensures CategoriesFor(accounts + [a], findForAccount) == CategoriesFor(accounts, findForAccount) + findForAccount(a).value
  {
    var lists := seq(|accounts|, i requires 0 <= i < |accounts| => findForAccount(accounts[i]).value);
    var more := accounts + [a];
    var lists' := seq(|more|, i requires 0 <= i < |more| => findForAccount(more[i]).value);
    assert lists' == lists + [findForAccount(a).value];
    ConcatSnoc(lists, findForAccount(a).value);
  }

  /** `GET_HANDLER`: the formatted categories of every permitted account, in
      account order. A failing `Account.findForUser` or `Category.findForAccount`
      escapes as a 500. */
  function Get(userAccounts: Fetched<seq<Account>>, filter: Option<seq<int>>,
               findForAccount: Account -> Fetched<seq<Category>>): (r: Outcome<seq<Object>>)
    ensures r.Ok? || r.ServerError?
    ensures r.Ok? <==> userAccounts.Found? && AllListed(PermittedAccounts(userAccounts.value, filter), findForAccount)
    ensures r.Ok? ==>
      var cs := CategoriesFor(PermittedAccounts(userAccounts.value, filter), findForAccount);
      |r.value| == |cs| && forall i :: 0 <= i < |r.value| ==> r.value[i] == Formatter.FormatCategory(cs[i])
  {
    if userAccounts.Failed? then ServerError
    else
      var accounts := PermittedAccounts(userAccounts.value, filter);
      if !AllListed(accounts, findForAccount) then ServerError
      else
        var cs := CategoriesFor(accounts, findForAccount);
        Ok(seq(|cs|, i requires 0 <= i < |cs| => Formatter.FormatCategory(cs[i])))
  }

  /** When the queries succeed, a category is listed exactly when it belongs
      to one of the user's accounts that the filter admits. */
  lemma GetListsExactlyPermittedCategories(userAccounts: seq<Account>, filter: Option<seq<int>>,
                                           findForAccount: Account -> Fetched<seq<Category>>, c: Category)
    requires AllListed(PermittedAccounts(userAccounts, filter), findForAccount)
    ensures Get(Found(userAccounts), filter, findForAccount).Ok?
    ensures Formatter.FormatCategory(c) in Get(Found(userAccounts), filter, findForAccount).value <==>
      exists a :: a in userAccounts && (filter.Some? ==> a.id in filter.value) && c in findForAccount(a).value
  {
    var r := Get(Found(userAccounts), filter, findForAccount).value;
    var cs := CategoriesFor(PermittedAccounts(userAccounts, filter), findForAccount);
    if Formatter.FormatCategory(c) in r {
      var i :| 0 <= i < |r| && r[i] == Formatter.FormatCategory(c);
      Formatter.CategoryRoundTrip(c);
      Formatter.CategoryRoundTrip(cs[i]);
      assert cs[i] == c;
    }
    if c in cs {
      var i :| 0 <= i < |cs| && cs[i] == c;
      assert r[i] == Formatter.FormatCategory(c);
    }
  }
}
