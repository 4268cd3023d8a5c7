/** handlers/accounts-id.js: `GET /accounts/{id}`. */
module AccountsId {
  import opened Js
  import opened Http
  import opened TimeCore

  /** `GET_HANDLER`: existence first (404 when missing, 500 on any other
      fetch error), then membership (401), then the account's id and users. */
  function Get(s: Store, userID: int, accountID: int): (r: Outcome<Object>)
    ensures r.NotFound? <==> s.accounts.Missing(accountID)
    ensures r.ServerError? <==> accountID in s.accounts.faults && s.accounts.faults[accountID] != DataNotFound
    ensures r.Unauthorized? <==> s.accounts.Has(accountID) && userID !in s.accounts.rows[accountID].userIDs
    ensures r.Ok? <==> s.accounts.Has(accountID) && userID in s.accounts.rows[accountID].userIDs
    ensures r.Ok? ==>
      && r.value.Keys == {"id", "user_ids"}
      && r.value["id"] == Num(s.accounts.rows[accountID].id)
      && r.value["user_ids"] == IntArray(s.accounts.rows[accountID].userIDs)
  {
    match s.accounts.Fetch(accountID)
    case Failed(e) => if e == DataNotFound then NotFound else ServerError
    case Found(account) =>
      if userID !in account.userIDs then Unauthorized(UNAUTHORIZED)
      else Ok(map["id" := Num(account.id), "user_ids" := IntArray(account.userIDs)])
  }

  /** Existence is checked before membership: an account that does not exist
      is a 404 for everyone, outsiders included. */
  lemma MissingAccountIsNotFoundForAnyone(s: Store, u1: int, u2: int, accountID: int)
    requires s.accounts.Missing(accountID)
    ensures Get(s, u1, accountID) == Get(s, u2, accountID) == NotFound
  {
  }
}
