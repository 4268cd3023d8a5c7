/** handlers/users.js: `POST /users` (registration) and `PUT /users/{id}`
    (update), served by one handler over a time-core user object. */
module Users {
  import opened Js
  import opened Http
  import opened TimeCore

  const DUPLICATE_MARKER := "ER_DUP_ENTRY"

  /** The payload of either route. */
  datatype Payload = Payload(
    email: Option<string>,
    password: Option<string>,
    newPassword: Option<string>,
    oldPassword: Option<string>)

  predicate NonEmpty(o: Option<string>) {
    o.Some? ==> o.value != ""
  }

  /** `POST_PAYLOAD`: `email` and `password` are required. */
  predicate ValidPostPayload(p: Payload) {
    && p.email.Some? && p.password.Some?
    && p.newPassword.None? && p.oldPassword.None?
    && NonEmpty(p.email) && NonEmpty(p.password)
  }

  /** `PUT_PAYLOAD`: `email` or `new_password`; `new_password` and
      `old_password` only together. */
  predicate ValidPutPayload(p: Payload) {
    && (p.email.Some? || p.newPassword.Some?)
    && (p.newPassword.Some? <==> p.oldPassword.Some?)
    && p.password.None?
    && NonEmpty(p.email) && NonEmpty(p.newPassword) && NonEmpty(p.oldPassword)
  }

  /** The guard of `HANDLER`: a truthy `params.id` that is not the
      authenticated user's id. */
  predicate ForeignID(paramsID: Option<int>, credentialUserID: int) {
    IntGiven(paramsID) && paramsID.value != credentialUserID
  }

  /** The fields of a time-core user that the handler reads or writes. */
  datatype UserRecord = UserRecord(id: Option<int>, email: Option<string>)

  /** The time-core calls the handler makes, in order. */
  datatype UserCall =
    | Fetch(id: int)
    | SetPassword(password: string)
    | Verify(password: string)
    | Save(user: UserRecord)

  /** What time-core answers to each call: `fetch` gives the stored user,
      `save` the user's id once saved; the others may fail. */
  datatype UserService = UserService(
    fetch: int -> Fetched<UserRecord>,
    setPassword: string -> Option<TimeError>,
    verify: string -> Option<TimeError>,
    save: UserRecord -> Fetched<int>)

  /** The error a call fails with, if any. */
  function CallError(users: UserService, c: UserCall): Option<TimeError> {
    match c
    case Fetch(id) => if users.fetch(id).Failed? then Some(users.fetch(id).error) else None
    case SetPassword(pw) => users.setPassword(pw)
    case Verify(pw) => users.verify(pw)
    case Save(u) => if users.save(u).Failed? then Some(users.save(u).error) else None
  }

  /** The user that is saved when every earlier call succeeds: the fetched
      user (or a blank new one) with its e-mail replaced when one is given. */
  function FinalRecord(paramsID: Option<int>, p: Payload, users: UserService): UserRecord {
    var base := if paramsID.Some? && users.fetch(paramsID.value).Found?
                then users.fetch(paramsID.value).value else UserRecord(None, None);
    if TextGiven(p.email) then base.(email := p.email) else base
  }

  /** Every call the handler makes when none of them fails. */
  function Plan(paramsID: Option<int>, p: Payload, users: UserService): seq<UserCall>
    requires ValidPostPayload(p) || ValidPutPayload(p)
  {
    (if paramsID.Some? then [Fetch(paramsID.value)] else [])
    + (if TextGiven(p.password) then [SetPassword(p.password.value)] else [])
    + (if TextGiven(p.newPassword) then [Verify(p.oldPassword.value), SetPassword(p.newPassword.value)] else [])
    + [Save(FinalRecord(paramsID, p, users))]
  }

  /** In an update, the new password is handed to time-core only right after
      the old one has been verified. */
  lemma {:induction false} NewPasswordFollowsVerify(paramsID: Option<int>, p: Payload, users: UserService)
    requires ValidPutPayload(p) && TextGiven(p.newPassword)
    ensures var plan := Plan(paramsID, p, users);
      forall i :: 0 <= i < |plan| && plan[i] == SetPassword(p.newPassword.value) ==>
        i > 0 && plan[i - 1] == Verify(p.oldPassword.value)
  {
    var plan := Plan(paramsID, p, users);
    var head := if paramsID.Some? then [Fetch(paramsID.value)] else [];
    assert plan == head + [Verify(p.oldPassword.value), SetPassword(p.newPassword.value)]
                        + [Save(FinalRecord(paramsID, p, users))];
    forall i | 0 <= i < |plan| && plan[i] == SetPassword(p.newPassword.value)
      ensures i > 0 && plan[i - 1] == Verify(p.oldPassword.value)
    {
      assert i == |head| + 1;
    }
  }

  /** The `catch` of `HANDLER`. */
  function ErrorResponse(e: TimeError): (r: Outcome<Object>)
    ensures r.BadRequest? <==> e == DataIncorrectFormat || e == AuthInvalidPassword
    ensures r.BadRequest? ==> r.message == BAD_REQUEST
    ensures r.Conflict? <==> !r.BadRequest? && Contains(Message(e), DUPLICATE_MARKER)
    ensures r.BadRequest? || r.Conflict? || r.ServerError?
  {
    if e == DataIncorrectFormat || e == AuthInvalidPassword then BadRequest(BAD_REQUEST)
    else if Contains(Message(e), DUPLICATE_MARKER) then Conflict
    else ServerError
  }

  /** MySQL's duplicate-key error, whatever surrounds the marker, is a 409. */
  lemma DuplicateEntryIsConflict(before: string, after: string)
    ensures ErrorResponse(Other(before + DUPLICATE_MARKER + after)) == Conflict
  {
    ContainsPiece(before, DUPLICATE_MARKER, after);
  }

  /** The time-core user object the handler builds or fetches and then mutates. */
  class User {
    var id: Option<int>
    var email: Option<string>
    /** The last password handed to `setPassword`; hashing is time-core's. */
    var password: Option<string>

    function Record(): UserRecord
      reads this
    {
      UserRecord(id, email)
    }

    /** `new Time.User()`. */
    constructor Blank()
      ensures Record() == UserRecord(None, None) && password.None?
    {
      id, email, password := None, None, None;
    }

    /** The user `Time.User.fetch` returned. */
    constructor Load(u: UserRecord)
      ensures Record() == u && password.None?
    {
      id, email, password := u.id, u.email, None;
    }

    /** `user.email = email`. */
    method SetEmail(e: string)
      modifies this
      ensures Record() == old(Record()).(email := Some(e)) && password == old(password)
    {
      email := Some(e);
    }

    /** `user.setPassword(pw)`, which time-core may refuse with `error`. */
    method SetPassword(pw: string, error: Option<TimeError>) returns (failure: Option<TimeError>)
      modifies this
      ensures failure == error && Record() == old(Record())
      ensures password == if error.None? then Some(pw) else old(password)
    {
      failure := error;
      if error.None? {
        password := Some(pw);
      }
    }
  }

  /** `HANDLER`. `paramsID` is `request.params.id` (absent on `POST`),
      `credentialUserID` the authenticated user's id. Besides the response it
      returns the time-core calls made, in order. */
  method Handle(paramsID: Option<int>, credentialUserID: int, p: Payload, users: UserService)
    returns (r: Outcome<Object>, calls: seq<UserCall>)
    requires ValidPostPayload(p) || ValidPutPayload(p)
    ensures ForeignID(paramsID, credentialUserID) ==> r == Unauthorized(UNAUTHORIZED) && calls == []
    ensures !ForeignID(paramsID, credentialUserID) ==> calls != [] && calls <= Plan(paramsID, p, users)
    ensures forall i :: 0 <= i < |calls| - 1 ==> CallError(users, calls[i]).None?
    ensures !ForeignID(paramsID, credentialUserID) ==>
      (r.Ok? <==> calls == Plan(paramsID, p, users) && CallError(users, calls[|calls| - 1]).None?)
    ensures !ForeignID(paramsID, credentialUserID) && !r.Ok? ==>
      CallError(users, calls[|calls| - 1]).Some? && r == ErrorResponse(CallError(users, calls[|calls| - 1]).value)
    ensures r.Ok? ==>
      var saved := FinalRecord(paramsID, p, users);
      r.value == map["id" := Num(users.save(saved).value), "email" := StrValue(saved.email)]
    ensures ValidPutPayload(p) && TextGiven(p.newPassword) ==>
      forall i :: 0 <= i < |calls| && calls[i] == SetPassword(p.newPassword.value) ==>
        i > 0 && calls[i - 1] == Verify(p.oldPassword.value) && users.verify(p.oldPassword.value).None?
  {
    calls := [];
    if ForeignID(paramsID, credentialUserID) {
      return Unauthorized(UNAUTHORIZED), [];
    }
    ghost var plan := Plan(paramsID, p, users);
    ghost var fetching := if paramsID.Some? then [Fetch(paramsID.value)] else [];
    ghost var setting := if TextGiven(p.password) then [SetPassword(p.password.value)] else [];
    ghost var changing := if TextGiven(p.newPassword)
      then [Verify(p.oldPassword.value), SetPassword(p.newPassword.value)] else [];
    assert plan == fetching + setting + changing + [Save(FinalRecord(paramsID, p, users))];
    var user: User;
    if paramsID.Some? {
      calls := [Fetch(paramsID.value)];
      var fetched := users.fetch(paramsID.value);
      if fetched.Failed? {
        return ErrorResponse(fetched.error), calls;
      }
      user := new User.Load(fetched.value);
    } else {
      user := new User.Blank();
    }

    assert calls == fetching;
    if TextGiven(p.email) {
      user.SetEmail(p.email.value);
    }

    if TextGiven(p.password) {
      calls := calls + [SetPassword(p.password.value)];
      var failure := user.SetPassword(p.password.value, users.setPassword(p.password.value));
      if failure.Some? {
        return ErrorResponse(failure.value), calls;
      }
    }
    assert calls == fetching + setting;

    if TextGiven(p.newPassword) {
      calls := calls + [Verify(p.oldPassword.value)];
      assert calls <= plan;
      var rejected := users.verify(p.oldPassword.value);
      if rejected.Some? {
        return ErrorResponse(rejected.value), calls;
      }
      calls := calls + [SetPassword(p.newPassword.value)];
      assert calls == fetching + setting + changing;
      var failure := user.SetPassword(p.newPassword.value, users.setPassword(p.newPassword.value));
      if failure.Some? {
        return ErrorResponse(failure.value), calls;
      }
    }

    var record := user.Record();
    assert record == FinalRecord(paramsID, p, users);
    calls := calls + [Save(record)];
    assert calls == plan;
    match users.save(record)
    case Failed(e) =>
      r := ErrorResponse(e);
    case Found(id) =>
      r := Ok(map["id" := Num(id), "email" := StrValue(record.email)]);
  }
}
