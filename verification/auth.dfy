/** Registration, login and `/me` (blueprints/auth.py). `register`
    changes the user table and is `Backend.Store.Register`; this module
    holds what it and the admin `create_user` build, and the two
    read-only routes. Passwords are stored and compared as given. */
module Auth {
  import opened Models
  import opened Tokens

  /** Lifetime of a login token: 24 hours, in seconds. */
  const TokenLifetime: int := 24 * 60 * 60

  /** A signed token's payload: the claims and its `exp`. */
  datatype Issued = Issued(claims: Claims, expiry: Time)

  /** The user `register` and `create_user` build from a body: username
      and password are required, is_admin is false when absent or null. None when the
      body is missing, a required key is absent, or a value does not fit
      its column. */
  function UserFromBody(body: Option<Body>): (r: Option<User>)
    ensures body.None? || "username" !in body.value || "password" !in body.value ==> r.None?
    ensures r.Some? <==>
      && body.Some? && "username" in body.value && "password" in body.value
      && body.value["username"].Str? && body.value["password"].Str?
      && ("is_admin" in body.value ==> !body.value["is_admin"].Str?)
    ensures r.Some? ==>
      && body.value["username"] == Str(r.value.username)
      && body.value["password"] == Str(r.value.password)
      && r.value.isAdmin == ("is_admin" in body.value && body.value["is_admin"] == Bool(true))
  {
    if body.None? then None
    else
      var b := body.value;
      if !("username" in b && "password" in b && TextFits(b, "username") && TextFits(b, "password")
           && NewFlagFits(b, "is_admin"))
      then None
      else Some(User(b["username"].s, b["password"].s, NewFlag(b, "is_admin")))
  }

  /** The claims `login` signs for the user row `id`. */
  function ClaimsOf(id: Id, u: User): Claims {
    Claims(id, u.username, u.isAdmin)
  }

  /** A user row whose username and password equal the given body values. */
  predicate Credentials(u: User, username: Value, password: Value) {
    username == Str(u.username) && password == Str(u.password)
  }

  /** `login`: 400 for an empty or absent body, a missing username or a
      missing password (checked before the table is read); 500 when the
      username is a Boolean, which the lookup cannot compare with the
      string column and nothing catches; 401 when no stored user has these
      credentials (a JSON null matches no row); else a token for that user
      valid for 24 hours from `now`. */
  function Login(users: map<Id, User>, body: Option<Body>, now: Time): (r: Reply<Issued>)
    requires UniqueUsernames(users)
    ensures body.None? || body.value == map[] ==> r == Failed(400)
    ensures body.Some? && ("username" !in body.value || "password" !in body.value) ==> r == Failed(400)
    ensures body.Some? && "username" in body.value && "password" in body.value ==>
      && (r.Done? <==> exists id :: id in users && Credentials(users[id], body.value["username"], body.value["password"]))
      && (body.value["username"].Bool? ==> r == Failed(500))
      && (r.Failed? && !body.value["username"].Bool? ==> r.status == 401)
    ensures r.Done? ==>
      && r.status == 200
      && r.value.expiry == now + TokenLifetime
      && exists id :: id in users && Credentials(users[id], body.value["username"], body.value["password"])
                      && r.value.claims == ClaimsOf(id, users[id])
  {
    if body.None? || body.value == map[] then Failed(400)
    else if "username" !in body.value then Failed(400)
    else if "password" !in body.value then Failed(400)
    else
      var name := body.value["username"];
      if name.Bool? then Failed(500)
      else if name.Str? && !UsernameFree(users, name.s) then
        var id :| id in users && users[id].username == name.s;
        if body.value["password"] != Str(users[id].password) then Failed(401)
        else Done(200, Issued(ClaimsOf(id, users[id]), now + TokenLifetime))
      else Failed(401)
  }

  /** `me`: the claims of the presented token, or 401. */
  function Me(header: Option<string>, decode: string -> Decoded): (r: Reply<Claims>)
    ensures Credential(header).None? ==> r == Failed(401)
    ensures r.Failed? ==> r.status == 401
    ensures r.Done? <==> Credential(header).Some? && decode(Credential(header).value).Verified?
    ensures r.Done? ==> r.status == 200 && r.value == decode(Credential(header).value).claims
  {
    match Authenticate(header, decode)
    case Admit(claims) => Done(200, claims)
    case Refuse(status) => Failed(status)
  }

  /** A token that login issued, sent back as "Bearer <token>", is answered
      by `me` with the stored user's id, username and admin flag. */
  lemma {:induction false} MeEchoesLogin(
    users: map<Id, User>, body: Option<Body>, now: Time, token: string, decode: string -> Decoded)
    requires UniqueUsernames(users)
    requires Login(users, body, now).Done?
    requires decode(token) == Verified(Login(users, body, now).value.claims)
    ensures exists id :: id in users && Me(Some(BearerPrefix + token), decode) == Done(200, ClaimsOf(id, users[id]))
  {
    StripBearerPrefixed(token);
    assert Credential(Some(BearerPrefix + token)) == Some(token);
  }
}
