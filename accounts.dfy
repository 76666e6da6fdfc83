/** The user table and the three account routes: signup changes the table in
    place; login and the `/me` lookup only read it. */
module Accounts {
  import opened Http

  /** One row of the user table: an integer primary key, the e-mail address
      (unique) and the stored password digest. */
  datatype User = User(id: int, email: string, password: string)

  /** The password hashing library, kept abstract: `hash(password, salt)` is the
      digest stored for a password under a random salt, `check(digest, password)`
      the library's verification. */
  datatype Hasher = Hasher(hash: (string, string) -> string, check: (string, string) -> bool)

  /** A hasher accepts every password against a digest made from it. */
  ghost predicate Sound(h: Hasher)
  {
    forall password, salt :: h.check(h.hash(password, salt), password)
  }

  /** The table's invariant: ids are positive, and no two rows share an id or an
      e-mail address (the primary key and the unique column). */
  predicate WellFormed(rows: seq<User>)
  {
    && (forall i :: 0 <= i < |rows| ==> rows[i].id >= 1)
    && (forall i, j :: 0 <= i < j < |rows| ==> rows[i].id != rows[j].id && rows[i].email != rows[j].email)
  }

  /** The largest id in the table, 0 for an empty table. */
  function MaxId(rows: seq<User>): (m: int)
    ensures m >= 0
    ensures forall i :: 0 <= i < |rows| ==> rows[i].id <= m
    ensures m == 0 || exists i :: 0 <= i < |rows| && rows[i].id == m
  {
    if rows == [] then 0
    else
      var rest := MaxId(rows[..|rows| - 1]);
      var last := rows[|rows| - 1].id;
      if last > rest then last else rest
  }

  /** The id the database gives the next row of an integer primary key column
      with no deletions: one more than the largest id so far. */
  function NextId(rows: seq<User>): (id: int)
    ensures id >= 1
    ensures forall i :: 0 <= i < |rows| ==> rows[i].id < id
  {
    MaxId(rows) + 1
  }

  /** The first row that satisfies `matches`, as a query's `first()` returns it. */
  function First(rows: seq<User>, matches: User -> bool): (r: Option<User>)
    ensures r.None? <==> forall i :: 0 <= i < |rows| ==> !matches(rows[i])
    ensures r.Some? ==> exists i :: && 0 <= i < |rows| && rows[i] == r.value && matches(r.value)
                                   && forall j :: 0 <= j < i ==> !matches(rows[j])
  {
    if rows == [] then None
    else if matches(rows[0]) then Some(rows[0])
    else First(rows[1..], matches)
  }

  /** `User.query.filter_by(email=email).first()` */
  function FindByEmail(rows: seq<User>, email: string): Option<User>
  {
    First(rows, (u: User) => u.email == email)
  }

  /** `User.query.get(id)`: lookup by primary key. */
  function FindById(rows: seq<User>, id: int): Option<User>
  {
    First(rows, (u: User) => u.id == id)
  }

  /** In a well-formed table a lookup by e-mail finds the one row holding that
      address, and finds nothing exactly when no row holds it. */
  lemma FindByEmailExact(rows: seq<User>, email: string)
    requires WellFormed(rows)
    ensures FindByEmail(rows, email).None? <==> forall i :: 0 <= i < |rows| ==> rows[i].email != email
    ensures forall i :: 0 <= i < |rows| && rows[i].email == email ==> FindByEmail(rows, email) == Some(rows[i])
  {
  }

  /** In a well-formed table a lookup by id finds the one row with that id. */
  lemma FindByIdExact(rows: seq<User>, id: int)
    requires WellFormed(rows)
    ensures FindById(rows, id).None? <==> forall i :: 0 <= i < |rows| ==> rows[i].id != id
    ensures forall i :: 0 <= i < |rows| && rows[i].id == id ==> FindById(rows, id) == Some(rows[i])
  {
  }

  /** The row a successful signup inserts, and the table after it. Inserting an
      address the table does not hold keeps the table well formed, and every
      earlier row stays where and as it was. */
  function Insert(rows: seq<User>, email: string, digest: string): (r: seq<User>)
    requires WellFormed(rows)
    requires FindByEmail(rows, email).None?
    ensures WellFormed(r)
    ensures |r| == |rows| + 1 && r[..|rows|] == rows
    ensures r[|rows|].email == email && r[|rows|].password == digest
    ensures forall i :: 0 <= i < |rows| ==> r[|rows|].id != rows[i].id
  {
    rows + [User(NextId(rows), email, digest)]
  }

  /** The user table: a class whose rows the signup route appends to. */
  class UserTable {
    var rows: seq<User>

    ghost predicate Valid()
      reads this
    {
      WellFormed(rows)
    }

    constructor ()
      ensures Valid() && rows == []
    {
      rows := [];
    }

    /** POST /signup. A missing or empty field gives 400, an address already in
        the table 409, both without touching the table; otherwise one row holding
        the address and the digest of the password is appended and 201 returned. */
    method Signup(email: Option<string>, password: Option<string>, hasher: Hasher, salt: string)
      returns (r: Response)
      requires Valid()
      modifies this
      ensures Valid()
      ensures !Present(email) || !Present(password) ==>
                r == Response(BadRequest, Error("Email & password are required")) && rows == old(rows)
      ensures Present(email) && Present(password) && FindByEmail(old(rows), email.value).Some? ==>
                r == Response(Conflict, Error("Email already exists")) && rows == old(rows)
      ensures Present(email) && Present(password) && FindByEmail(old(rows), email.value).None? ==>
                && r == Response(Created, Message("Account created successfully"))
                && rows == old(rows) + [User(NextId(old(rows)), email.value, hasher.hash(password.value, salt))]
    {
      if !Present(email) || !Present(password) {
        return Response(BadRequest, Error("Email & password are required"));
      }
      if FindByEmail(rows, email.value).Some? {
        return Response(Conflict, Error("Email already exists"));
      }
      var digest := hasher.hash(password.value, salt);
      rows := Insert(rows, email.value, digest);
      r := Response(Created, Message("Account created successfully"));
    }
  }

  /** POST /login, a read of the table whose outcomes are checked in a fixed
      order: missing fields, unknown address, wrong password, success with a
      token for the matched user's id. */
  function Login(rows: seq<User>, email: Option<string>, password: Option<string>, hasher: Hasher): (r: Response)
    ensures r.status == BadRequest <==> !Present(email) || !Present(password)
    ensures r.status == NotFound <==>
              Present(email) && Present(password) && FindByEmail(rows, email.value).None?
    ensures r.status == Unauthorized <==>
              && Present(email) && Present(password)
              && FindByEmail(rows, email.value).Some?
              && !hasher.check(FindByEmail(rows, email.value).value.password, password.value)
    ensures r.status == Ok <==> r.body.LoginBody?
    ensures r.status in {BadRequest, NotFound, Unauthorized, Ok}
    ensures r.body.LoginBody? ==>
              exists i :: && 0 <= i < |rows|
                          && rows[i].email == email.value
                          && hasher.check(rows[i].password, password.value)
                          && r.body.token == Token(rows[i].id)
  {
    if !Present(email) || !Present(password) then
      Response(BadRequest, Error("Email & password required"))
    else
      match FindByEmail(rows, email.value)
      case None => Response(NotFound, Error("User not found"))
      case Some(user) =>
        if !hasher.check(user.password, password.value) then
          Response(Unauthorized, Error("Invalid password"))
        else
          Response(Ok, LoginBody(Token(user.id), "Login successful"))
  }

  /** GET /me, after the token gate has admitted the request with `identity`:
      the matching row's id and address, or a server error when no row has that
      id (the route dereferences the missing row). */
  function Me(rows: seq<User>, identity: int): (r: Response)
    ensures r.status == Ok <==> exists i :: 0 <= i < |rows| && rows[i].id == identity
    ensures r.status != Ok ==> r == Response(InternalError, ServerError)
    ensures r.status == Ok ==>
              exists i :: 0 <= i < |rows| && rows[i].id == identity && r.body == Profile(identity, rows[i].email)
  {
    match FindById(rows, identity)
    case None => Response(InternalError, ServerError)
    case Some(user) => Response(Ok, Profile(user.id, user.email))
  }

  /** Signing up with a fresh address and then logging in with the same
      credentials succeeds, and the token names the new row's id. */
  lemma SignupThenLogin(rows: seq<User>, email: string, password: string, hasher: Hasher, salt: string)
    requires WellFormed(rows) && Sound(hasher)
    requires email != "" && password != ""
    requires FindByEmail(rows, email).None?
    ensures Login(Insert(rows, email, hasher.hash(password, salt)), Some(email), Some(password), hasher)
            == Response(Ok, LoginBody(Token(NextId(rows)), "Login successful"))
  {
  }

  /** Once an address is in the table, a second signup with it is refused:
      after an insert the lookup finds the new row. */
  lemma InsertThenFind(rows: seq<User>, email: string, digest: string)
    requires WellFormed(rows)
    requires FindByEmail(rows, email).None?
    ensures FindByEmail(Insert(rows, email, digest), email) == Some(User(NextId(rows), email, digest))
  {
  }

  /** A token issued by login identifies exactly the user who logged in: `/me`
      with its identity returns that user's id and the address used to log in. */
  lemma LoginThenMe(rows: seq<User>, email: Option<string>, password: Option<string>, hasher: Hasher)
    requires WellFormed(rows)
    requires Login(rows, email, password, hasher).status == Ok
    ensures Me(rows, Login(rows, email, password, hasher).body.token.identity)
            == Response(Ok, Profile(Login(rows, email, password, hasher).body.token.identity, email.value))
  {
  }
}
