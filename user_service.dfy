/**
 * backend/services/user.service.js: registration with a unique e-mail, lookup by
 * Firebase uid, and update of the user found by uid.
 */
module UserService {
  import opened Wrappers
  import opened Seqs
  import opened Records

  const DuplicateMessage := "User with this email already exists"
  const NotFoundMessage := "User not found"

  /** The `{email, username, firebaseUid}` read from the registration data. */
  datatype Registration = Registration(email: string, username: string, uid: Uid)

  /** No two stored users share an e-mail. */
  predicate UniqueEmails(users: seq<User>) {
    forall i, j :: 0 <= i < j < |users| ==> users[i].email != users[j].email
  }

  /** `findOne({email})`. */
  function FindByEmail(users: seq<User>, email: string): (r: Option<nat>)
    ensures r.Some? ==> r.value < |users| && users[r.value].email == email
    ensures r.None? <==> forall j :: 0 <= j < |users| ==> users[j].email != email
  {
    IndexOf(users, (u: User) => u.email == email)
  }

  /** `findOne({firebaseUid})`. */
  function FindByUid(users: seq<User>, uid: Uid): Option<nat> {
    IndexOf(users, (u: User) => u.uid == uid)
  }

  // ---------------------------------------------------------------------------
  // registerUser
  // ---------------------------------------------------------------------------

  /**
   * `registerUser`: refused when a user with the e-mail exists; otherwise one user is
   * appended. Registration never introduces a duplicate e-mail.
   */
  function RegisterUser(users: seq<User>, id: Id, req: Registration): (out: (seq<User>, Result<User>))
    ensures out.1.Err? <==> exists j :: 0 <= j < |users| && users[j].email == req.email
    ensures out.1.Err? ==> out == (users, Err(Validation(DuplicateMessage)))
    ensures out.1.Ok? ==> out.1.value == User(id, req.email, req.username, req.uid) && out.0 == users + [out.1.value]
    ensures UniqueEmails(users) ==> UniqueEmails(out.0)
  {
    match FindByEmail(users, req.email)
    case Some(_) => (users, Err(Validation(DuplicateMessage)))
    case None =>
      var u := User(id, req.email, req.username, req.uid);
      (users + [u], Ok(u))
  }

  method RegisterUserIn(db: Database, req: Registration) returns (r: Result<User>)
    requires db.Valid()
    modifies db`users, db`nextId
    ensures db.Valid()
    ensures (db.users, r) == RegisterUser(old(db.users), old(db.nextId), req)
  {
    var existingUser := FindByEmail(db.users, req.email);
    if existingUser.Some? {
      return Err(Validation(DuplicateMessage));
    }
    var id := db.NewId();
    var u := User(id, req.email, req.username, req.uid);
    assert UserIds(db.users + [u]) == UserIds(db.users) + [id];
    IdsFreshSnoc(UserIds(db.users), id, db.nextId);
    db.users := db.users + [u];
    r := Ok(u);
  }

  /** A run of registrations, one after another; an id is drawn only by a successful one. */
  function RegisterAll(users: seq<User>, next: nat, reqs: seq<Registration>): (seq<User>, nat)
    decreases |reqs|
  {
    if reqs == [] then (users, next)
    else
      var (u, r) := RegisterUser(users, next, reqs[0]);
      RegisterAll(u, if r.Ok? then next + 1 else next, reqs[1..])
  }

  /** However many registrations run, the e-mails stay unique. */
  lemma {:induction false} RegisterAllKeepsUnique(users: seq<User>, next: nat, reqs: seq<Registration>)
    requires UniqueEmails(users)
    ensures UniqueEmails(RegisterAll(users, next, reqs).0)
    decreases |reqs|
  {
    if reqs != [] {
      var (u, r) := RegisterUser(users, next, reqs[0]);
      RegisterAllKeepsUnique(u, if r.Ok? then next + 1 else next, reqs[1..]);
    }
  }

  /** Registrations only add users: the earlier table is a prefix of the later one. */
  lemma {:induction false} RegisterAllExtends(users: seq<User>, next: nat, reqs: seq<Registration>)
    ensures users <= RegisterAll(users, next, reqs).0
    decreases |reqs|
  {
    if reqs != [] {
      var (u, r) := RegisterUser(users, next, reqs[0]);
      RegisterAllExtends(u, if r.Ok? then next + 1 else next, reqs[1..]);
    }
  }

  /** After the run, every requested e-mail belongs to some user (the first request's or an earlier one). */
  lemma {:induction false} RegisterAllCovers(users: seq<User>, next: nat, reqs: seq<Registration>, k: nat)
    requires k < |reqs|
    ensures exists u :: u in RegisterAll(users, next, reqs).0 && u.email == reqs[k].email
    decreases |reqs|
  {
    var (u, r) := RegisterUser(users, next, reqs[0]);
    var next' := if r.Ok? then next + 1 else next;
    if k == 0 {
      RegisterAllExtends(u, next', reqs[1..]);
      var t := RegisterAll(u, next', reqs[1..]).0;
      if r.Ok? {
        assert u[|users|] == r.value && t[|users|] == r.value;
      } else {
        var j :| 0 <= j < |users| && users[j].email == reqs[0].email;
        assert t[j] == users[j];
      }
    } else {
      RegisterAllCovers(u, next', reqs[1..], k - 1);
    }
  }

  // ---------------------------------------------------------------------------
  // getUserByFirebaseUid
  // ---------------------------------------------------------------------------

  function GetUserByFirebaseUid(users: seq<User>, uid: Uid): (r: Result<User>)
    ensures r.Ok? ==> r.value in users && r.value.uid == uid
    ensures r.Err? <==> forall j :: 0 <= j < |users| ==> users[j].uid != uid
    ensures r.Err? ==> r.error == NotFound(NotFoundMessage)
  {
    match FindByUid(users, uid)
    case None => Err(NotFound(NotFoundMessage))
    case Some(i) => Ok(users[i])
  }

  // ---------------------------------------------------------------------------
  // updateUser
  // ---------------------------------------------------------------------------

  /** The `userData` object: only the fields present are written. */
  datatype UserPatch = UserPatch(email: Option<string>, username: Option<string>)

  function ApplyUserPatch(u: User, p: UserPatch): (r: User)
    ensures r.id == u.id && r.uid == u.uid
    ensures p.email.None? ==> r.email == u.email
    ensures p.username.None? ==> r.username == u.username
    ensures p.email.Some? ==> r.email == p.email.value
    ensures p.username.Some? ==> r.username == p.username.value
  {
    u.(email := p.email.GetOr(u.email), username := p.username.GetOr(u.username))
  }

  /**
   * `updateUser`: the user found by uid (else "User not found"), then written by its
   * id with `findByIdAndUpdate`. No e-mail check is made.
   */
  function UpdateUser(users: seq<User>, uid: Uid, p: UserPatch): (out: (seq<User>, Result<User>))
    ensures |out.0| == |users|
    ensures out.1.Err? <==> forall j :: 0 <= j < |users| ==> users[j].uid != uid
    ensures out.1.Err? ==> out == (users, Err(NotFound(NotFoundMessage)))
  {
    match FindByUid(users, uid)
    case None => (users, Err(NotFound(NotFoundMessage)))
    case Some(i) =>
      var j := IndexOf(users, (u: User) => u.id == users[i].id).value;
      var u := ApplyUserPatch(users[j], p);
      (users[j := u], Ok(u))
  }

  method UpdateUserIn(db: Database, uid: Uid, p: UserPatch) returns (r: Result<User>)
    requires db.Valid()
    modifies db`users
    ensures db.Valid()
    ensures (db.users, r) == UpdateUser(old(db.users), uid, p)
  {
    var found := FindByUid(db.users, uid);
    if found.None? {
      return Err(NotFound(NotFoundMessage));
    }
    var user := db.users[found.value];
    var j := IndexOf(db.users, (u: User) => u.id == user.id).value;
    var u := ApplyUserPatch(db.users[j], p);
    assert UserIds(db.users[j := u]) == UserIds(db.users);
    db.users := db.users[j := u];
    r := Ok(u);
  }

  /**
   * With unique ids the row written by id is the row found by uid: the first user with
   * that uid is updated and every other user is left as it was.
   */
  lemma UpdateUserWritesFoundRow(users: seq<User>, next: nat, uid: Uid, p: UserPatch)
    requires IdsFresh(UserIds(users), next)
    ensures match FindByUid(users, uid)
      case None => true
      case Some(i) => UpdateUser(users, uid, p) == (users[i := ApplyUserPatch(users[i], p)], Ok(ApplyUserPatch(users[i], p)))
  {
    match FindByUid(users, uid)
    case None =>
    case Some(i) =>
      var ids := UserIds(users);
      forall j | 0 <= j < |users| && users[j].id == users[i].id ensures ids[j] == ids[i] {
      }
      FirstWithId(users, ids, next, i, (u: User) => u.id == users[i].id);
  }

  /**
   * The missing e-mail check: an update can give a user the e-mail of another, which
   * registration would have refused.
   */
  lemma UpdateCanDuplicateEmail()
    ensures var users := [User(0, "a@x", "ann", "u0"), User(1, "b@x", "bob", "u1")];
      && UniqueEmails(users)
      && UpdateUser(users, "u1", UserPatch(Some("a@x"), None)).1.Ok?
      && !UniqueEmails(UpdateUser(users, "u1", UserPatch(Some("a@x"), None)).0)
      && RegisterUser(users, 2, Registration("a@x", "bob", "u1")).1.Err?
  {
    var users := [User(0, "a@x", "ann", "u0"), User(1, "b@x", "bob", "u1")];
    assert FindByUid(users, "u1") == Some(1);
    assert IndexOf(users, (u: User) => u.id == users[1].id) == Some(1);
    var t := UpdateUser(users, "u1", UserPatch(Some("a@x"), None)).0;
    assert t[0].email == "a@x" && t[1].email == "a@x";
  }
}
