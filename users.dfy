/** The user collection: records, an id-ordered `findOne`, and the store object
    whose record map the services update. */
module Users {
  import opened Common
  import opened Jwt

  /** The fields of a user document that the authentication core reads or writes.
      `password` holds what the service writes (hashing happens on save); `token`
      is the last stored reset token, `None` when cleared (''). */
  datatype UserRecord = UserRecord(
    email: Option<string>,
    mobile: Option<string>,
    password: Option<string>,
    role: string,
    isBlocked: bool,
    isEmailVerified: bool,
    isMobileVerified: bool,
    invitedByEmail: bool,
    invitationAccepted: bool,
    invitationAcceptedOn: Option<int>,
    token: Option<Token>,
    approvalStatus: Option<int>)

  /** A fresh document: every field the creator does not set takes its default. */
  const NewUserRecord: UserRecord :=
    UserRecord(None, None, None, "user", false, false, false, false, false, None, None, None)

  /** A document as a query returns it: its `_id` and its fields. */
  datatype User = User(id: UserId, record: UserRecord)

  /** The collection at one moment: the records and the next id to hand out. */
  datatype Db = Db(users: map<UserId, UserRecord>, nextId: UserId) {
    /** Every id in use was handed out before `nextId`. */
    ghost predicate Valid() {
      forall id :: id in users ==> id < nextId
    }
  }

  /** The lowest id in [from, bound) whose record satisfies `p`. */
  function FirstFrom(users: map<UserId, UserRecord>, p: UserRecord -> bool, from: nat, bound: nat)
    : (r: Option<UserId>)
    ensures r.Some? ==> from <= r.value < bound && r.value in users && p(users[r.value])
    ensures r.Some? ==> forall j :: from <= j < r.value && j in users ==> !p(users[j])
    ensures r.None? ==> forall j :: from <= j < bound && j in users ==> !p(users[j])
    decreases bound - from
  {
    if bound <= from then None
    else if from in users && p(users[from]) then Some(from)
    else FirstFrom(users, p, from + 1, bound)
  }

  /** `findOne(query)`: the first document, in insertion order, that matches. */
  function Lookup(db: Db, p: UserRecord -> bool): (u: Option<User>)
    ensures u.Some? ==> u.value.id in db.users && db.users[u.value.id] == u.value.record
    ensures u.Some? ==> p(u.value.record)
    ensures u.Some? ==> forall j :: j in db.users && j < u.value.id ==> !p(db.users[j])
    ensures db.Valid() && u.None? ==> forall j :: j in db.users ==> !p(db.users[j])
  {
    match FirstFrom(db.users, p, 0, db.nextId)
    case None => None
    case Some(id) => Some(User(id, db.users[id]))
  }

  /** Two queries that select the same records find the same document. */
  lemma {:induction false} FirstFromExt(users: map<UserId, UserRecord>, p: UserRecord -> bool,
                                        q: UserRecord -> bool, from: nat, bound: nat)
    requires forall id :: id in users ==> p(users[id]) == q(users[id])
    ensures FirstFrom(users, p, from, bound) == FirstFrom(users, q, from, bound)
    decreases bound - from
  {
    if from < bound {
      FirstFromExt(users, p, q, from + 1, bound);
    }
  }

  lemma LookupExt(db: Db, p: UserRecord -> bool, q: UserRecord -> bool)
    requires forall id :: id in db.users ==> p(db.users[id]) == q(db.users[id])
    ensures Lookup(db, p) == Lookup(db, q)
  {
    FirstFromExt(db.users, p, q, 0, db.nextId);
  }

  /** Rewriting the first match with a record that still matches keeps it the first match. */
  lemma LookupAfterUpdate(db: Db, p: UserRecord -> bool, id: UserId, rec: UserRecord)
    requires Lookup(db, p).Some? && Lookup(db, p).value.id == id
    requires p(rec)
    ensures Lookup(db.(users := db.users[id := rec]), p) == Some(User(id, rec))
  {
    var users' := db.users[id := rec];
    var f := FirstFrom(users', p, 0, db.nextId);
    assert id < db.nextId && id in users' && p(users'[id]);
    assert forall j :: 0 <= j < id && j in users' ==> users'[j] == db.users[j] && !p(users'[j]);
    assert f == Some(id);
  }

  /** A record just inserted is found by every query it matches. */
  lemma LookupAfterInsert(db: Db, p: UserRecord -> bool, rec: UserRecord)
    requires db.Valid()
    requires p(rec)
    ensures Lookup(Db(db.users[db.nextId := rec], db.nextId + 1), p).Some?
  {
    var db' := Db(db.users[db.nextId := rec], db.nextId + 1);
    assert db'.Valid();
    assert db.nextId in db'.users && p(db'.users[db.nextId]);
  }

  /** The user collection the services share. */
  class UserStore {
    var users: map<UserId, UserRecord>
    var nextId: UserId

    /** The collection as a value, for the queries. */
    function Snapshot(): Db
      reads this
    {
      Db(users, nextId)
    }

    ghost predicate Valid()
      reads this
    {
      Snapshot().Valid()
    }

    constructor ()
      ensures Valid() && users == map[] && nextId == 0
    {
      users := map[];
      nextId := 0;
    }

    /** `createUser(data)`: inserts exactly one new document. */
    method CreateUser(rec: UserRecord) returns (u: User)
      requires Valid()
      modifies this
      ensures Valid()
      ensures u.record == rec && u.id == old(nextId) && u.id !in old(users)
      ensures users == old(users)[u.id := rec]
      ensures nextId == old(nextId) + 1
    {
      u := User(nextId, rec);
      users := users[nextId := rec];
      nextId := nextId + 1;
    }

    /** `updateUserById(id, fields)`: replaces that one document, nothing else. */
    method UpdateUserById(id: UserId, rec: UserRecord)
      requires Valid() && id in users
      modifies this
      ensures Valid()
      ensures users == old(users)[id := rec] && nextId == old(nextId)
    {
      users := users[id := rec];
    }
  }
}
