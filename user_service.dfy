/** The user lookups the authentication core calls. */
module UserService {
  import opened Common
  import opened Users

  /** One entry of a Mongo `$or` list: `{mobile}` or `{email}`. */
  datatype Clause = MobileEq(mobile: Option<string>) | EmailEq(email: Option<string>)

  predicate Holds(rec: UserRecord, c: Clause) {
    match c
    case MobileEq(m) => rec.mobile == m
    case EmailEq(e) => rec.email == e
  }

  /** The query `{$or: queryData}`. */
  function AnyOf(queryData: seq<Clause>): UserRecord -> bool {
    (rec: UserRecord) => exists i :: 0 <= i < |queryData| && Holds(rec, queryData[i])
  }

  /** The query `{email}`. */
  function EmailIs(email: Option<string>): UserRecord -> bool {
    (rec: UserRecord) => rec.email == email
  }

  /** The query `{mobile}`. */
  function MobileIs(mobile: Option<string>): UserRecord -> bool {
    (rec: UserRecord) => rec.mobile == mobile
  }

  /** What an email-or-mobile lookup is meant to select: a record with the supplied
      mobile or the supplied email, each counted only when it is truthy. */
  function Either(email: Option<string>, mobile: Option<string>): UserRecord -> bool {
    (rec: UserRecord) => (Present(mobile) && rec.mobile == mobile) || (Present(email) && rec.email == email)
  }

  /** The `$or` list of `getUserByEmailOrMobile`, pushed one clause at a time. */
  method BuildOrQuery(email: Option<string>, mobile: Option<string>) returns (queryData: seq<Clause>)
    ensures MobileEq(mobile) in queryData <==> Present(mobile)
    ensures EmailEq(email) in queryData <==> Present(email)
    ensures forall c :: c in queryData ==> c == MobileEq(mobile) || c == EmailEq(email)
    ensures Present(mobile) ==> queryData[0] == MobileEq(mobile)
    ensures |queryData| <= 2
    ensures queryData == [] <==> !Present(mobile) && !Present(email)
  {
    queryData := [];
    if Present(mobile) {
      queryData := queryData + [MobileEq(mobile)];
    }
    if Present(email) {
      queryData := queryData + [EmailEq(email)];
    }
  }

  /** `getUserByEmailOrMobile(email, mobile)`: the first record matching either
      supplied identifier, or none. */
  method GetUserByEmailOrMobile(db: Db, email: Option<string>, mobile: Option<string>)
    returns (u: Option<User>)
    ensures u == Lookup(db, Either(email, mobile))
    ensures u.Some? ==> (Present(mobile) && u.value.record.mobile == mobile)
                        || (Present(email) && u.value.record.email == email)
    ensures db.Valid() && u.None? ==> forall id :: id in db.users ==>
      !(Present(mobile) && db.users[id].mobile == mobile) && !(Present(email) && db.users[id].email == email)
  {
    var queryData := BuildOrQuery(email, mobile);
    forall id | id in db.users
      ensures AnyOf(queryData)(db.users[id]) == Either(email, mobile)(db.users[id])
    {
      var rec := db.users[id];
      if Present(mobile) && rec.mobile == mobile {
        assert Holds(rec, queryData[0]);
      } else if Present(email) && rec.email == email {
        var i :| 0 <= i < |queryData| && queryData[i] == EmailEq(email);
        assert Holds(rec, queryData[i]);
      } else {
        forall i | 0 <= i < |queryData| ensures !Holds(rec, queryData[i]) {
          assert queryData[i] in queryData;
        }
      }
    }
    LookupExt(db, AnyOf(queryData), Either(email, mobile));
    u := Lookup(db, AnyOf(queryData));
  }

  /** `getUserByEmail(email)`: matches on the exact email only. */
  function GetUserByEmail(db: Db, email: Option<string>): (u: Option<User>)
    ensures u.Some? ==> u.value.id in db.users && db.users[u.value.id] == u.value.record
    ensures u.Some? ==> u.value.record.email == email
    ensures db.Valid() ==> (u.None? <==> forall id :: id in db.users ==> db.users[id].email != email)
  {
    Lookup(db, EmailIs(email))
  }

  /** `getUserByMobile(mobile)`: matches on the exact mobile only. */
  function GetUserByMobile(db: Db, mobile: Option<string>): (u: Option<User>)
    ensures u.Some? ==> u.value.id in db.users && db.users[u.value.id] == u.value.record
    ensures u.Some? ==> u.value.record.mobile == mobile
    ensures db.Valid() ==> (u.None? <==> forall id :: id in db.users ==> db.users[id].mobile != mobile)
  {
    Lookup(db, MobileIs(mobile))
  }

  /** `getUserById(id)`: a missing `sub` claim finds nobody. */
  function GetUserById(db: Db, id: Option<UserId>): (u: Option<User>)
    ensures u.Some? <==> id.Some? && id.value in db.users
    ensures u.Some? ==> u.value == User(id.value, db.users[id.value])
  {
    if id.Some? && id.value in db.users then Some(User(id.value, db.users[id.value])) else None
  }
}
