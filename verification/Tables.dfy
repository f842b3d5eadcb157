/** The users and auth_providers tables with the constraints that the GORM tags declare. */
module Tables {
  import opened Wrappers
  import opened Model

  datatype Db = Db(users: map<string, UserRow>, links: map<string, LinkRow>)

  ghost predicate HasEmail(db: Db, email: string) {
    exists id | id in db.users :: db.users[id].email == email
  }

  /** WHERE email = ?; the column is unique, so which row First takes does not matter. */
  ghost function UserByEmail(db: Db, email: string): (r: Option<UserRow>)
    ensures r.Some? <==> HasEmail(db, email)
    ensures r.Some? ==> r.value.email == email && exists id | id in db.users :: db.users[id] == r.value
  {
    if HasEmail(db, email) then
      var id :| id in db.users && db.users[id].email == email;
      Some(db.users[id])
    else None
  }

  ghost predicate HasIdentity(db: Db, provider: string, providerId: string) {
    exists id | id in db.links :: db.links[id].provider == provider && db.links[id].providerId == providerId
  }

  /** WHERE provider_id = ? AND provider = ?. */
  ghost function LinkByIdentity(db: Db, provider: string, providerId: string): (r: Option<LinkRow>)
    ensures r.Some? <==> HasIdentity(db, provider, providerId)
    ensures r.Some? ==> r.value.provider == provider && r.value.providerId == providerId &&
                        exists id | id in db.links :: db.links[id] == r.value
  {
    if HasIdentity(db, provider, providerId) then
      var id :| id in db.links && db.links[id].provider == provider && db.links[id].providerId == providerId;
      Some(db.links[id])
    else None
  }

  /** INSERT INTO users; None is a primary key or unique email violation. */
  ghost function InsertUser(db: Db, u: UserRow): Option<Db> {
    if u.id in db.users || HasEmail(db, u.email) then None
    else Some(db.(users := db.users[u.id := u]))
  }

  ghost predicate LinkViolates(db: Db, l: LinkRow) {
    || l.id in db.links
    || l.userId !in db.users
    || exists id | id in db.links ::
         db.links[id].provider == l.provider &&
         (db.links[id].providerId == l.providerId || db.links[id].userId == l.userId)
  }

  /** INSERT INTO auth_providers; None is a violated key, either composite unique index or the foreign key. */
  ghost function InsertLink(db: Db, l: LinkRow): Option<Db> {
    if LinkViolates(db, l) then None else Some(db.(links := db.links[l.id := l]))
  }

  /** Creating a user with one nested auth provider in a transaction: both rows or none. */
  ghost function InsertBoth(db: Db, u: UserRow, l: LinkRow): Option<Db> {
    match InsertUser(db, u)
    case None => None
    case Some(db1) => InsertLink(db1, l)
  }

  /** Primary keys, unique email, unique (provider, provider_id), unique (provider, user_id), foreign key. */
  ghost predicate Consistent(db: Db) {
    && (forall id | id in db.users :: db.users[id].id == id)
    && (forall id | id in db.links :: db.links[id].id == id && db.links[id].userId in db.users)
    && (forall i, j | i in db.users && j in db.users && db.users[i].email == db.users[j].email :: i == j)
    && (forall i, j | i in db.links && j in db.links && db.links[i].provider == db.links[j].provider &&
          (db.links[i].providerId == db.links[j].providerId || db.links[i].userId == db.links[j].userId) :: i == j)
  }

  /** Every row of a is still there, unchanged, in b. */
  ghost predicate Extends(a: Db, b: Db) {
    && a.users.Keys <= b.users.Keys && (forall id | id in a.users :: b.users[id] == a.users[id])
    && a.links.Keys <= b.links.Keys && (forall id | id in a.links :: b.links[id] == a.links[id])
  }

  /** A user can be created if and only if its id and its email are free, and then it is the one new row. */
  lemma InsertUserExactly(db: Db, u: UserRow)
    ensures InsertUser(db, u).Some? <==> forall id | id in db.users :: id != u.id && db.users[id].email != u.email
    ensures InsertUser(db, u).Some? ==>
              InsertUser(db, u).value.users == db.users[u.id := u] && InsertUser(db, u).value.links == db.links
  {
  }

  /** A link can be created if and only if its id is free, its user exists, and neither composite index has it. */
  lemma InsertLinkExactly(db: Db, l: LinkRow)
    ensures InsertLink(db, l).Some? <==>
              l.userId in db.users &&
              forall id | id in db.links ::
                id != l.id && (db.links[id].provider == l.provider ==>
                                 db.links[id].providerId != l.providerId && db.links[id].userId != l.userId)
    ensures InsertLink(db, l).Some? ==>
              InsertLink(db, l).value.links == db.links[l.id := l] && InsertLink(db, l).value.users == db.users
  {
  }

  lemma InsertUserKeepsConsistent(db: Db, u: UserRow)
    requires Consistent(db) && InsertUser(db, u).Some?
    ensures Consistent(InsertUser(db, u).value) && Extends(db, InsertUser(db, u).value)
  {
    assert forall id | id in db.users :: db.users[id].email != u.email;
  }

  lemma InsertLinkKeepsConsistent(db: Db, l: LinkRow)
    requires Consistent(db) && InsertLink(db, l).Some?
    ensures Consistent(InsertLink(db, l).value) && Extends(db, InsertLink(db, l).value)
  {
  }

  /** A successful transaction adds one user and one link and keeps every constraint; a failed one is None. */
  lemma TransactionKeepsConsistent(db: Db, u: UserRow, l: LinkRow)
    requires Consistent(db) && InsertBoth(db, u, l).Some?
    ensures var t := InsertBoth(db, u, l).value;
            && Consistent(t) && Extends(db, t)
            && t.users == db.users[u.id := u] && t.links == db.links[l.id := l]
            && u.id !in db.users && l.id !in db.links
  {
    InsertUserKeepsConsistent(db, u);
    InsertLinkKeepsConsistent(InsertUser(db, u).value, l);
  }

  /** In a consistent database a lookup finds the row. */
  lemma LookupsFindRows(db: Db, u: UserRow, l: LinkRow)
    requires Consistent(db)
    ensures u.id in db.users && db.users[u.id] == u ==> UserByEmail(db, u.email) == Some(u)
    ensures l.id in db.links && db.links[l.id] == l ==> LinkByIdentity(db, l.provider, l.providerId) == Some(l)
  {
  }
}
