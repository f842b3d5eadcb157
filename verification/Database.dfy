/** The PostgreSQL connection as the handlers use it through GORM. */
module Database {
  import opened Wrappers
  import opened Model
  import opened Models
  import opened Tables

  class DB {
    var users: map<string, UserRow>
    var links: map<string, LinkRow>

    ghost function Rows(): Db
      reads this
    {
      Db(users, links)
    }

    ghost predicate Valid()
      reads this
    {
      Consistent(Rows())
    }

    constructor ()
      ensures Valid() && Rows() == Db(map[], map[])
    {
      users, links := map[], map[];
    }

    method FirstUserByEmail(email: string) returns (r: Option<UserRow>)
      requires Valid()
      ensures r == UserByEmail(Rows(), email)
    {
      if id :| id in users && users[id].email == email {
        r := Some(users[id]);
        LookupsFindRows(Rows(), users[id], LinkRow("", "", "", ""));
      } else {
        r := None;
      }
    }

    method FirstLinkByIdentity(provider: string, providerId: string) returns (r: Option<LinkRow>)
      requires Valid()
      ensures r == LinkByIdentity(Rows(), provider, providerId)
    {
      if id :| id in links && links[id].provider == provider && links[id].providerId == providerId {
        r := Some(links[id]);
        LookupsFindRows(Rows(), UserRow("", "", "", "", None, false), links[id]);
      } else {
        r := None;
      }
    }

    /** db.Create of a user: the hook, then the insert. */
    method CreateUser(u: User, uuid: string) returns (ok: bool)
      requires Valid() && u.id == ""
      modifies this, u`id
      ensures Valid() && u.Row() == old(u.Row()).(id := uuid)
      ensures match InsertUser(old(Rows()), u.Row())
              case None => !ok && Rows() == old(Rows())
              case Some(db) => ok && Rows() == db
    {
      u.BeforeCreate(uuid);
      var row := u.Row();
      if row.id in users || exists id | id in users :: users[id].email == row.email {
        ok := false;
      } else {
        InsertUserKeepsConsistent(Rows(), row);
        users := users[row.id := row];
        ok := true;
      }
    }

    /** tx.Create of an auth provider. */
    method CreateLink(a: AuthProvider, uuid: string) returns (ok: bool)
      requires Valid() && a.id == ""
      modifies this, a`id
      ensures Valid() && a.Row() == old(a.Row()).(id := uuid)
      ensures match InsertLink(old(Rows()), a.Row())
              case None => !ok && Rows() == old(Rows())
              case Some(db) => ok && Rows() == db
    {
      a.BeforeCreate(uuid);
      var row := a.Row();
      if row.id in links || row.userId !in users ||
         exists id | id in links :: links[id].provider == row.provider &&
           (links[id].providerId == row.providerId || links[id].userId == row.userId)
      {
        ok := false;
      } else {
        InsertLinkKeepsConsistent(Rows(), row);
        links := links[row.id := row];
        ok := true;
      }
    }

    /** tx.Create of a user with one nested auth provider; the transaction rolls both back when either insert fails. */
    method CreateUserWithLink(u: User, a: AuthProvider, userUuid: string, linkUuid: string) returns (ok: bool)
      requires Valid() && u.id == "" && a.id == "" && u as object != a as object
      modifies this, u`id, a`id, a`userId
      ensures Valid() && u.Row() == old(u.Row()).(id := userUuid)
      ensures match InsertBoth(old(Rows()), u.Row(), LinkRow(linkUuid, old(a.provider), old(a.providerId), userUuid))
              case None => !ok && Rows() == old(Rows())
              case Some(db) => ok && Rows() == db
    {
      var before := users;
      ok := CreateUser(u, userUuid);
      if ok {
        a.userId := u.id;
        ok := CreateLink(a, linkUuid);
        if !ok {
          users := before;
        }
      }
    }
  }
}
