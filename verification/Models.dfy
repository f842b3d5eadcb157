/** The GORM model objects, whose BeforeCreate hooks assign the id in place. */
module Models {
  import opened Wrappers
  import opened Model

  class User {
    var id: string
    var firstName: string
    var lastName: string
    var email: string
    var password: Option<Hash>
    var emailVerified: bool

    constructor (firstName: string, lastName: string, email: string, password: Option<Hash>, emailVerified: bool)
      ensures Row() == UserRow("", firstName, lastName, email, password, emailVerified)
    {
      this.id := "";
      this.firstName, this.lastName, this.email := firstName, lastName, email;
      this.password, this.emailVerified := password, emailVerified;
    }

    function Row(): UserRow
      reads this
    {
      UserRow(id, firstName, lastName, email, password, emailVerified)
    }

    /** Keeps an id that is there already. */
    method BeforeCreate(uuid: string)
      modifies this`id
      ensures Row() == old(Row()).(id := if old(id) == "" then uuid else old(id))
    {
      if id == "" {
        id := uuid;
      }
    }
  }

  class AuthProvider {
    var id: string
    var provider: string
    var providerId: string
    var userId: string

    constructor (provider: string, providerId: string, userId: string)
      ensures Row() == LinkRow("", provider, providerId, userId)
    {
      this.id, this.provider, this.providerId, this.userId := "", provider, providerId, userId;
    }

    function Row(): LinkRow
      reads this
    {
      LinkRow(id, provider, providerId, userId)
    }

    method BeforeCreate(uuid: string)
      modifies this`id
      ensures Row() == old(Row()).(id := if old(id) == "" then uuid else old(id))
    {
      if id == "" {
        id := uuid;
      }
    }
  }
}
