/** The User table's row type, its password hooks, comparePassword and the
    password-free JSON view. bcrypt is modelled symbolically: the hash of
    `secret` under `salt` is the term `Hashed(salt, secret)`, and comparing
    re-hashes the candidate with the stored salt. */
module UserModel {
  import opened Common

  /** The salt bcrypt.genSalt draws at random; it is a parameter here. */
  type Salt = nat

  /** The password column: a plaintext that has not been through a hook yet,
      or a bcrypt hash. */
  datatype Password = Plain(text: string) | Hashed(salt: Salt, secret: string)

  function Hash(text: string, salt: Salt): Password {
    Hashed(salt, text)
  }

  /** bcrypt.compare(candidate, stored): a stored value that is not a hash
      never matches. */
  predicate Matches(candidate: string, stored: Password) {
    stored.Hashed? && Hash(candidate, stored.salt) == stored
  }

  /** A hash matches exactly the text it was made from. */
  lemma MatchesHash(candidate: string, text: string, salt: Salt)
    ensures Matches(candidate, Hash(text, salt)) <==> candidate == text
  {
  }

  datatype User = User(
    id: Id,
    firstName: string,
    lastName: string,
    email: string,
    password: Password,
    phone: Option<string>,
    profileImage: Option<string>,
    bio: Option<string>,
    isActive: bool,
    emailVerified: bool)

  /** The beforeCreate hook: a non-empty password is replaced by its hash. */
  function BeforeCreate(u: User, salt: Salt): (r: User)
    requires u.password.Plain?
    ensures u.password.text != "" ==> r.password == Hash(u.password.text, salt)
    ensures u.password.text == "" ==> r.password == u.password
    ensures r.(password := u.password) == u
  {
    if u.password.text != "" then u.(password := Hash(u.password.text, salt)) else u
  }

  /** User.create: isActive true and emailVerified false by default, then the
      beforeCreate hook. */
  function NewUser(id: Id, firstName: string, lastName: string, email: string, password: string,
                   phone: Option<string>, salt: Salt): (u: User)
    ensures u.id == id && u.email == email && u.firstName == firstName && u.lastName == lastName
    ensures u.phone == phone && u.profileImage == None && u.bio == None
    ensures u.isActive && !u.emailVerified
    ensures password != "" ==> u.password.Hashed? && Matches(password, u.password)
    ensures password != "" ==> forall other :: other != password ==> !Matches(other, u.password)
  {
    BeforeCreate(User(id, firstName, lastName, email, Plain(password), phone, None, None, true, false), salt)
  }

  /** The beforeUpdate hook: the password is re-hashed only when the save
      changed it; `saved` is the row as loaded, `next` the row being saved. */
  function BeforeUpdate(saved: User, next: User, salt: Salt): (r: User)
    requires next.password == saved.password || next.password.Plain?
    ensures next.password == saved.password ==> r == next
    ensures next.password != saved.password ==> r.password == Hash(next.password.text, salt)
    ensures r.(password := next.password) == next
  {
    if next.password != saved.password then next.(password := Hash(next.password.text, salt)) else next
  }

  /** user.comparePassword(candidate): true exactly for the text the stored
      hash was made from; a stored value that is not a hash accepts nothing. */
  predicate ComparePassword(u: User, candidate: string): (ok: bool)
    ensures u.password.Plain? ==> !ok
    ensures u.password.Hashed? ==> (ok <==> candidate == u.password.secret)
  {
    Matches(candidate, u.password)
  }

  /** What toJSON returns: every column except password. */
  datatype PublicUser = PublicUser(
    id: Id,
    firstName: string,
    lastName: string,
    email: string,
    phone: Option<string>,
    profileImage: Option<string>,
    bio: Option<string>,
    isActive: bool,
    emailVerified: bool)

  function ToJSON(u: User): (p: PublicUser)
    ensures p.id == u.id && p.email == u.email
    ensures p.firstName == u.firstName && p.lastName == u.lastName
    ensures p.phone == u.phone && p.profileImage == u.profileImage && p.bio == u.bio
    ensures p.isActive == u.isActive && p.emailVerified == u.emailVerified
  {
    PublicUser(u.id, u.firstName, u.lastName, u.email, u.phone, u.profileImage, u.bio,
               u.isActive, u.emailVerified)
  }

  /** The JSON view does not depend on the password, and it determines every
      other column. */
  lemma ToJSONForgetsOnlyPassword(u: User, v: User)
    ensures ToJSON(u) == ToJSON(v) <==> u.(password := v.password) == v
  {
  }
}
