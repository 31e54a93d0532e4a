/** The `Users` collection: the user document, its embedded settings with
    their defaults, the schema's validity rules and the unique indexes. */
module UserModel {
  import opened Base

  datatype Settings = Settings(
    currency: string,
    notifications: string,
    whatsappNumber: string,
    whatsappConnected: bool)

  /** The settings every new user starts with. */
  const DefaultSettings: Settings := Settings("USD", "enabled", "", false)

  datatype User = User(
    id: UserId,
    username: string,
    email: string,
    password: Option<string>,   // a bcrypt hash, or "" for Google accounts
    googleId: Option<string>,
    profilePic: Option<string>,
    settings: Settings)

  type Store = map<UserId, User>

  /** The `{_id, username, email}` object signup returns; the client keeps it
      as the logged-in user. */
  datatype PublicUser = PublicUser(id: UserId, username: string, email: string)

  /** The `select("username email profilePic settings")` projection (with `_id`). */
  datatype UserView = UserView(
    id: UserId,
    username: string,
    email: string,
    profilePic: Option<string>,
    settings: Settings)

  function View(u: User): (v: UserView)
  {
    UserView(u.id, u.username, u.email, u.profilePic, u.settings)
  }

  /** The password is required exactly when the user has no (truthy) googleId. */
  predicate PasswordRequired(u: User) {
    !Truthy(u.googleId)
  }

  /** Schema validation: required strings must be non-empty. */
  predicate ValidUser(u: User) {
    && u.username != ""
    && u.email != ""
    && (PasswordRequired(u) ==> Truthy(u.password))
  }

  /** What the database guarantees of every state of the collection: documents
      are stored under their own id, `email` is unique, and `googleId` is unique
      among the documents that have one (a sparse index). */
  ghost predicate Indexed(store: Store) {
    && (forall id :: id in store ==> store[id].id == id)
    && (forall a, b :: a in store && b in store && store[a].email == store[b].email ==> a == b)
    && (forall a, b ::
          a in store && b in store && store[a].googleId.Some? && store[a].googleId == store[b].googleId ==> a == b)
  }

  /** Every stored user also passes schema validation. */
  ghost predicate ValidStore(store: Store) {
    Indexed(store) && forall id :: id in store ==> ValidUser(store[id])
  }

  /** `Users.findOne({ email })`. */
  function FindByEmail(store: Store, email: string): (r: Option<User>)
    requires Indexed(store)
    ensures r.Some? <==> exists id :: id in store && store[id].email == email
    ensures r.Some? ==> r.value.id in store && store[r.value.id] == r.value && r.value.email == email
  {
    if exists id :: id in store && store[id].email == email then
      var id :| id in store && store[id].email == email;
      Some(store[id])
    else
      None
  }

  /** `User.findOne({ googleId })`. */
  function FindByGoogleId(store: Store, googleId: string): (r: Option<User>)
    requires Indexed(store)
    ensures r.Some? <==> exists id :: id in store && store[id].googleId == Some(googleId)
    ensures r.Some? ==> r.value.id in store && store[r.value.id] == r.value && r.value.googleId == Some(googleId)
  {
    if exists id :: id in store && store[id].googleId == Some(googleId) then
      var id :| id in store && store[id].googleId == Some(googleId);
      Some(store[id])
    else
      None
  }

  /** `new Users(...).save()`: schema validation, then the unique indexes on
      `_id`, `email` and `googleId`. `None` is a rejected save. */
  function SaveNew(store: Store, u: User): (r: Option<Store>)
    ensures r.Some? <==>
      && ValidUser(u)
      && u.id !in store
      && (forall id :: id in store ==> store[id].email != u.email)
      && (u.googleId.Some? ==> forall id :: id in store ==> store[id].googleId != u.googleId)
    ensures r.Some? ==> r.value == store[u.id := u]
    ensures r.Some? && Indexed(store) ==> Indexed(r.value)
    ensures r.Some? && ValidStore(store) ==> ValidStore(r.value)
  {
    if && ValidUser(u)
       && u.id !in store
       && (forall id :: id in store ==> store[id].email != u.email)
       && (u.googleId.Some? ==> forall id :: id in store ==> store[id].googleId != u.googleId)
    then Some(store[u.id := u])
    else None
  }
}
