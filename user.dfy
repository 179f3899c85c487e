/** The stored user record: a password check, then the id derived from the
    user name. */
module Users {
  import opened Base
  import opened Text
  import opened Entities

  const CollectionName := "user"
  const PasswordMissing := ValueError("password must be defined.")

  /** The id `User(user, password)` ends up with, or the exception its
      constructor raises: the password is checked first, then the user name
      through `create_id`. */
  function NewUserId(user: Option<string>, password: Option<string>): (r: Result<string>)
    ensures r.Success? <==> !IsBlank(password) && !IsBlank(user)
    ensures IsBlank(password) ==> r == Failure(PasswordMissing)
    ensures !IsBlank(password) && IsBlank(user) ==> r == Failure(IdMissing)
    ensures r.Success? ==> r.value == CollectionName + "::" + ToLower(RemoveWhitespace(user.value))
  {
    if IsBlank(password) then Failure(PasswordMissing) else DeriveId(CollectionName, user)
  }

  /** A user record; the `Entity` part is a field. */
  class User {
    const entity: Entity
    var user: string
    var password: string

    constructor Init(entity: Entity, user: string, password: string)
      ensures this.entity == entity && this.user == user && this.password == password
    {
      this.entity := entity;
      this.user := user;
      this.password := password;
    }

    /** `User(user, password)`: the name is stored as given (not stripped),
        the password unchanged, and `id` derived from the name. */
    static method New(user: Option<string>, password: Option<string>) returns (r: Result<User>)
      ensures r.Failure? <==> NewUserId(user, password).Failure?
      ensures r.Failure? ==> r.error == NewUserId(user, password).error
      ensures r.Success? ==>
        fresh(r.value) && fresh(r.value.entity) &&
        r.value.entity.collectionName == CollectionName &&
        Success(r.value.entity.id) == NewUserId(user, password) &&
        r.value.user == user.value && r.value.password == password.value
    {
      var entity := new Entity(CollectionName);
      if password.None? || password.value == "" || IsSpace(password.value) {
        return Failure(PasswordMissing);
      }
      var id := entity.CreateId(user);
      if id.Failure? {
        return Failure(id.error);
      }
      entity.id := id.value;
      var u := new User.Init(entity, user.value, password.value);
      return Success(u);
    }
  }
}
