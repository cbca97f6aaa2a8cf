/**
  The registration and login handlers (server/controller/userController.js).

  The user collection is a map from email to user record: `findOne({ email })`
  is the only query either handler makes. The collaborators the handlers await
  are parameters: whether the store's `findOne` or `save` throws, and the
  password hash, the hash comparison and the token signature as functions that
  either resolve or throw. Every thrown error ends in the same 500 response.
 */
module UserController {
  import opened Wrappers

  /** A stored user: its `_id`, display name, email and hashed password. */
  datatype User = User(id: string, name: string, email: string, password: string)

  /** The JSON body of a registration request; a field may be missing. */
  datatype RegisterBody = RegisterBody(name: Option<string>, email: Option<string>, password: Option<string>)

  /** The JSON body of a response. */
  datatype Json = Error(error: string) | Message(message: string) | Token(token: string)

  datatype Response = Response(status: int, json: Json)

  /** How the store, the password hashing and the token signing behave on this request. */
  datatype Backend = Backend(
    findOneThrows: bool,
    saveThrows: bool,
    hash: string -> Settled<string>,
    compare: (string, string) -> Settled<bool>,
    sign: string -> Settled<string>)

  /** A registration's response together with the user collection it leaves behind. */
  datatype Outcome = Outcome(response: Response, users: map<string, User>)

  const AllFieldsRequired := Response(400, Error("All fields are required"))
  const UserExists := Response(400, Error("User already exists"))
  const Registered := Response(201, Message("User registered successfully"))
  const InvalidCredentials := Response(400, Error("Invalid email or password"))
  const InternalError := Response(500, Error("Internal Server Error"))

  predicate AllFieldsPresent(body: RegisterBody) {
    Truthy(body.name) && Truthy(body.email) && Truthy(body.password)
  }

  /**
    Every check passes and no awaited call throws: the fields are all present,
    `findOne` finds no user with that email, and hashing and saving succeed.
   */
  predicate GoesThrough(users: map<string, User>, body: RegisterBody, backend: Backend) {
    AllFieldsPresent(body) && !backend.findOneThrows && body.email.value !in users &&
    backend.hash(body.password.value).Resolved? && !backend.saveThrows
  }

  /** The user record a successful registration stores: the password field holds the hash's result. */
  function NewUser(body: RegisterBody, newId: string, hashed: string): User
    requires AllFieldsPresent(body)
  {
    User(newId, body.name.value, body.email.value, hashed)
  }

  /**
    `register`: the field check, then the duplicate check, then hash and save.
    `newId` is the `_id` the new document receives.
   */
  function RegisterOutcome(users: map<string, User>, body: RegisterBody, newId: string, backend: Backend): (r: Outcome)
    ensures r.response == AllFieldsRequired <==> !AllFieldsPresent(body)
    ensures !AllFieldsPresent(body) ==> r.users == users
    ensures r.response == UserExists <==>
      AllFieldsPresent(body) && !backend.findOneThrows && body.email.value in users
    ensures r.response == InternalError <==>
      AllFieldsPresent(body) &&
      (backend.findOneThrows ||
       (body.email.value !in users && (backend.hash(body.password.value).Rejected? || backend.saveThrows)))
    ensures r.response == Registered <==> GoesThrough(users, body, backend)
    ensures GoesThrough(users, body, backend) ==>
      r.users == users[body.email.value := NewUser(body, newId, backend.hash(body.password.value).value)]
    ensures r.response.status == 201 <==> r.users != users
    ensures r.response in {AllFieldsRequired, UserExists, InternalError, Registered}
  {
    if !AllFieldsPresent(body) then Outcome(AllFieldsRequired, users)
    else if backend.findOneThrows then Outcome(InternalError, users)
    else if body.email.value in users then Outcome(UserExists, users)
    else
      match backend.hash(body.password.value)
      case Rejected => Outcome(InternalError, users)
      case Resolved(hashed) =>
        if backend.saveThrows then Outcome(InternalError, users)
        else
          var after := users[body.email.value := NewUser(body, newId, hashed)];
          assert body.email.value in after.Keys - users.Keys;
          Outcome(Registered, after)
  }

  /**
    `login`: an unknown email and a wrong password both get the one generic
    400 response; a token is signed over the user's `_id` only when the
    comparison succeeds. The user collection is only read.
   */
  function Login(users: map<string, User>, email: string, password: string, backend: Backend): (r: Response)
    ensures r.status == 200 <==>
      !backend.findOneThrows && email in users &&
      backend.compare(password, users[email].password) == Resolved(true) &&
      backend.sign(users[email].id).Resolved?
    ensures r.status == 200 ==> r == Response(200, Token(backend.sign(users[email].id).value))
    ensures r == InvalidCredentials <==>
      !backend.findOneThrows &&
      (email !in users || backend.compare(password, users[email].password) == Resolved(false))
    ensures r.status != 200 ==> r == InvalidCredentials || r == InternalError
  {
    if backend.findOneThrows then InternalError
    else if email !in users then InvalidCredentials
    else
      var user := users[email];
      match backend.compare(password, user.password)
      case Rejected => InternalError
      case Resolved(isMatch) =>
        if !isMatch then InvalidCredentials
        else
          match backend.sign(user.id)
          case Rejected => InternalError
          case Resolved(token) => Response(200, Token(token))
  }

  /** The user collection as the store holds it, keyed by email. */
  class UserStore {
    var users: map<string, User>

    constructor (users: map<string, User>)
      ensures this.users == users
    {
      this.users := users;
    }

    /** `User.findOne({ email })`: the user with that email, if any, unless the store throws. */
    method FindOne(email: string, throws: bool) returns (r: Settled<Option<User>>)
      ensures throws <==> r.Rejected?
      ensures r.Resolved? ==> (r.value.Some? <==> email in users)
      ensures r.Resolved? && r.value.Some? ==> r.value.value == users[email]
    {
      if throws {
        r := Rejected;
      } else if email in users {
        r := Resolved(Some(users[email]));
      } else {
        r := Resolved(None);
      }
    }

    /** `newUser.save()`: stores the record under its email, unless the store throws. */
    method Save(user: User, throws: bool) returns (saved: bool)
      modifies this
      ensures saved == !throws
      ensures users == if saved then old(users)[user.email := user] else old(users)
    {
      saved := !throws;
      if saved {
        users := users[user.email := user];
      }
    }
  }

  /** `register` step by step against the store: early returns, then hash and save. */
  method Register(store: UserStore, body: RegisterBody, newId: string, backend: Backend) returns (res: Response)
    modifies store
    ensures Outcome(res, store.users) == RegisterOutcome(old(store.users), body, newId, backend)
  {
    if !AllFieldsPresent(body) {
      return AllFieldsRequired;
    }
    var name, email, password := body.name.value, body.email.value, body.password.value;
    var existingUser := store.FindOne(email, backend.findOneThrows);
    if existingUser.Rejected? {
      return InternalError;
    }
    if existingUser.value.Some? {
      return UserExists;
    }
    var hashedPassword := backend.hash(password);
    if hashedPassword.Rejected? {
      return InternalError;
    }
    var saved := store.Save(User(newId, name, email, hashedPassword.value), backend.saveThrows);
    if !saved {
      return InternalError;
    }
    res := Registered;
  }

  /** The field check runs before anything else: neither the store nor the collaborators affect its answer. */
  lemma RegisterValidatesFirst(
    users: map<string, User>, otherUsers: map<string, User>, body: RegisterBody,
    newId: string, otherId: string, backend: Backend, otherBackend: Backend)
    requires !AllFieldsPresent(body)
    ensures RegisterOutcome(users, body, newId, backend).response ==
            RegisterOutcome(otherUsers, body, otherId, otherBackend).response == AllFieldsRequired
    ensures RegisterOutcome(users, body, newId, backend).users == users
  {
  }

  /** A registration that goes through answers 201; registering the same email again is then refused and stores nothing. */
  lemma RegisterTwiceIsDuplicate(
    users: map<string, User>, body: RegisterBody, newId: string, backend: Backend,
    again: RegisterBody, againId: string, againBackend: Backend)
    requires GoesThrough(users, body, backend)
    requires AllFieldsPresent(again) && again.email == body.email && !againBackend.findOneThrows
    ensures RegisterOutcome(users, body, newId, backend).response == Registered
    ensures var after := RegisterOutcome(users, body, newId, backend).users;
            RegisterOutcome(after, again, againId, againBackend) == Outcome(UserExists, after)
  {
  }

  /** The two ways a login can be refused are indistinguishable to the caller. */
  lemma LoginFailuresIndistinguishable(
    users: map<string, User>, unknownEmail: string, anyPassword: string,
    knownEmail: string, wrongPassword: string, backend: Backend)
    requires !backend.findOneThrows
    requires unknownEmail !in users
    requires knownEmail in users && backend.compare(wrongPassword, users[knownEmail].password) == Resolved(false)
    ensures Login(users, unknownEmail, anyPassword, backend) == Login(users, knownEmail, wrongPassword, backend)
  {
  }

  /**
    A registration that goes through can be followed by a login with the same
    email and password that succeeds, given that `compare` accepts every
    password against its own hash.
   */
  lemma RegisterThenLogin(users: map<string, User>, name: string, email: string, password: string, newId: string, backend: Backend)
    requires forall p :: backend.hash(p).Resolved? ==> backend.compare(p, backend.hash(p).value) == Resolved(true)
    requires backend.sign(newId).Resolved?
    requires GoesThrough(users, RegisterBody(Some(name), Some(email), Some(password)), backend)
    ensures var after := RegisterOutcome(users, RegisterBody(Some(name), Some(email), Some(password)), newId, backend).users;
            Login(after, email, password, backend) == Response(200, Token(backend.sign(newId).value))
  {
    var after := RegisterOutcome(users, RegisterBody(Some(name), Some(email), Some(password)), newId, backend).users;
    assert after[email].password == backend.hash(password).value;
  }
}
