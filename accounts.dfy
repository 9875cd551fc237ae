/** The account side of backend-example.js: the auth gate
    (`authenticateToken`), the signup validator chain, and the invariant of
    the `users` list that signup maintains. */
module Accounts {
  import opened Wrappers
  import opened Records
  import Seqs
  import Text

  /** The auth gate: no token gives 401, a token the verifier rejects gives
      403, and otherwise the verified claims are handed on. `verify` stands
      for the token library's signature and expiry check. */
  function Authenticate(header: Option<string>, verify: string -> Option<Claims>): (r: Result<Claims>)
    ensures r == Err(TokenRequired) <==> Text.BearerToken(header).None?
    ensures r == Err(TokenInvalid) <==>
      Text.BearerToken(header).Some? && verify(Text.BearerToken(header).value).None?
    ensures r.Ok? ==>
      Text.BearerToken(header).Some? && verify(Text.BearerToken(header).value) == Some(r.value)
    ensures Text.BearerToken(header).Some? && verify(Text.BearerToken(header).value).Some? ==>
      r == Ok(verify(Text.BearerToken(header).value).value)
  {
    match Text.BearerToken(header)
    case None => Err(TokenRequired)
    case Some(token) =>
      match verify(token)
      case None => Err(TokenInvalid)
      case Some(claims) => Ok(claims)
  }

  /** The body of a signup request; '' stands for a missing field. */
  datatype SignupRequest = SignupRequest(
    name: string,
    email: string,
    password: string,
    userType: string,
    additionalInfo: string)

  predicate AllPresent(req: SignupRequest) {
    req.name != "" && req.email != "" && req.password != "" &&
    req.userType != "" && req.additionalInfo != ""
  }

  /** The signup validator chain: the first failing check decides the reply,
      in the order missing field, e-mail format, password length, user type. */
  function CheckSignup(req: SignupRequest): (r: Option<Failure>)
    ensures r.None? <==>
      AllPresent(req) && Text.IsValidEmail(req.email) && |req.password| >= 6 &&
      req.userType in {"farmer", "buyer"}
    ensures r.Some? ==> r.value.status == 400
    ensures !AllPresent(req) ==> r == Some(FieldsRequired)
    ensures AllPresent(req) && !Text.IsValidEmail(req.email) ==> r == Some(EmailMalformed)
    ensures AllPresent(req) && Text.IsValidEmail(req.email) && |req.password| < 6 ==>
      r == Some(PasswordTooShort)
    ensures AllPresent(req) && Text.IsValidEmail(req.email) && |req.password| >= 6 &&
            req.userType !in {"farmer", "buyer"} ==>
      r == Some(UserTypeUnknown)
  {
    if !AllPresent(req) then Some(FieldsRequired)
    else if !Text.IsValidEmail(req.email) then Some(EmailMalformed)
    else if |req.password| < 6 then Some(PasswordTooShort)
    else if req.userType != "farmer" && req.userType != "buyer" then Some(UserTypeUnknown)
    else None
  }

  /** `users[i].id == i + 1`: ids are assigned from the list length. */
  predicate SequentialIds(users: seq<User>) {
    forall i :: 0 <= i < |users| ==> users[i].id == i + 1
  }

  predicate UniqueEmails(users: seq<User>) {
    forall i, j :: 0 <= i < j < |users| ==> users[i].email != users[j].email
  }

  /** The invariant of the `users` list. */
  predicate WellFormedUsers(users: seq<User>) {
    SequentialIds(users) && UniqueEmails(users)
  }

  /** `users.find(u => u.email === email)`, as a position (-1 when absent). */
  function EmailIndex(users: seq<User>, email: string): (i: int)
    ensures -1 <= i < |users|
    ensures i != -1 ==> users[i].email == email
  {
    Seqs.FindIndex(users, (u: User) => u.email == email)
  }

  /** `users.find(u => u.id === id)`, as a position (-1 when absent). */
  function IdIndex(users: seq<User>, id: int): (i: int)
    ensures -1 <= i < |users|
    ensures i != -1 ==> users[i].id == id
  {
    Seqs.FindIndex(users, (u: User) => u.id == id)
  }

  /** The record signup appends. */
  function NewUser(users: seq<User>, req: SignupRequest, hashed: string, now: string): User {
    User(|users| + 1, req.name, req.email, hashed, req.userType, req.additionalInfo, now)
  }

  /** Appending the record signup builds, after the e-mail lookup missed,
      keeps ids sequential and e-mails pairwise distinct. */
  lemma SignupKeepsWellFormed(users: seq<User>, req: SignupRequest, hashed: string, now: string)
    requires WellFormedUsers(users)
    requires EmailIndex(users, req.email) == -1
    ensures WellFormedUsers(users + [NewUser(users, req, hashed, now)])
  {
    var users' := users + [NewUser(users, req, hashed, now)];
    forall i, j | 0 <= i < j < |users'| ensures users'[i].email != users'[j].email {
      if j == |users| {
        assert !(((u: User) => u.email == req.email)(users[i]));
      }
    }
  }

  /** With sequential ids, the lookup by id lands on position id - 1, and
      misses exactly when the id is out of range. */
  lemma IdIndexIsPosition(users: seq<User>, id: int)
    requires SequentialIds(users)
    ensures IdIndex(users, id) == if 1 <= id <= |users| then id - 1 else -1
  {
    if 1 <= id <= |users| {
      assert ((u: User) => u.id == id)(users[id - 1]);
    }
  }

  /** With distinct e-mails, the lookup by a stored user's e-mail finds that
      user and no other. */
  lemma EmailIndexFindsOwner(users: seq<User>, i: int)
    requires UniqueEmails(users) && 0 <= i < |users|
    ensures EmailIndex(users, users[i].email) == i
  {
    assert ((u: User) => u.email == users[i].email)(users[i]);
  }

  /** The e-mail lookup misses exactly when no stored user has that e-mail. */
  lemma EmailIndexMisses(users: seq<User>, email: string)
    ensures EmailIndex(users, email) == -1 <==>
      forall k :: 0 <= k < |users| ==> users[k].email != email
  {
    var p := (u: User) => u.email == email;
    assert forall k :: 0 <= k < |users| ==> (p(users[k]) <==> users[k].email == email);
  }
}
