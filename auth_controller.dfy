/** `AuthController`: signup with its validation order, and the profile
    endpoints guarded by the `Bearer ` header. The user table is the
    repository's rows in insertion order; the password encoder and the JWT
    subject extraction are functions fixed when the controller is built. */
module AuthController {
  import opened Wrappers
  import opened Text
  import opened Entities

  /** An HTTP status with a text body. */
  datatype Response = Response(status: int, body: string)

  /** The JSON body of a signup request; absent fields are `null`. */
  datatype SignupRequest = SignupRequest(
    name: Option<string>, email: Option<string>, password: Option<string>, role: Option<Role>)

  /** The body of a profile update; only name and email are read. */
  datatype ProfileUpdate = ProfileUpdate(name: Option<string>, email: Option<string>)

  /** The answer of `getProfile`: the user, or a status with a message. */
  datatype ProfileResult = Profile(user: User) | Refused(status: int, message: string)

  /** A required text field: present and not blank after `trim()`. */
  predicate Missing(field: Option<string>) {
    field.None? || IsBlank(field.value)
  }

  /** `findByEmail`, as the position of the first row with that email. */
  function IndexOfEmail(users: seq<User>, email: string): (r: Option<nat>)
    ensures r.Some? ==> r.value < |users| && users[r.value].email == email
    ensures r.Some? ==> forall j :: 0 <= j < r.value ==> users[j].email != email
    ensures r.None? <==> forall j :: 0 <= j < |users| ==> users[j].email != email
  {
    if users == [] then None
    else if users[0].email == email then Some(0)
    else match IndexOfEmail(users[1..], email)
      case None => None
      case Some(i) => Some(i + 1)
  }

  function FindByEmail(users: seq<User>, email: string): (r: Option<User>)
    ensures r.Some? ==> r.value in users && r.value.email == email
    ensures r.None? <==> forall u :: u in users ==> u.email != email
  {
    match IndexOfEmail(users, email)
    case None => None
    case Some(i) => Some(users[i])
  }

  /** The header carries a token exactly when it starts with `Bearer `; the
      token is what follows those seven characters. */
  function BearerToken(header: Option<string>): (r: Option<string>)
    ensures r.Some? <==> header.Some? && StartsWith(header.value, "Bearer ")
    ensures r.Some? ==> header.value == "Bearer " + r.value
  {
    if header.Some? && StartsWith(header.value, "Bearer ") then Some(header.value[7..]) else None
  }

  /** The header the frontend sends is read back as the token it was built from. */
  lemma BearerRoundTrip(token: string)
    ensures BearerToken(Some("Bearer " + token)) == Some(token)
  {
    assert ("Bearer " + token)[..7] == "Bearer ";
    assert ("Bearer " + token)[7..] == token;
  }

  /** A row appended with an email no other row has is found at its position. */
  lemma IndexOfNewEmail(users: seq<User>, u: User)
    requires FindByEmail(users, u.email).None?
    ensures IndexOfEmail(users + [u], u.email) == Some(|users|)
  {
    var all := users + [u];
    forall j | 0 <= j < |users| ensures all[j].email != u.email {
      assert all[j] == users[j] && users[j] in users;
    }
    var k := IndexOfEmail(all, u.email);
    assert all[|users|].email == u.email;
    assert k.Some?;
    assert all[k.value].email == u.email;
  }

  /** Emails are unique across the table (the column's unique constraint). */
  predicate UniqueEmails(users: seq<User>) {
    forall i, j :: 0 <= i < j < |users| ==> users[i].email != users[j].email
  }

  class AuthController {
    var users: seq<User>
    var nextId: int
    /** `passwordEncoder.encode`. */
    const encode: string -> string
    /** `jwtUtil.extractUsername`; `None` where it throws. */
    const extractUsername: string -> Option<string>

    ghost predicate Valid()
      reads this
    {
      UniqueEmails(users) && forall i :: 0 <= i < |users| ==> users[i].id < nextId
    }

    constructor(encode: string -> string, extractUsername: string -> Option<string>)
      ensures Valid() && users == [] && nextId == 1
      ensures this.encode == encode && this.extractUsername == extractUsername
    {
      users := [];
      nextId := 1;
      this.encode := encode;
      this.extractUsername := extractUsername;
    }

    /** `POST /api/auth/signup`. */
    method Signup(req: SignupRequest) returns (r: Response)
      requires Valid()
      modifies this
      ensures Valid()
      ensures Missing(req.name) ==> r == Response(400, "Name is required") && users == old(users)
      ensures !Missing(req.name) && Missing(req.email) ==>
        r == Response(400, "Email is required") && users == old(users)
      ensures !Missing(req.name) && !Missing(req.email) && Missing(req.password) ==>
        r == Response(400, "Password is required") && users == old(users)
      ensures (!Missing(req.name) && !Missing(req.email) && !Missing(req.password) &&
               FindByEmail(old(users), req.email.value).Some?) ==>
        r == Response(400, "User already exists") && users == old(users)
      ensures (!Missing(req.name) && !Missing(req.email) && !Missing(req.password) &&
               FindByEmail(old(users), req.email.value).None?) ==>
        var u := User(old(nextId), req.name.value, req.email.value,
                      encode(req.password.value), req.role.GetOr(USER));
        && r == Response(200, "User registered successfully")
        && users == old(users) + [u]
        && FindByEmail(users, req.email.value) == Some(u)
      ensures r.status != 200 ==> nextId == old(nextId)
    {
      if Missing(req.name) {
        return Response(400, "Name is required");
      }
      if Missing(req.email) {
        return Response(400, "Email is required");
      }
      if Missing(req.password) {
        return Response(400, "Password is required");
      }
      var existing := FindByEmail(users, req.email.value);
      if existing.Some? {
        return Response(400, "User already exists");
      }
      var role := if req.role.Some? then req.role.value else USER;
      var u := User(nextId, req.name.value, req.email.value, encode(req.password.value), role);
      ghost var before := users;
      users := users + [u];
      nextId := nextId + 1;
      IndexOfNewEmail(before, u);
      r := Response(200, "User registered successfully");
    }

    /** `GET /api/auth/profile`. */
    function GetProfile(header: Option<string>): (r: ProfileResult)
      reads this
      ensures BearerToken(header).None? ==> r == Refused(401, "Unauthorized")
      ensures r.Profile? <==> (BearerToken(header).Some? &&
        extractUsername(BearerToken(header).value).Some? &&
        FindByEmail(users, extractUsername(BearerToken(header).value).value).Some?)
      ensures r.Profile? ==> (r.user in users &&
        Some(r.user.email) == extractUsername(BearerToken(header).value))
      ensures r.Refused? && BearerToken(header).Some? ==> r == Refused(401, "Invalid or expired token")
    {
      match BearerToken(header)
      case None => Refused(401, "Unauthorized")
      case Some(token) =>
        match extractUsername(token)
        case None => Refused(401, "Invalid or expired token")
        case Some(email) =>
          match FindByEmail(users, email)
          case None => Refused(401, "Invalid or expired token")
          case Some(u) => Profile(u)
    }

    /** `PUT /api/auth/profile`: name and email are overwritten only when sent.
        A new email already held by another user violates the unique column,
        so the save fails and the error branch answers. */
    method UpdateProfile(update: ProfileUpdate, header: Option<string>) returns (r: Response)
      requires Valid()
      modifies this
      ensures Valid() && nextId == old(nextId)
      ensures BearerToken(header).None? ==> r == Response(401, "Unauthorized") && users == old(users)
      ensures r.status != 200 ==> users == old(users)
      ensures r.status == 200 ==> r.body == "Profile updated successfully"
      ensures r.status == 200 <==>
        && BearerToken(header).Some?
        && extractUsername(BearerToken(header).value).Some?
        && var i := IndexOfEmail(old(users), extractUsername(BearerToken(header).value).value);
        && i.Some?
        && var merged := Merge(old(users)[i.value], update);
        && (forall j :: 0 <= j < |old(users)| && j != i.value ==> old(users)[j].email != merged.email)
        && users == old(users)[i.value := merged]
      ensures BearerToken(header).Some? && r.status != 200 ==> r == Response(500, "Error updating profile")
    {
      var token := BearerToken(header);
      if token.None? {
        return Response(401, "Unauthorized");
      }
      var email := extractUsername(token.value);
      if email.None? {
        return Response(500, "Error updating profile");
      }
      var i := IndexOfEmail(users, email.value);
      if i.None? {
        return Response(500, "Error updating profile");
      }
      var merged := Merge(users[i.value], update);
      var clash := exists j :: 0 <= j < |users| && j != i.value && users[j].email == merged.email;
      if clash {
        return Response(500, "Error updating profile");
      }
      users := users[i.value := merged];
      r := Response(200, "Profile updated successfully");
    }
  }

  /** The stored user with the sent fields written over it. */
  function Merge(u: User, update: ProfileUpdate): (m: User)
    ensures m.id == u.id && m.password == u.password && m.role == u.role
    ensures m.name == update.name.GetOr(u.name) && m.email == update.email.GetOr(u.email)
  {
    var named := if update.name.Some? then u.(name := update.name.value) else u;
    if update.email.Some? then named.(email := update.email.value) else named
  }

  /** An empty update changes nothing. */
  lemma MergeNothing(u: User)
    ensures Merge(u, ProfileUpdate(None, None)) == u
  {
  }

  /** Merging is idempotent. */
  lemma MergeIdempotent(u: User, update: ProfileUpdate)
    ensures Merge(Merge(u, update), update) == Merge(u, update)
  {
  }
}
