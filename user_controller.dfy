/** The user controller: the profile a user sees, and the profile update
    that saves only when a supplied field, once trimmed, differs from what is
    stored. */
module UserController {
  import opened Common
  import opened Text
  import opened UserModel
  import opened AccountModel
  import opened Store
  import opened ErrorHandler

  const ProfileNotFound := Failure(404, "User not found")
  const UpdateUserNotFound := Failure(404, "User not found.")
  /** save() refuses an empty name (the schema's required validator); the
      error handler answers the ValidationError with its message and 400. */
  const NameRequired := Failure(400, "Please add a name")
  const PhoneInUse := Failure(409, "Phone number is already in use.")
  /** A duplicate "" is not recognised as a phone clash (keyValue.phoneNumber
      is falsy), so the error handler answers the raw duplicate-key error. */
  const DuplicatePhone := Failure(409, DuplicateMessage(Some(["phoneNumber"])))

  const UpdatedMessage: string := "Profile updated successfully!"
  const UnchangedMessage: string := "No changes detected."

  /** The profile sent to the client: a missing phone number or address is
      shown as "". */
  datatype Profile = Profile(
    id: UserId,
    name: string,
    email: string,
    phoneNumber: string,
    address: string,
    createdAt: int,
    updatedAt: int)

  /** value || '' on an optional string. */
  function OrEmpty(o: Option<string>): (r: string)
    ensures o.None? ==> r == ""
    ensures o.Some? ==> r == o.value
  {
    if o.Some? then o.value else ""
  }

  function ProfileOf(id: UserId, u: User): (p: Profile)
    ensures p.id == id && p.name == u.name && p.email == u.email
    ensures p.phoneNumber == OrEmpty(u.phoneNumber) && p.address == OrEmpty(u.address)
    ensures p.createdAt == u.createdAt && p.updatedAt == u.updatedAt
  {
    Profile(id, u.name, u.email, OrEmpty(u.phoneNumber), OrEmpty(u.address), u.createdAt, u.updatedAt)
  }

  /** getUserProfile: 404 for an unknown user, else the profile. */
  function GetUserProfile(s: State, userId: UserId): (r: Result<Profile>)
    ensures r.Err? <==> userId !in s.users
    ensures r.Err? ==> r.error == ProfileNotFound
    ensures r.Ok? ==> r.value == ProfileOf(userId, s.users[userId])
  {
    if userId !in s.users then Err(ProfileNotFound) else Ok(ProfileOf(userId, s.users[userId]))
  }

  // ---------------------------------------------------------------------
  // updateUserProfile
  // ---------------------------------------------------------------------

  /** The fields of the request body; None when a field is absent. */
  datatype ProfileRequest = ProfileRequest(
    name: Option<string>,
    phoneNumber: Option<string>,
    address: Option<string>)

  /** The answer to an update: which message, and the profile read back. */
  datatype ProfileUpdate = ProfileUpdate(message: string, profile: Profile)

  /** A field the request changes: supplied, and its trimmed value differs
      from the stored one. */
  predicate ChangesName(u: User, req: ProfileRequest) {
    req.name.Some? && Trim(req.name.value) != u.name
  }

  predicate ChangesPhone(u: User, req: ProfileRequest) {
    req.phoneNumber.Some? && Trim(req.phoneNumber.value) != OrEmpty(u.phoneNumber)
  }

  predicate ChangesAddress(u: User, req: ProfileRequest) {
    req.address.Some? && Trim(req.address.value) != OrEmpty(u.address)
  }

  predicate ChangesSomething(u: User, req: ProfileRequest) {
    ChangesName(u, req) || ChangesPhone(u, req) || ChangesAddress(u, req)
  }

  /** The user with the changed fields assigned (the schema's own trim of
      the address leaves a trimmed string as it is). */
  function Apply(u: User, req: ProfileRequest): User {
    u.(name := if ChangesName(u, req) then Trim(req.name.value) else u.name,
       phoneNumber := if ChangesPhone(u, req) then Some(Trim(req.phoneNumber.value)) else u.phoneNumber,
       address := if ChangesAddress(u, req) then Some(Trim(req.address.value)) else u.address)
  }

  /** Another user already holds the number (the sparse unique index on
      phoneNumber). */
  predicate PhoneTaken(users: map<UserId, User>, userId: UserId, phone: string) {
    exists other :: other in users && other != userId && users[other].phoneNumber == Some(phone)
  }

  /** The effect of updateUserProfile. now is the time save() stamps as
      updatedAt. */
  function UpdateUserProfileSpec(s: State, userId: UserId, req: ProfileRequest, now: int): Outcome<ProfileUpdate> {
    if userId !in s.users then Reject(s, UpdateUserNotFound)
    else
      var u := s.users[userId];
      if !ChangesSomething(u, req) then
        Outcome(s, Ok(ProfileUpdate(UnchangedMessage, ProfileOf(userId, u))))
      else
        var changed := Apply(u, req);
        if changed.name == "" then Reject(s, NameRequired)
        else if ChangesPhone(u, req) && PhoneTaken(s.users, userId, changed.phoneNumber.value) then
          Reject(s, if changed.phoneNumber.value == "" then DuplicatePhone else PhoneInUse)
        else
          var saved := changed.(updatedAt := now);
          Outcome(s.(users := s.users[userId := saved]), Ok(ProfileUpdate(UpdatedMessage, ProfileOf(userId, saved))))
  }

  /** updateUserProfile, step by step: each supplied field that differs is
      assigned and raises the updated flag; the document is saved only when
      the flag is up. */
  method UpdateUserProfile(db: Database, userId: UserId, req: ProfileRequest, now: int) returns (r: Result<ProfileUpdate>)
    modifies db
    ensures db.Snapshot() == UpdateUserProfileSpec(old(db.Snapshot()), userId, req, now).state
    ensures r == UpdateUserProfileSpec(old(db.Snapshot()), userId, req, now).result
  {
    if userId !in db.users {
      return Err(UpdateUserNotFound);
    }
    var original := db.users[userId];
    var user := original;
    var updated := false;
    if req.name.Some? && Trim(req.name.value) != user.name {
      user := user.(name := Trim(req.name.value));
      updated := true;
    }
    if req.phoneNumber.Some? && Trim(req.phoneNumber.value) != OrEmpty(user.phoneNumber) {
      user := user.(phoneNumber := Some(Trim(req.phoneNumber.value)));
      updated := true;
    }
    if req.address.Some? && Trim(req.address.value) != OrEmpty(user.address) {
      user := user.(address := Some(Trim(req.address.value)));
      updated := true;
    }
    assert user == Apply(original, req);
    assert updated == ChangesSomething(original, req);
    if updated {
      if user.name == "" {
        return Err(NameRequired);
      }
      if user.phoneNumber != original.phoneNumber && PhoneTaken(db.users, userId, user.phoneNumber.value) {
        if user.phoneNumber.value == "" {
          return Err(DuplicatePhone);
        }
        return Err(PhoneInUse);
      }
      user := user.(updatedAt := now);
      db.users := db.users[userId := user];
    }
    var message := if updated then UpdatedMessage else UnchangedMessage;
    r := Ok(ProfileUpdate(message, ProfileOf(userId, db.users[userId])));
  }

  // ---------------------------------------------------------------------
  // Properties
  // ---------------------------------------------------------------------

  /** What an update does: a refusal changes nothing; success writes only
      the caller's document, sets each field to its trimmed request value
      when it was supplied and differs, keeps every other field (the email
      and the passcode challenge among them), and reports whether it saved. */
  lemma UpdateEffect(s: State, userId: UserId, req: ProfileRequest, now: int)
    ensures var o := UpdateUserProfileSpec(s, userId, req, now);
            && (o.result.Err? ==> o.state == s)
            && (o.result.Ok? ==>
                  && userId in s.users && userId in o.state.users
                  && o.state.accounts == s.accounts && o.state.transactions == s.transactions
                  && o.state.users.Keys == s.users.Keys
                  && (forall other :: other in s.users && other != userId ==> o.state.users[other] == s.users[other])
                  && var u, u' := s.users[userId], o.state.users[userId];
                  && u'.email == u.email && u'.otpCode == u.otpCode && u'.otpCodeExpires == u.otpCodeExpires
                  && u'.createdAt == u.createdAt
                  && u'.name == (if req.name.Some? then Trim(req.name.value) else u.name)
                  && u'.phoneNumber == (if ChangesPhone(u, req) then Some(Trim(req.phoneNumber.value)) else u.phoneNumber)
                  && u'.address == (if ChangesAddress(u, req) then Some(Trim(req.address.value)) else u.address)
                  && OrEmpty(u'.phoneNumber) == (if req.phoneNumber.Some? then Trim(req.phoneNumber.value) else OrEmpty(u.phoneNumber))
                  && OrEmpty(u'.address) == (if req.address.Some? then Trim(req.address.value) else OrEmpty(u.address))
                  && (o.result.value.message == UpdatedMessage <==> ChangesSomething(u, req))
                  && (o.result.value.message == UnchangedMessage <==> o.state == s)
                  && o.result.value.profile == ProfileOf(userId, u'))
  {
    if userId in s.users {
      var u := s.users[userId];
      if ChangesSomething(u, req) && Apply(u, req).name != "" {
        assert Apply(u, req) != u;
      }
    }
  }

  /** The refusals of a save: an empty name, or a changed number another
      user holds; the name is checked first. A clash on a number is reported
      as such, a clash on the empty string as a bare duplicate key. */
  lemma UpdateRefusals(s: State, userId: UserId, req: ProfileRequest, now: int)
    requires userId in s.users
    ensures var o := UpdateUserProfileSpec(s, userId, req, now);
            var u := s.users[userId];
            && (o.result == Err(NameRequired) <==> ChangesSomething(u, req) && Apply(u, req).name == "")
            && (o.result == Err(PhoneInUse) <==>
                  ChangesPhone(u, req) && Apply(u, req).name != "" && Trim(req.phoneNumber.value) != ""
                  && PhoneTaken(s.users, userId, Trim(req.phoneNumber.value)))
            && (o.result == Err(DuplicatePhone) <==>
                  ChangesPhone(u, req) && Apply(u, req).name != "" && Trim(req.phoneNumber.value) == ""
                  && PhoneTaken(s.users, userId, ""))
  {
    assert DuplicatePhone.message[0] != PhoneInUse.message[0];
  }

  /** The error save() raises when the unique index rejects the empty phone
      number: a MongoServerError with code 11000 and keyValue { phoneNumber:
      "" }, and no statusCode. */
  function EmptyPhoneClash(stack: string): ErrorInfo {
    ErrorInfo(None, "E11000 duplicate key error", "MongoServerError", None, "", Some(DuplicateKeyCode),
              Some(["phoneNumber"]), None, stack)
  }

  /** DuplicatePhone is what the error handler sends for that error. */
  lemma EmptyPhoneClashReply(stack: string, production: bool)
    ensures var h := HandleError(EmptyPhoneClash(stack), production, false);
            h.Send? && h.status == DuplicatePhone.status && h.body.message == DuplicatePhone.message
  {
    ClassifyPrecedence(EmptyPhoneClash(stack));
  }

  /** Sending the same update again finds nothing to change. */
  lemma UpdateIdempotent(s: State, userId: UserId, req: ProfileRequest, now: int, later: int)
    requires UpdateUserProfileSpec(s, userId, req, now).result.Ok?
    ensures var o := UpdateUserProfileSpec(s, userId, req, now);
            var again := UpdateUserProfileSpec(o.state, userId, req, later);
            && again.state == o.state
            && again.result == Ok(ProfileUpdate(UnchangedMessage, o.result.value.profile))
  {
    var u := s.users[userId];
    if req.name.Some? {
      TrimIdempotent(req.name.value);
    }
    if req.phoneNumber.Some? {
      TrimIdempotent(req.phoneNumber.value);
    }
    if req.address.Some? {
      TrimIdempotent(req.address.value);
    }
    UpdateEffect(s, userId, req, now);
  }
}
