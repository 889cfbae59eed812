/** The account handlers of controllers/user.js and the admin gate of
    middleware/isAdmin.js. Lookups by field (`User.findOne({ email })` and
    the like) are searches of a map from user id to document. */
module Users {
  import opened Common
  import opened UserModel
  import Friends

  /** `String.prototype.toLowerCase`, restricted to ASCII letters. */
  function LowerChar(c: char): char
  {
    if 'A' <= c <= 'Z' then (c as int - 'A' as int + 'a' as int) as char else c
  }

  predicate IsLower(s: string)
  {
    forall i :: 0 <= i < |s| ==> !('A' <= s[i] <= 'Z')
  }

  function Lower(s: string): (r: string)
    ensures |r| == |s|
    ensures forall i :: 0 <= i < |s| ==> r[i] == LowerChar(s[i])
    ensures IsLower(r)
    ensures IsLower(s) ==> r == s
  {
    if s == [] then [] else [LowerChar(s[0])] + Lower(s[1..])
  }

  /** Two strings that differ only in the case of their letters lower to
      the same string, so sign-up treats them as one email or username. */
  lemma {:induction false} LowerIgnoresCase(s: string, t: string)
    requires |s| == |t|
    requires forall i :: 0 <= i < |s| ==> LowerChar(s[i]) == LowerChar(t[i])
    ensures Lower(s) == Lower(t)
  {
    if s != [] {
      LowerIgnoresCase(s[1..], t[1..]);
    }
  }

  predicate EmailTaken(users: map<UserId, User>, email: string)
  {
    exists id :: id in users && users[id].email == email
  }

  predicate UsernameTaken(users: map<UserId, User>, username: string)
  {
    exists id :: id in users && users[id].username == username
  }

  predicate TokenHolder(users: map<UserId, User>, code: string)
  {
    exists id :: id in users && users[id].verificationToken == Some(code)
  }

  /** The unique indexes on `email` and `username`. */
  ghost predicate EmailsUnique(users: map<UserId, User>)
  {
    forall a, b :: a in users && b in users && users[a].email == users[b].email ==> a == b
  }

  ghost predicate UsernamesUnique(users: map<UserId, User>)
  {
    forall a, b :: a in users && b in users && users[a].username == users[b].username ==> a == b
  }

  /** No account is verified and none carries a verification token. */
  ghost predicate NobodyVerifiable(users: map<UserId, User>)
  {
    forall id :: id in users ==> !users[id].isVerified && users[id].verificationToken.None?
  }

  /** `User.findOne({ email })`. */
  function FindByEmail(users: map<UserId, User>, email: string): (r: Option<UserId>)
    requires EmailsUnique(users)
    ensures r.Some? <==> EmailTaken(users, email)
    ensures r.Some? ==> r.value in users && users[r.value].email == email
  {
    if EmailTaken(users, email) then
      var id :| id in users && users[id].email == email;
      Some(id)
    else None
  }

  /** `login`: checks, in this order, that both fields are present, that an
      account has the lowercased email, that it is verified, that it is not
      disabled, and that the password is valid; the first failing check
      decides the answer. `isPasswordValid` stands for the document's
      password check. */
  function Login(users: map<UserId, User>, email: string, password: string,
                 isPasswordValid: (User, string) -> bool): (r: Result<UserId>)
    requires EmailsUnique(users)
    ensures email == "" || password == "" ==> r == Err(Error(BadRequest, "Please fill all the fields"))
    ensures email != "" && password != "" && !EmailTaken(users, Lower(email)) ==>
      r == Err(Error(Unauthorized, "Email or password incorrect"))
    ensures forall id :: id in users && users[id].email == Lower(email) && email != "" && password != "" ==>
      r == (if !users[id].isVerified then
              Err(Error(Unauthorized, "Email is not verified, kindly verify you email address"))
            else if users[id].isDisabled then
              Err(Error(Forbidden, "The user is disabled/under review by the Admin. Kindly contact the Admin."))
            else if !isPasswordValid(users[id], password) then
              Err(Error(Unauthorized, "Email or password incorrect"))
            else Ok(id))
    ensures r.Ok? ==> r.value in users && users[r.value].email == Lower(email) &&
                      users[r.value].isVerified && !users[r.value].isDisabled &&
                      isPasswordValid(users[r.value], password)
  {
    if email == "" || password == "" then Err(Error(BadRequest, "Please fill all the fields"))
    else
      match FindByEmail(users, Lower(email))
      case None => Err(Error(Unauthorized, "Email or password incorrect"))
      case Some(id) =>
        var user := users[id];
        if !user.isVerified then
          Err(Error(Unauthorized, "Email is not verified, kindly verify you email address"))
        else if user.isDisabled then
          Err(Error(Forbidden, "The user is disabled/under review by the Admin. Kindly contact the Admin."))
        else if !isPasswordValid(user, password) then
          Err(Error(Unauthorized, "Email or password incorrect"))
        else Ok(id)
  }

  /** While no account is verifiable, every login attempt fails. */
  lemma NobodyLogsIn(users: map<UserId, User>, email: string, password: string,
                     isPasswordValid: (User, string) -> bool)
    requires EmailsUnique(users) && NobodyVerifiable(users)
    ensures Login(users, email, password, isPasswordValid).Err?
  {
  }

  /** `usernameExists`: the lowercased username is free or taken. */
  function UsernameExists(users: map<UserId, User>, username: string): (r: Result<string>)
    ensures r.Ok? <==> !UsernameTaken(users, Lower(username))
    ensures r.Ok? ==> r.value == "Username available"
    ensures r.Err? ==> r.error == Error(BadRequest, "Username not available")
  {
    if UsernameTaken(users, Lower(username)) then Err(Error(BadRequest, "Username not available"))
    else Ok("Username available")
  }

  /** `isAdmin`: passes only a caller whose role is "admin", which the role
      enum never holds, so it turns every caller away. */
  function AdminGate(caller: User): (r: Result<()>)
    ensures r == Err(Error(Forbidden, "You are not authorized to perform this action"))
  {
    if RoleName(caller.role) != "admin" then Err(Error(Forbidden, "You are not authorized to perform this action"))
    else Ok(())
  }

  /** The projection `getAllUser` returns for each account. */
  datatype UserSummary = UserSummary(id: UserId, name: string, email: string, username: string, profilePicUrl: string)

  function Summarize(id: UserId, u: User): UserSummary
  {
    UserSummary(id, u.name, u.email, u.username, u.profilePicUrl)
  }

  function Ids(r: seq<UserSummary>): set<UserId>
  {
    set s | s in r :: s.id
  }

  lemma IdsAppend(r: seq<UserSummary>, s: UserSummary)
    ensures Ids(r + [s]) == Ids(r) + {s.id}
  {
    assert forall t :: t in r + [s] <==> t in r || t == s;
  }

  /** The state of the selection that orders `getAllUser`'s result: `r`
      holds the summaries chosen so far, each once and newest first, none
      older than an account still `remaining`. */
  ghost predicate ListingSoFar(us: map<UserId, User>, r: seq<UserSummary>, remaining: set<UserId>,
                               listed: set<UserId>)
  {
    && remaining <= us.Keys
    && (forall i :: 0 <= i < |r| ==> r[i].id in us && r[i] == Summarize(r[i].id, us[r[i].id]))
    && Ids(r) + remaining == listed
    && (forall s :: s in r ==> s.id !in remaining)
    && (forall i, j :: 0 <= i < j < |r| ==> r[i].id != r[j].id)
    && (forall i, j :: 0 <= i < j < |r| ==> us[r[i].id].createdAt >= us[r[j].id].createdAt)
    && (forall i, o :: 0 <= i < |r| && o in remaining ==> us[r[i].id].createdAt >= us[o].createdAt)
  }

  /** Moving the newest remaining account to the end of `r` keeps the
      selection's state. */
  lemma ListingStep(us: map<UserId, User>, r: seq<UserSummary>, remaining: set<UserId>,
                    listed: set<UserId>, next: UserId)
    requires ListingSoFar(us, r, remaining, listed)
    requires next in remaining
    requires forall o :: o in remaining ==> us[o].createdAt <= us[next].createdAt
    ensures ListingSoFar(us, r + [Summarize(next, us[next])], remaining - {next}, listed)
  {
    var r' := r + [Summarize(next, us[next])];
    IdsAppend(r, Summarize(next, us[next]));
    assert forall i :: 0 <= i < |r| ==> r'[i] == r[i];
  }

  /** The accounts `getAllUser` selects: role other than "admin", id other
      than the caller's. */
  function Listed(users: map<UserId, User>, caller: UserId): set<UserId>
  {
    set id | id in users && id != caller && RoleName(users[id].role) != "admin"
  }

  /** The role test excludes nobody: the listing is every account but the
      caller's. */
  lemma ListedIsEveryoneButCaller(users: map<UserId, User>, caller: UserId)
    ensures Listed(users, caller) == users.Keys - {caller}
  {
    forall id | id in users
      ensures RoleName(users[id].role) != "admin"
    {
      AdminIsNotARole(users[id]);
    }
  }

  /** A non-empty set of accounts has a most recently created member. */
  lemma {:induction false} LatestExists(users: map<UserId, User>, s: set<UserId>)
    requires s != {} && s <= users.Keys
    ensures exists m :: m in s && forall o :: o in s ==> users[o].createdAt <= users[m].createdAt
  {
    var x :| x in s;
    if s != {x} {
      LatestExists(users, s - {x});
      var m :| m in s - {x} && forall o :: o in s - {x} ==> users[o].createdAt <= users[m].createdAt;
      if users[x].createdAt > users[m].createdAt {
        assert forall o :: o in s ==> users[o].createdAt <= users[x].createdAt;
      } else {
        assert forall o :: o in s ==> users[o].createdAt <= users[m].createdAt;
      }
    } else {
      assert forall o :: o in s ==> o == x;
    }
  }

  class UserStore {
    var users: map<UserId, User>

    /** The unique indexes hold, and sign-up stores emails and usernames in
        lower case. */
    ghost predicate Valid()
      reads this
    {
      && EmailsUnique(users)
      && UsernamesUnique(users)
      && forall id :: id in users ==> IsLower(users[id].email) && IsLower(users[id].username)
    }

    constructor ()
      ensures users == map[] && Valid()
    {
      users := map[];
    }

    /** `signUp`. The lowercased email, then the lowercased username, must be
        free. `User.create` then validates the email's format
        (`emailWellFormed`) and stores the account; `Profile.create` follows
        (`profileCreated` is its outcome), and only after it the empty friend
        document is created. A failure after `User.create` leaves the account
        stored. The verification mail is not modelled. */
    method SignUp(name: string, username: string, email: string, password: string,
                  emailWellFormed: bool, profileCreated: bool, newId: UserId, now: int,
                  friends: Friends.FriendStore) returns (r: Result<UserId>)
      requires Valid()
      requires newId !in users && newId !in friends.records
      modifies this, friends
      ensures Valid()
      ensures name == "" || username == "" || email == "" || password == "" ==>
        r == Err(Error(BadRequest, "Please provide all the fields"))
      ensures name != "" && username != "" && email != "" && password != "" &&
              EmailTaken(old(users), Lower(email)) ==>
        r == Err(Error(BadRequest, "User with email: " + email + " already exists"))
      ensures name != "" && username != "" && email != "" && password != "" &&
              !EmailTaken(old(users), Lower(email)) && UsernameTaken(old(users), Lower(username)) ==>
        r == Err(Error(BadRequest, "Username: " + username + " already exists"))
      ensures name != "" && username != "" && email != "" && password != "" &&
              !EmailTaken(old(users), Lower(email)) && !UsernameTaken(old(users), Lower(username)) &&
              !emailWellFormed ==>
        r == Err(Fault)
      ensures var created := name != "" && username != "" && email != "" && password != "" &&
                             !EmailTaken(old(users), Lower(email)) &&
                             !UsernameTaken(old(users), Lower(username)) && emailWellFormed;
              && (!created ==> r.Err? && users == old(users) && friends.records == old(friends.records))
              && (created ==> users == old(users)[newId := NewUser(name, Lower(username), Lower(email), password, now)])
              && (created && !profileCreated ==> r == Err(Fault) && friends.records == old(friends.records))
              && (created && profileCreated ==>
                    r == Ok(newId) && friends.records == old(friends.records)[newId := Friends.EMPTY_RECORD])
      ensures NobodyVerifiable(old(users)) ==> NobodyVerifiable(users)
    {
      if name == "" || username == "" || email == "" || password == "" {
        return Err(Error(BadRequest, "Please provide all the fields"));
      }
      if EmailTaken(users, Lower(email)) {
        return Err(Error(BadRequest, "User with email: " + email + " already exists"));
      }
      if UsernameTaken(users, Lower(username)) {
        return Err(Error(BadRequest, "Username: " + username + " already exists"));
      }
      if !emailWellFormed {
        return Err(Fault);
      }
      var user := NewUser(name, Lower(username), Lower(email), password, now);
      users := users[newId := user];
      if !profileCreated {
        return Err(Fault);
      }
      friends.records := friends.records[newId := Friends.EMPTY_RECORD];
      r := Ok(newId);
    }

    /** `emailVerification`: the account holding the code as its verification
        token becomes verified and loses the token; nothing else changes. */
    method EmailVerification(code: string) returns (r: Result<string>)
      requires Valid()
      modifies this
      ensures Valid()
      ensures code == "" ==> r == Err(Error(BadRequest, "Invalid Email Verification Token"))
      ensures code != "" && !TokenHolder(old(users), code) ==>
        r == Err(Error(Unauthorized, "Invalid Email Verification Token"))
      ensures r.Err? ==> users == old(users)
      ensures r.Ok? <==> code != "" && TokenHolder(old(users), code)
      ensures r.Ok? ==> exists id :: (id in old(users) && old(users)[id].verificationToken == Some(code) &&
        users == old(users)[id := old(users)[id].(isVerified := true, verificationToken := None)] &&
        r.value == "Email: " + old(users)[id].email + " verified")
      ensures NobodyVerifiable(old(users)) ==> r.Err? && users == old(users)
    {
      if code == "" {
        return Err(Error(BadRequest, "Invalid Email Verification Token"));
      }
      if !TokenHolder(users, code) {
        return Err(Error(Unauthorized, "Invalid Email Verification Token"));
      }
      var id :| id in users && users[id].verificationToken == Some(code);
      var user := users[id];
      user := user.(isVerified := true, verificationToken := None);
      users := users[id := user];
      r := Ok("Email: " + user.email + " verified");
    }

    /** `initPasswordReset`: the email is looked up exactly as given, not
        lowercased. `token` and `expiry` stand for the random hex token and
        the expiry date the handler generates. The reset mail is not
        modelled. */
    method InitPasswordReset(email: string, token: string, expiry: int) returns (r: Result<string>)
      requires Valid()
      modifies this
      ensures Valid()
      ensures email == "" ==> r == Err(Error(BadRequest, "Please enter email address for password reset"))
      ensures email != "" && !EmailTaken(old(users), email) ==>
        r == Err(Error(BadRequest, "User with Email: " + email + " does not exists"))
      ensures r.Err? ==> users == old(users)
      ensures r.Ok? <==> email != "" && EmailTaken(old(users), email)
      ensures forall id :: r.Ok? && id in old(users) && old(users)[id].email == email ==>
        users == old(users)[id := old(users)[id].(resetPasswordToken := Some(token), resetPasswordExpire := Some(expiry))] &&
        r.value == "Password reset mail sent to your registered email: " + email
      ensures !IsLower(email) ==> r.Err?
      ensures NobodyVerifiable(old(users)) ==> NobodyVerifiable(users)
    {
      if email == "" {
        return Err(Error(BadRequest, "Please enter email address for password reset"));
      }
      var found := FindByEmail(users, email);
      if found.None? {
        return Err(Error(BadRequest, "User with Email: " + email + " does not exists"));
      }
      var id := found.value;
      var user := users[id];
      user := user.(resetPasswordExpire := Some(expiry));
      user := user.(resetPasswordToken := Some(token));
      users := users[id := user];
      r := Ok("Password reset mail sent to your registered email: " + user.email);
    }

    /** `perfPasswordReset`: after the three fields are present, the account
        found by the email as given must hold a token, the token must not
        have expired at `now`, and it must equal the supplied one; success
        clears token and expiry and stores the new password. The guard meant
        for an unknown email tests the email instead, so an unknown email
        reaches a property read on a missing document. */
    method PerfPasswordReset(email: string, resetToken: string, newPassword: string, now: int)
      returns (r: Result<string>)
      requires Valid()
      modifies this
      ensures Valid()
      ensures email == "" || resetToken == "" || newPassword == "" ==>
        r == Err(Error(BadRequest, "Please enter all fields"))
      ensures email != "" && resetToken != "" && newPassword != "" && !EmailTaken(old(users), email) ==>
        r == Err(Fault)
      ensures forall id :: email != "" && resetToken != "" && newPassword != "" &&
                           id in old(users) && old(users)[id].email == email ==>
        var u := old(users)[id];
        if u.resetPasswordToken.None? || u.resetPasswordToken.value == "" then
          r == Err(Error(BadRequest, "Invalid Password Reset Token/Token expired"))
        else if u.resetPasswordExpire.None? then
          r == Err(Fault)
        else if u.resetPasswordExpire.value < now then
          r == Err(Error(BadRequest, "Password Reset Token expired. Please Try Again"))
        else if resetToken != u.resetPasswordToken.value then
          r == Err(Error(BadRequest, "Invalid Password Reset Token"))
        else
          r == Ok("Password Reset Successful") &&
          users == old(users)[id := u.(resetPasswordExpire := None, resetPasswordToken := None, password := newPassword)]
      ensures r.Err? ==> users == old(users)
      ensures r.Ok? ==> exists id :: (id in old(users) && old(users)[id].email == email &&
        old(users)[id].resetPasswordToken == Some(resetToken) &&
        old(users)[id].resetPasswordExpire.Some? && now <= old(users)[id].resetPasswordExpire.value &&
        users[id].resetPasswordToken.None? && users[id].resetPasswordExpire.None? &&
        users[id].password == newPassword)
      ensures NobodyVerifiable(old(users)) ==> NobodyVerifiable(users)
    {
      if email == "" || resetToken == "" || newPassword == "" {
        return Err(Error(BadRequest, "Please enter all fields"));
      }
      var found := FindByEmail(users, email);
      if found.None? {
        return Err(Fault);
      }
      var id := found.value;
      var user := users[id];
      if user.resetPasswordToken.None? || user.resetPasswordToken.value == "" {
        return Err(Error(BadRequest, "Invalid Password Reset Token/Token expired"));
      }
      if user.resetPasswordExpire.None? {
        return Err(Fault);
      }
      if user.resetPasswordExpire.value < now {
        return Err(Error(BadRequest, "Password Reset Token expired. Please Try Again"));
      }
      if resetToken != user.resetPasswordToken.value {
        return Err(Error(BadRequest, "Invalid Password Reset Token"));
      }
      user := user.(resetPasswordExpire := None, resetPasswordToken := None, password := newPassword);
      users := users[id := user];
      r := Ok("Password Reset Successful");
    }

    /** `getAllUser`: the summaries of every listed account, each once, most
        recently created first. The database's sort is modelled by a
        selection of the newest remaining account. */
    method GetAllUser(caller: UserId) returns (message: string, r: seq<UserSummary>)
      ensures message == (if |r| > 0 then "Users Found" else "No Users Found")
      ensures forall i :: 0 <= i < |r| ==> r[i].id in users && r[i] == Summarize(r[i].id, users[r[i].id])
      ensures Ids(r) == Listed(users, caller)
      ensures forall i, j :: 0 <= i < j < |r| ==> r[i].id != r[j].id
      ensures forall i, j :: 0 <= i < j < |r| ==> users[r[i].id].createdAt >= users[r[j].id].createdAt
    {
      var us := users;
      var remaining := Listed(us, caller);
      r := [];
      while remaining != {}
        invariant ListingSoFar(us, r, remaining, Listed(us, caller))
        decreases remaining
      {
        LatestExists(us, remaining);
        var next :| next in remaining && forall o :: o in remaining ==> us[o].createdAt <= us[next].createdAt;
        ListingStep(us, r, remaining, Listed(us, caller), next);
        r := r + [Summarize(next, us[next])];
        remaining := remaining - {next};
      }
      message := if |r| > 0 then "Users Found" else "No Users Found";
    }

    /** `disableUser`: sets `isDisabled` on the account; an unknown id reaches
        a property read on a missing document. */
    method DisableUser(id: UserId) returns (r: Result<string>)
      requires Valid()
      modifies this
      ensures Valid()
      ensures id !in old(users) ==> r == Err(Fault) && users == old(users)
      ensures id in old(users) ==>
        users == old(users)[id := old(users)[id].(isDisabled := true)] &&
        r == Ok("User with email: " + old(users)[id].email + " is Disabled")
      ensures NobodyVerifiable(old(users)) ==> NobodyVerifiable(users)
    {
      if id !in users {
        return Err(Fault);
      }
      var user := users[id].(isDisabled := true);
      users := users[id := user];
      r := Ok("User with email: " + user.email + " is Disabled");
    }

    /** `enableUser`: clears `isDisabled` on the account. */
    method EnableUser(id: UserId) returns (r: Result<string>)
      requires Valid()
      modifies this
      ensures Valid()
      ensures id !in old(users) ==> r == Err(Fault) && users == old(users)
      ensures id in old(users) ==>
        users == old(users)[id := old(users)[id].(isDisabled := false)] &&
        r == Ok("User with email: " + old(users)[id].email + " is Enabled")
      ensures NobodyVerifiable(old(users)) ==> NobodyVerifiable(users)
    {
      if id !in users {
        return Err(Fault);
      }
      var user := users[id].(isDisabled := false);
      users := users[id := user];
      r := Ok("User with email: " + user.email + " is Enabled");
    }
  }
}
