/** The user registry behind the account handlers of frontend/App.tsx:
    `find` by e-mail, signup's append, verify's map, login's lookup and the
    profile merge `{ ...currentUser, ...updates }`. */
module Accounts {
  import opened Domain
  import opened Text
  import opened Seqs

  /** `registry.find(u => u.email === email)`: the first user with that e-mail. */
  function FindByEmail(registry: seq<User>, email: string): (r: Option<User>)
    ensures r.None? <==> forall u :: u in registry ==> u.email != email
    ensures r.Some? ==> r.value in registry && r.value.email == email
  {
    if registry == [] then None
    else if registry[0].email == email then Some(registry[0])
    else FindByEmail(registry[1..], email)
  }

  /** The user found is the first one with that e-mail. */
  lemma {:induction false} FindByEmailFirst(registry: seq<User>, email: string)
    requires exists u :: u in registry && u.email == email
    ensures exists i :: 0 <= i < |registry| && registry[i] == FindByEmail(registry, email).value &&
                        forall j :: 0 <= j < i ==> registry[j].email != email
    decreases |registry|
  {
    if registry[0].email != email {
      var t := registry[1..];
      var u :| u in registry && u.email == email;
      assert u in t by { assert registry == [registry[0]] + t; }
      FindByEmailFirst(t, email);
      var i :| 0 <= i < |t| && t[i] == FindByEmail(t, email).value &&
               forall j :: 0 <= j < i ==> t[j].email != email;
      assert registry[i + 1] == t[i];
      forall j | 0 <= j < i + 1 ensures registry[j].email != email {
        if j > 0 { assert registry[j] == t[j - 1]; }
      }
    } else {
      assert registry[0] == FindByEmail(registry, email).value;
    }
  }

  /** No two registered users share an e-mail. */
  predicate UniqueEmails(registry: seq<User>) {
    forall i, j :: 0 <= i < j < |registry| ==> registry[i].email != registry[j].email
  }

  /** No two registered users share an id. */
  predicate UniqueIds(registry: seq<User>) {
    forall i, j :: 0 <= i < j < |registry| ==> registry[i].id != registry[j].id
  }

  /** With unique e-mails, the user found is the only one with that e-mail. */
  lemma FindUnique(registry: seq<User>, email: string, u: User)
    requires UniqueEmails(registry) && u in registry && u.email == email
    ensures FindByEmail(registry, email) == Some(u)
  {
    var r := FindByEmail(registry, email);
    var i :| 0 <= i < |registry| && registry[i] == r.value;
    var k :| 0 <= k < |registry| && registry[k] == u;
  }

  /** The account signup creates: a plain, unverified user named after the part
      of the e-mail before the '@'. */
  function NewUser(id: string, email: string): (u: User)
    ensures u.id == id && u.email == email
    ensures u.displayName == BeforeAt(email)
    ensures u.displayName <= email && '@' !in u.displayName
    ensures u.role == USER && !u.isVerified && u.verificationStatus == UNVERIFIED
    ensures u.licenseNumber == None && u.avatar == None
  {
    User(id, email, BeforeAt(email), USER, false, UNVERIFIED, None, None)
  }

  /** `handleSignup`'s effect on the registry: unchanged when the e-mail is taken,
      otherwise one new user appended. */
  function Signup(registry: seq<User>, id: string, email: string): (r: seq<User>)
    ensures (exists u :: u in registry && u.email == email) ==> r == registry
    ensures (forall u :: u in registry ==> u.email != email) ==>
      |r| == |registry| + 1 && r[..|registry|] == registry &&
      r[|registry|].id == id && r[|registry|].email == email &&
      r[|registry|].displayName == BeforeAt(email) && r[|registry|].role == USER &&
      !r[|registry|].isVerified && r[|registry|].verificationStatus == UNVERIFIED
    ensures (forall u :: u in registry ==> u.email != email) ==> r == registry + [NewUser(id, email)]
  {
    if FindByEmail(registry, email).Some? then registry else registry + [NewUser(id, email)]
  }

  /** Signup keeps e-mails unique, and ids unique when the new id is fresh. */
  lemma SignupKeepsUnique(registry: seq<User>, id: string, email: string)
    requires UniqueEmails(registry) && UniqueIds(registry)
    requires forall u :: u in registry ==> u.id != id
    ensures UniqueEmails(Signup(registry, id, email)) && UniqueIds(Signup(registry, id, email))
  {
    var r := Signup(registry, id, email);
    if r != registry {
      forall i, j | 0 <= i < j < |r| ensures r[i].email != r[j].email && r[i].id != r[j].id {
        if j == |registry| {
          assert r[i] == registry[i];
          assert registry[i] in registry;
        }
      }
    }
  }

  /** `handleVerify`'s effect on the registry: every user with that e-mail is
      marked verified; nothing else changes. */
  function Verify(registry: seq<User>, email: string): (r: seq<User>)
    ensures |r| == |registry|
    ensures forall i :: 0 <= i < |r| ==> r[i].email == registry[i].email && r[i].id == registry[i].id
    ensures forall i :: 0 <= i < |r| ==> r[i].isVerified == (registry[i].isVerified || registry[i].email == email)
    ensures forall i :: 0 <= i < |r| ==> r[i] == registry[i].(isVerified := r[i].isVerified)
  {
    MapWhere(registry, (u: User) => u.email == email, (u: User) => u.(isVerified := true))
  }

  /** Verification keeps both uniqueness invariants. */
  lemma VerifyKeepsUnique(registry: seq<User>, email: string)
    requires UniqueEmails(registry) && UniqueIds(registry)
    ensures UniqueEmails(Verify(registry, email)) && UniqueIds(Verify(registry, email))
  {
  }

  /** `handleLogin`'s answer: the registered user with that e-mail, provided it
      is verified; the role chosen on the form plays no part. */
  function Login(registry: seq<User>, email: string): (r: Option<User>)
    ensures r.Some? ==> r.value in registry && r.value.email == email && r.value.isVerified
    ensures r.None? <==> (forall u :: u in registry ==> u.email != email) || !FindByEmail(registry, email).value.isVerified
  {
    match FindByEmail(registry, email)
    case None => None
    case Some(u) => if u.isVerified then Some(u) else None
  }

  /** A user who has just signed up cannot log in before verifying. */
  lemma NewUserCannotLogIn(registry: seq<User>, id: string, email: string)
    requires forall u :: u in registry ==> u.email != email
    ensures Login(Signup(registry, id, email), email).None?
  {
    var r := Signup(registry, id, email);
    forall k | 0 <= k < |registry| ensures r[k].email != email {
      assert r[k] == registry[k] && registry[k] in registry;
    }
    var found := FindByEmail(r, email);
    var i :| 0 <= i < |r| && r[i] == found.value;
    assert i == |registry|;
  }

  /** After verifying a registered e-mail, logging in with it succeeds and
      yields that user, now verified. */
  lemma {:induction false} VerifyThenLogin(registry: seq<User>, email: string)
    requires exists u :: u in registry && u.email == email
    ensures Login(Verify(registry, email), email) == Some(FindByEmail(registry, email).value.(isVerified := true))
    decreases |registry|
  {
    var r := Verify(registry, email);
    var t := registry[1..];
    if registry[0].email != email {
      var u :| u in registry && u.email == email;
      assert u in t by {
        assert registry == [registry[0]] + t;
      }
      VerifyThenLogin(t, email);
      assert r[1..] == Verify(t, email);
      assert FindByEmail(r, email) == FindByEmail(Verify(t, email), email);
      assert FindByEmail(registry, email) == FindByEmail(t, email);
    } else {
      assert r[0] == registry[0].(isVerified := true);
      assert FindByEmail(r, email) == Some(r[0]);
    }
  }

  /** `Partial<User>`: the fields a profile update may carry. */
  datatype ProfileUpdate = ProfileUpdate(
    id: Option<string>,
    email: Option<string>,
    displayName: Option<string>,
    role: Option<UserRole>,
    isVerified: Option<bool>,
    verificationStatus: Option<VerificationStatus>,
    licenseNumber: Option<Option<string>>,
    avatar: Option<Option<string>>)

  /** An update that carries nothing. */
  function NoChanges(): ProfileUpdate {
    ProfileUpdate(None, None, None, None, None, None, None, None)
  }

  function Pick<T>(update: Option<T>, current: T): T {
    if update.Some? then update.value else current
  }

  /** `{ ...user, ...updates }`: each field the update carries wins. */
  function Merge(u: User, updates: ProfileUpdate): (v: User)
    ensures v.id == if updates.id.Some? then updates.id.value else u.id
    ensures v.email == if updates.email.Some? then updates.email.value else u.email
    ensures v.displayName == if updates.displayName.Some? then updates.displayName.value else u.displayName
    ensures v.role == if updates.role.Some? then updates.role.value else u.role
    ensures v.isVerified == if updates.isVerified.Some? then updates.isVerified.value else u.isVerified
    ensures v.verificationStatus ==
      if updates.verificationStatus.Some? then updates.verificationStatus.value else u.verificationStatus
    ensures v.licenseNumber == if updates.licenseNumber.Some? then updates.licenseNumber.value else u.licenseNumber
    ensures v.avatar == if updates.avatar.Some? then updates.avatar.value else u.avatar
    ensures updates == NoChanges() ==> v == u
  {
    User(Pick(updates.id, u.id), Pick(updates.email, u.email), Pick(updates.displayName, u.displayName),
         Pick(updates.role, u.role), Pick(updates.isVerified, u.isVerified),
         Pick(updates.verificationStatus, u.verificationStatus),
         Pick(updates.licenseNumber, u.licenseNumber), Pick(updates.avatar, u.avatar))
  }

  /** `handleUpdateProfile`'s effect on the registry: every user with the current
      user's id becomes the merged user. */
  function UpdateProfile(registry: seq<User>, currentId: string, updated: User): (r: seq<User>)
    ensures |r| == |registry|
    ensures forall i :: 0 <= i < |r| ==> r[i] == if registry[i].id == currentId then updated else registry[i]
  {
    MapWhere(registry, (u: User) => u.id == currentId, (u: User) => updated)
  }

  /** The update keeps the id, and keeps the e-mail or picks one no other user
      has. */
  predicate KeepsKeys(registry: seq<User>, current: User, updates: ProfileUpdate) {
    updates.id.None? &&
    (updates.email.None? || forall u :: u in registry && u.id != current.id ==> u.email != updates.email.value)
  }

  /** A profile update that keeps the keys keeps both uniqueness invariants and
      leaves the merged user registered. */
  lemma UpdateProfileKeepsUnique(registry: seq<User>, current: User, updates: ProfileUpdate)
    requires UniqueEmails(registry) && UniqueIds(registry) && current in registry
    requires KeepsKeys(registry, current, updates)
    ensures var r := UpdateProfile(registry, current.id, Merge(current, updates));
      UniqueEmails(r) && UniqueIds(r) && Merge(current, updates) in r
  {
    var updated := Merge(current, updates);
    var r := UpdateProfile(registry, current.id, updated);
    var k :| 0 <= k < |registry| && registry[k] == current;
    assert r[k] == updated;
    forall i, j | 0 <= i < j < |r| ensures r[i].email != r[j].email && r[i].id != r[j].id {
      assert registry[i] in registry && registry[j] in registry;
      if registry[i].id == current.id { assert i == k; }
      if registry[j].id == current.id { assert j == k; }
    }
  }
}
