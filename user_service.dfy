/**
  Account documents (services/userService.ts). The signed-in account, the
  set of existing accounts, the users/<uid> profile documents and the
  object store are fields of a `UserDirectory` object; the results of the
  remote calls that can fail are parameters.
 */
module UserService {
  import opened Types

  /** The signed-in account as the authentication service reports it. */
  datatype AuthUser = AuthUser(uid: string, email: Option<string>, displayName: Option<string>, photoURL: Option<string>)

  /** The optional extra fields a caller may pass when creating a profile. */
  datatype ExtraData = ExtraData(displayName: Option<string>, photoURL: Option<string>)

  /** The fields of a profile update; `None` leaves that field out of the update. */
  datatype ProfilePatch = ProfilePatch(displayName: Option<string>, photoURL: Option<string>, storagePath: Option<string>)

  const NoUserLoggedIn := "No user logged in"
  /** The error an update of a missing document fails with. */
  const NotFound := "not-found"
  /** The error the authentication service gives when the login is too old to delete the account. */
  const RequiresRecentLogin := "auth/requires-recent-login"

  /** The fixed path of an account's profile photo. */
  function ProfilePhotoPath(uid: string): string {
    "user_uploads/" + uid + "/profile_photo.jpg"
  }

  function ExtraName(extra: Option<ExtraData>): Option<string> {
    match extra
    case None => None
    case Some(e) => e.displayName
  }

  function ExtraPhoto(extra: Option<ExtraData>): Option<string> {
    match extra
    case None => None
    case Some(e) => e.photoURL
  }

  /**
    The profile written for a new account: the display name and the photo
    take the extra value, else the account's own, else null; an empty
    string never survives a fallback.
   */
  function NewProfile(user: AuthUser, extra: Option<ExtraData>, now: nat): (p: UserProfile)
    ensures p.uid == user.uid && p.createdAt == now && p.storagePath.None?
    ensures p.email == if Truthy(user.email) then user.email else None
    ensures Truthy(ExtraName(extra)) ==> p.displayName == ExtraName(extra)
    ensures !Truthy(ExtraName(extra)) ==> p.displayName == FirstTruthy(user.displayName, None)
    ensures Truthy(ExtraPhoto(extra)) ==> p.photoURL == ExtraPhoto(extra)
    ensures !Truthy(ExtraPhoto(extra)) ==> p.photoURL == FirstTruthy(user.photoURL, None)
    ensures p.displayName.None? || Truthy(p.displayName)
    ensures p.photoURL.None? || Truthy(p.photoURL)
  {
    UserProfile(user.uid,
                FirstTruthy(user.email, None),
                FirstTruthy(ExtraName(extra), user.displayName),
                FirstTruthy(ExtraPhoto(extra), user.photoURL),
                now,
                None)
  }

  /** The profile documents after createUserDocument writes successfully: a profile is added only for a new account. */
  function Created(profiles: map<string, UserProfile>, user: Option<AuthUser>, extra: Option<ExtraData>, now: nat)
    : (r: map<string, UserProfile>)
    ensures user.None? ==> r == profiles
    ensures user.Some? ==> r.Keys == profiles.Keys + {user.value.uid}
    ensures forall uid :: uid in profiles ==> uid in r && r[uid] == profiles[uid]
    ensures user.Some? && user.value.uid !in profiles ==> r[user.value.uid] == NewProfile(user.value, extra, now)
  {
    match user
    case None => profiles
    case Some(u) => if u.uid in profiles then profiles else profiles[u.uid := NewProfile(u, extra, now)]
  }

  /** Creating a profile twice is creating it once: the second call, whatever its extra data and time, changes nothing. */
  lemma CreatedIdempotent(profiles: map<string, UserProfile>, user: Option<AuthUser>,
                          extra: Option<ExtraData>, now: nat, extra2: Option<ExtraData>, now2: nat)
    ensures Created(Created(profiles, user, extra, now), user, extra2, now2) == Created(profiles, user, extra, now)
  {
  }

  /** The update written and returned: the input fields, plus the photo URL and storage path when a photo is given. */
  function UpdatedData(uid: string, data: ProfilePatch, hasPhoto: bool, photoUrl: string): (r: ProfilePatch)
    ensures r.displayName == data.displayName
    ensures hasPhoto ==> r.photoURL == Some(photoUrl) && r.storagePath == Some(ProfilePhotoPath(uid))
    ensures !hasPhoto ==> r == data
  {
    if hasPhoto then data.(photoURL := Some(photoUrl), storagePath := Some(ProfilePhotoPath(uid))) else data
  }

  /** A stored profile after an update: each field present in the patch overwrites the stored one. */
  function Patched(p: UserProfile, patch: ProfilePatch): (r: UserProfile)
    ensures r.uid == p.uid && r.email == p.email && r.createdAt == p.createdAt
    ensures r.displayName == if patch.displayName.Some? then patch.displayName else p.displayName
    ensures r.photoURL == if patch.photoURL.Some? then patch.photoURL else p.photoURL
    ensures r.storagePath == if patch.storagePath.Some? then patch.storagePath else p.storagePath
  {
    p.(displayName := if patch.displayName.Some? then patch.displayName else p.displayName,
       photoURL := if patch.photoURL.Some? then patch.photoURL else p.photoURL,
       storagePath := if patch.storagePath.Some? then patch.storagePath else p.storagePath)
  }

  /** The signed-in account after an update: the photo first, then a non-empty display name. */
  function AuthAfterUpdate(current: Option<AuthUser>, data: ProfilePatch, hasPhoto: bool, photoUrl: string)
    : (r: Option<AuthUser>)
    ensures r.None? <==> current.None?
    ensures r.Some? ==> r.value.uid == current.value.uid && r.value.email == current.value.email
    ensures r.Some? ==> r.value.photoURL == if hasPhoto then Some(photoUrl) else current.value.photoURL
    ensures r.Some? ==> r.value.displayName == if Truthy(data.displayName) then data.displayName else current.value.displayName
  {
    match current
    case None => None
    case Some(u) =>
      var withPhoto := if hasPhoto then u.(photoURL := Some(photoUrl)) else u;
      Some(if Truthy(data.displayName) then withPhoto.(displayName := data.displayName) else withPhoto)
  }

  class UserDirectory {
    /** The uids of the existing accounts. */
    var accounts: set<string>
    var currentUser: Option<AuthUser>
    /** The users/<uid> documents. */
    var profiles: map<string, UserProfile>
    /** The paths present in the object store. */
    var objects: set<string>

    ghost predicate Valid()
      reads this
    {
      currentUser.Some? ==> currentUser.value.uid in accounts
    }

    constructor (accounts: set<string>, currentUser: Option<AuthUser>, profiles: map<string, UserProfile>, objects: set<string>)
      requires currentUser.Some? ==> currentUser.value.uid in accounts
      ensures Valid()
      ensures this.accounts == accounts && this.currentUser == currentUser
      ensures this.profiles == profiles && this.objects == objects
    {
      this.accounts := accounts;
      this.currentUser := currentUser;
      this.profiles := profiles;
      this.objects := objects;
    }

    /**
      createUserDocument: nothing without a user; a profile is written only
      when the account has none, so an existing profile is never changed; a
      failed write (writeFails) is swallowed.
     */
    method CreateUserDocument(user: Option<AuthUser>, extra: Option<ExtraData>, now: nat, writeFails: bool)
      modifies this`profiles
      ensures profiles == if writeFails then old(profiles) else Created(old(profiles), user, extra, now)
    {
      if user.None? {
        return;
      }
      var u := user.value;
      if u.uid !in profiles {
        var newProfile := NewProfile(u, extra, now);
        if !writeFails {
          profiles := profiles[u.uid := newProfile];
        }
      }
    }

    /** getUserProfile: the stored profile, or null when the account has none. */
    function GetUserProfile(uid: string): (r: Option<UserProfile>)
      reads this
      ensures r.Some? <==> uid in profiles
      ensures r.Some? ==> r.value == profiles[uid]
    {
      if uid in profiles then Some(profiles[uid]) else None
    }

    /**
      updateUserProfile: a given photo is stored at the fixed profile path
      and its URL and path join the update; the signed-in account takes the
      photo and a non-empty display name; finally the document is updated,
      which fails when it does not exist (after the earlier steps took
      effect).
     */
    method UpdateUserProfile(uid: string, data: ProfilePatch, photo: Option<File>, photoUrl: string)
      returns (r: Result<ProfilePatch, string>)
      requires Valid()
      modifies this`profiles, this`objects, this`currentUser
      ensures Valid()
      ensures var updated := UpdatedData(uid, data, photo.Some?, photoUrl);
        && r == (if uid in old(profiles) then Ok(updated) else Err(NotFound))
        && profiles == (if uid in old(profiles) then old(profiles)[uid := Patched(old(profiles)[uid], updated)] else old(profiles))
      ensures objects == if photo.Some? then old(objects) + {ProfilePhotoPath(uid)} else old(objects)
      ensures currentUser == AuthAfterUpdate(old(currentUser), data, photo.Some?, photoUrl)
    {
      var updatedData := data;
      if photo.Some? {
        var path := ProfilePhotoPath(uid);
        objects := objects + {path};
        updatedData := updatedData.(photoURL := Some(photoUrl), storagePath := Some(path));
        if currentUser.Some? {
          currentUser := Some(currentUser.value.(photoURL := Some(photoUrl)));
        }
      }
      if Truthy(data.displayName) && currentUser.Some? {
        currentUser := Some(currentUser.value.(displayName := data.displayName));
      }
      if uid !in profiles {
        return Err(NotFound);
      }
      profiles := profiles[uid := Patched(profiles[uid], updatedData)];
      r := Ok(updatedData);
    }

    /**
      deleteUserAccount: without a signed-in account it fails before
      anything is deleted. Otherwise the profile document goes first, then
      the profile photo (a failed delete, such as a missing photo, is
      ignored: photoDeleteFails), then the signed-in account itself, which
      the service may refuse (authDeleteFails) after the document and photo
      are already gone.
     */
    method DeleteUserAccount(uid: string, photoDeleteFails: bool, authDeleteFails: bool) returns (r: Result<(), string>)
      requires Valid()
      modifies this`profiles, this`objects, this`accounts, this`currentUser
      ensures Valid()
      ensures old(currentUser).None? ==>
        r == Err(NoUserLoggedIn) && profiles == old(profiles) && objects == old(objects)
        && accounts == old(accounts) && currentUser == old(currentUser)
      ensures old(currentUser).Some? ==>
        && profiles == old(profiles) - {uid}
        && objects == (if photoDeleteFails then old(objects) else old(objects) - {ProfilePhotoPath(uid)})
        && (authDeleteFails ==> r == Err(RequiresRecentLogin) && accounts == old(accounts) && currentUser == old(currentUser))
        && (!authDeleteFails ==> r == Ok(()) && accounts == old(accounts) - {old(currentUser).value.uid} && currentUser.None?)
    {
      if currentUser.None? {
        return Err(NoUserLoggedIn);
      }
      var user := currentUser.value;
      profiles := profiles - {uid};
      if !photoDeleteFails {
        objects := objects - {ProfilePhotoPath(uid)};
      }
      if authDeleteFails {
        return Err(RequiresRecentLogin);
      }
      accounts := accounts - {user.uid};
      currentUser := None;
      r := Ok(());
    }
  }
}
