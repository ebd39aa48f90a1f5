/** The profile editor (ProfileWindow): it loads the signed-in user's row,
    lets the user pick a new photo, and on Save checks the form and writes
    the changes. The database, BCrypt and the WPF image decoder are
    parameters: a reply to the SELECT, a hash function, a success flag for
    the UPDATE statements and a predicate saying which bytes decode. */
module Profile {
  import opened Prelude
  import opened Models
  import opened EmailPatterns

  /** Why Save refuses the form, in the order the checks run. */
  datatype ProfileError = BlankUsername | BadEmail | ShortPassword | PasswordMismatch

  /** The four text fields after `Trim()`: all the checks ever see. */
  datatype ProfileForm = ProfileForm(username: string, email: string, password: string, confirm: string)

  function TrimmedForm(t: CharTables, username: string, email: string, password: string, confirm: string): ProfileForm {
    ProfileForm(Trim(t, username), Trim(t, email), Trim(t, password), Trim(t, confirm))
  }

  /** A form Save accepts, said all at once: a non-blank user name, an email
      the profile pattern accepts, and either no new password or one of at
      least five characters that equals its confirmation. */
  predicate ProfileAcceptable(t: CharTables, f: ProfileForm) {
    && !IsBlank(t, f.username)
    && IsValidProfileEmail(t, f.email)
    && (f.password == [] || (Utf16Length(f.password) >= 5 && f.password == f.confirm))
  }

  /** The chain of early returns in Save: the first failing check wins. */
  function CheckProfile(t: CharTables, f: ProfileForm): (r: Option<ProfileError>)
    ensures r == None <==> ProfileAcceptable(t, f)
    ensures r == Some(BlankUsername) <==> IsBlank(t, f.username)
    ensures r == Some(BadEmail) ==> !IsBlank(t, f.username) && !IsValidProfileEmail(t, f.email)
    ensures r == Some(ShortPassword) ==> IsValidProfileEmail(t, f.email) && f.password != [] && Utf16Length(f.password) < 5
    ensures r == Some(PasswordMismatch) ==> IsValidProfileEmail(t, f.email) && Utf16Length(f.password) >= 5 && f.password != f.confirm
  {
    if IsBlank(t, f.username) then Some(BlankUsername)
    else if !IsValidProfileEmail(t, f.email) then Some(BadEmail)
    else if f.password != [] && Utf16Length(f.password) < 5 then Some(ShortPassword)
    else if f.password != [] && f.password != f.confirm then Some(PasswordMismatch)
    else None
  }

  /** What Save writes for one user: the two or three columns of the first
      UPDATE, and the photo of the second one when there is a new photo. */
  datatype ProfileWrite = ProfileWrite(userId: int, username: string, email: string, passwordHash: Option<string>, image: Option<seq<byte>>)

  datatype SaveOutcome = Refused(reason: ProfileError) | SaveFailed | Saved(write: ProfileWrite)

  /** Save for a user with id `userId` and a pending photo `newPhoto`;
      `hash` is BCrypt's `HashPassword` and `dbOk` is false when the
      connection or a statement throws. */
  function SaveResult(t: CharTables, userId: int, newPhoto: Option<seq<byte>>,
                      username: string, email: string, password: string, confirm: string,
                      hash: string -> string, dbOk: bool): (r: SaveOutcome)
    ensures r.Refused? <==> CheckProfile(t, TrimmedForm(t, username, email, password, confirm)).Some?
    ensures r.Refused? ==> CheckProfile(t, TrimmedForm(t, username, email, password, confirm)) == Some(r.reason)
    ensures r.Saved? <==> dbOk && CheckProfile(t, TrimmedForm(t, username, email, password, confirm)) == None
    ensures r.Saved? ==> r.write.userId == userId && r.write.username == Trim(t, username) && r.write.email == Trim(t, email)
    ensures r.Saved? ==> (r.write.passwordHash.Some? <==> Trim(t, password) != [])
    ensures r.Saved? && r.write.passwordHash.Some? ==> r.write.passwordHash.value == hash(Trim(t, password))
    ensures r.Saved? ==> r.write.image == newPhoto
  {
    var f := TrimmedForm(t, username, email, password, confirm);
    match CheckProfile(t, f)
    case Some(e) => Refused(e)
    case None =>
      if !dbOk then SaveFailed
      else
        var h := if f.password != [] then Some(hash(f.password)) else None;
        Saved(ProfileWrite(userId, f.username, f.email, h, newPhoto))
  }

  /** The in-memory user after Save: touched only once every statement ran. */
  function AfterSave(user: User, r: SaveOutcome): (u: User)
    ensures !r.Saved? ==> u == user
    ensures u.userId == user.userId && u.role == user.role
    ensures r.Saved? ==> u.username == r.write.username && u.email == r.write.email
    ensures r.Saved? ==> u.profileImage == if r.write.image.Some? then r.write.image else user.profileImage
  {
    if r.Saved? then
      user.(username := r.write.username, email := r.write.email,
            profileImage := if r.write.image.Some? then r.write.image else user.profileImage)
    else user
  }

  /** Padding around any field never changes what Save does: it trims
      before every check and every write. */
  lemma SaveSeesOnlyTrimmedText(t: CharTables, userId: int, newPhoto: Option<seq<byte>>,
                                username: string, email: string, password: string, confirm: string,
                                hash: string -> string, dbOk: bool)
    ensures SaveResult(t, userId, newPhoto, username, email, password, confirm, hash, dbOk)
         == SaveResult(t, userId, newPhoto, Trim(t, username), Trim(t, email), Trim(t, password), Trim(t, confirm), hash, dbOk)
  {
    TrimIdempotent(t, username);
    TrimIdempotent(t, email);
    TrimIdempotent(t, password);
    TrimIdempotent(t, confirm);
  }

  /** A password field holding only white space counts as "no new password":
      its checks are skipped and the stored hash is left alone. */
  lemma BlankPasswordKeepsHash(t: CharTables, userId: int, newPhoto: Option<seq<byte>>,
                               username: string, email: string, password: string, confirm: string,
                               hash: string -> string, dbOk: bool)
    requires IsBlank(t, password)
    ensures SaveResult(t, userId, newPhoto, username, email, password, confirm, hash, dbOk)
            !in {Refused(ShortPassword), Refused(PasswordMismatch)}
    ensures SaveResult(t, userId, newPhoto, username, email, password, confirm, hash, dbOk).Saved? ==>
              SaveResult(t, userId, newPhoto, username, email, password, confirm, hash, dbOk).write.passwordHash == None
  {
    var r := SaveResult(t, userId, newPhoto, username, email, password, confirm, hash, dbOk);
    TrimEmptyIffBlank(t, password);
    assert TrimmedForm(t, username, email, password, confirm).password == [];
  }

  /** A saved email is a non-empty text the profile regex matches, and the
      saved user name keeps at least one visible character. */
  lemma SavedFieldsAreWellFormed(t: CharTables, userId: int, newPhoto: Option<seq<byte>>,
                                 username: string, email: string, password: string, confirm: string,
                                 hash: string -> string, dbOk: bool)
    requires Sane(t)
    requires SaveResult(t, userId, newPhoto, username, email, password, confirm, hash, dbOk).Saved?
    ensures ProfileRegexMatches(t, Trim(t, email)) && Trim(t, email) != []
    ensures Trim(t, username) != [] && !IsBlank(t, username)
  {
    ProfileEmailExactly(t, Trim(t, email));
    TrimEmptyIffBlank(t, username);
    TrimEmptyIffBlank(t, Trim(t, username));
  }

  /** The reply to `SELECT Username, Email, ProfileImage ... WHERE UserId`. */
  datatype UserRow = UserRow(username: string, email: string, image: Option<seq<byte>>)
  datatype RowReply = Found(row: UserRow) | NoRow | ReadFailed

  /** What the image control shows; `Unset` until the window assigns it. */
  datatype Avatar = Unset | DefaultAvatar | Photo(bytes: seq<byte>)

  /** `BytesToBitmapImage(bytes) ?? DefaultAvatar()`: null or empty bytes, and
      bytes the decoder refuses, fall back to the default picture. */
  function AvatarFor(image: Option<seq<byte>>, decodes: seq<byte> -> bool): (a: Avatar)
    ensures a != Unset
    ensures image == None || image == Some([]) ==> a == DefaultAvatar
    ensures a.Photo? ==> image == Some(a.bytes) && decodes(a.bytes)
  {
    if image.Some? && |image.value| > 0 && decodes(image.value) then Photo(image.value) else DefaultAvatar
  }

  /** The user after LoadUserData: a user without a valid id is refused
      before any query, a missing row or a failed query change nothing, and
      a found row replaces the name, email and photo. */
  function LoadedUser(user: User, reply: RowReply): (u: User)
    ensures u.userId == user.userId && u.role == user.role
    ensures user.userId <= 0 || !reply.Found? ==> u == user
    ensures user.userId > 0 && reply.Found? ==>
              u.username == reply.row.username && u.email == reply.row.email && u.profileImage == reply.row.image
  {
    if user.userId > 0 && reply.Found? then
      user.(username := reply.row.username, email := reply.row.email, profileImage := reply.row.image)
    else user
  }

  /** The avatar after LoadUserData: untouched when the guard refuses the
      user or the query throws, otherwise derived from the (possibly reloaded)
      photo. */
  function LoadedAvatar(user: User, reply: RowReply, decodes: seq<byte> -> bool, before: Avatar): (a: Avatar)
    ensures user.userId <= 0 || reply.ReadFailed? ==> a == before
    ensures user.userId > 0 && !reply.ReadFailed? ==> a == AvatarFor(LoadedUser(user, reply).profileImage, decodes)
  {
    if user.userId <= 0 || reply.ReadFailed? then before
    else AvatarFor(LoadedUser(user, reply).profileImage, decodes)
  }

  /** What the file dialog of Change photo produced. */
  datatype PhotoPick = PickCancelled | PickUnreadable | Picked(bytes: seq<byte>)

  /** The bytes Change photo keeps: only a picked file that decodes. */
  function AcceptedPhoto(pick: PhotoPick, decodes: seq<byte> -> bool): (r: Option<seq<byte>>)
    ensures r.Some? ==> pick == Picked(r.value) && |r.value| > 0 && decodes(r.value)
    ensures pick.Picked? && |pick.bytes| > 0 && decodes(pick.bytes) ==> r.Some?
  {
    if pick.Picked? && |pick.bytes| > 0 && decodes(pick.bytes) then Some(pick.bytes) else None
  }

  class ProfileWindow {
    var user: User
    var newPhotoBytes: Option<seq<byte>>
    var avatar: Avatar
    var closed: bool

    /** A pending photo is never empty: only decodable bytes are kept. */
    predicate Valid()
      reads this
    {
      newPhotoBytes.Some? ==> |newPhotoBytes.value| > 0
    }

    /** The constructor refuses a null user (modelled by the type) and loads
        the user's row. */
    constructor(user: User, reply: RowReply, decodes: seq<byte> -> bool)
      ensures Valid() && !closed && newPhotoBytes == None
      ensures this.user == LoadedUser(user, reply)
      ensures avatar == LoadedAvatar(user, reply, decodes, Unset)
    {
      this.user := user;
      newPhotoBytes := None;
      avatar := Unset;
      closed := false;
      new;
      LoadUserData(reply, decodes);
    }

    method LoadUserData(reply: RowReply, decodes: seq<byte> -> bool)
      modifies this
      ensures user == LoadedUser(old(user), reply)
      ensures avatar == LoadedAvatar(old(user), reply, decodes, old(avatar))
      ensures newPhotoBytes == old(newPhotoBytes) && closed == old(closed)
    {
      if user.userId <= 0 {
        return;
      }
      if reply.ReadFailed? {
        return;
      }
      user := LoadedUser(user, reply);
      avatar := AvatarFor(user.profileImage, decodes);
    }

    method ChangePhoto(pick: PhotoPick, decodes: seq<byte> -> bool)
      requires Valid()
      modifies this
      ensures Valid()
      ensures AcceptedPhoto(pick, decodes).Some? ==>
                newPhotoBytes == AcceptedPhoto(pick, decodes) && avatar == Photo(newPhotoBytes.value)
      ensures AcceptedPhoto(pick, decodes).None? ==>
                newPhotoBytes == old(newPhotoBytes) && avatar == old(avatar)
      ensures user == old(user) && closed == old(closed)
    {
      var accepted := AcceptedPhoto(pick, decodes);
      if accepted.Some? {
        newPhotoBytes := accepted;
        avatar := Photo(accepted.value);
      }
    }

    /** Save; the window starts closing only after a successful save. */
    method Save(t: CharTables, username: string, email: string, password: string, confirm: string,
                hash: string -> string, dbOk: bool) returns (r: SaveOutcome)
      requires Valid() && !closed
      modifies this
      ensures r == SaveResult(t, old(user).userId, old(newPhotoBytes), username, email, password, confirm, hash, dbOk)
      ensures user == AfterSave(old(user), r)
      ensures closed <==> r.Saved?
      ensures r.Saved? && r.write.image.Some? ==> |r.write.image.value| > 0
      ensures Valid() && newPhotoBytes == old(newPhotoBytes) && avatar == old(avatar)
    {
      r := SaveResult(t, user.userId, newPhotoBytes, username, email, password, confirm, hash, dbOk);
      Commit(r);
    }

    /** The part of Save after the statements: the user fields, then the
        closing animation. */
    method Commit(r: SaveOutcome)
      requires Valid() && !closed
      requires r.Saved? && r.write.image.Some? ==> r.write.image == newPhotoBytes
      modifies this
      ensures user == AfterSave(old(user), r)
      ensures closed <==> r.Saved?
      ensures r.Saved? && r.write.image.Some? ==> |r.write.image.value| > 0
      ensures Valid() && newPhotoBytes == old(newPhotoBytes) && avatar == old(avatar)
    {
      user := AfterSave(user, r);
      closed := r.Saved?;
    }

    method Cancel()
      modifies this
      ensures closed
      ensures user == old(user) && newPhotoBytes == old(newPhotoBytes) && avatar == old(avatar)
    {
      closed := true;
    }
  }
}
