/**
 The profile settings page: avatar initials, the storage path of an uploaded
 avatar, and the state changes of uploading an avatar, loading the profile
 and saving the name. Storage and table calls are answers passed in;
 `Math.random()` is the string `rand`.
 */
module Settings {
  import opened Common

  datatype FileInfo = FileInfo(name: string)

  /** The answers of the platform calls an upload makes. */
  datatype UploadAnswers = UploadAnswers(
    uploadError: Option<string>,
    publicUrl: string -> string,   // getPublicUrl of a storage path
    updateError: Option<string>)

  /** The new avatar URL, the `uploading` flag, the storage path written (if
      any), the URL written to the profile row (if any), and the toast. */
  datatype UploadOutcome = UploadOutcome(
    avatarUrl: string,
    uploading: bool,
    uploadedTo: Option<string>,
    profileUpdate: Option<string>,
    toast: Option<Toast>)

  datatype ProfileRow = ProfileRow(fullName: Option<string>, avatarUrl: Option<string>)

  datatype ProfileFields = ProfileFields(fullName: string, avatarUrl: string)

  /** The `profiles.update` made on save, the toast, and the final `loading`. */
  datatype SaveOutcome = SaveOutcome(update: ProfileUpdate, toast: Toast, loading: bool)

  datatype ProfileUpdate = ProfileUpdate(id: string, fullName: string)

  const Space: char := ' '
  const Dot: char := '.'
  const FallbackInitial: string := "U"

  /** `${user?.id}`: a missing user prints as `undefined`. */
  function IdText(userId: Option<string>): string {
    userId.GetOr("undefined")
  }

  /** `words.map(n => n[0]).join('')`: the first character of each word; an
      empty word gives `undefined`, which `join` prints as nothing. */
  function Heads(words: seq<string>): (r: string)
    ensures |r| <= |words|
    decreases |words|
  {
    if |words| == 0 then ""
    else (if |words[0]| > 0 then [words[0][0]] else "") + Heads(words[1..])
  }

  /** Reference definition: the characters of `s` that start a word, i.e.
      that are not spaces and follow a space or the start. */
  function WordStarts(s: string, afterSpace: bool): string
    decreases |s|
  {
    if |s| == 0 then ""
    else if s[0] == Space then WordStarts(s[1..], true)
    else (if afterSpace then [s[0]] else "") + WordStarts(s[1..], false)
  }

  /** Taking the first character of each space-separated piece picks exactly
      the word-starting characters. */
  lemma {:induction false} HeadsOfSplit(s: string, afterSpace: bool)
    ensures WordStarts(s, afterSpace)
            == if afterSpace then Heads(Split(s, Space)) else Heads(Split(s, Space)[1..])
    decreases |s|
  {
    if |s| > 0 {
      var rest := Split(s[1..], Space);
      HeadsOfSplit(s[1..], true);
      HeadsOfSplit(s[1..], false);
      if s[0] == Space {
        assert Split(s, Space) == [""] + rest;
        assert ([""] + rest)[1..] == rest;
      } else {
        var parts := [[s[0]] + rest[0]] + rest[1..];
        assert Split(s, Space) == parts;
        assert parts[1..] == rest[1..];
        assert Heads(parts) == [s[0]] + Heads(rest[1..]);
      }
    }
  }

  /** `getInitials`: with a name, the first letters of its words, upper-cased,
      at most two; without one, the first two characters of the e-mail
      upper-cased, or `U` when there is no e-mail. */
  function Initials(fullName: string, email: Option<string>): (r: string)
    ensures |r| <= 2
    ensures fullName != "" ==> r == Take(Upper(WordStarts(fullName, true)), 2)
    ensures fullName == "" && Truthy(email) ==> r == Upper(Take(email.value, 2)) && |r| >= 1
    ensures fullName == "" && !Truthy(email) ==> r == FallbackInitial
  {
    if fullName != "" then
      HeadsOfSplit(fullName, true);
      Take(Upper(Heads(Split(fullName, Space))), 2)
    else
      var fromEmail := if email.Some? then Some(Upper(Take(email.value, 2))) else None;
      UpperTake(email.GetOr(""), 2);
      OrElse(fromEmail, FallbackInitial)
  }

  /** A name of spaces only has no word, so its initials are empty (the `U`
      fallback applies only to the e-mail branch). */
  lemma BlankNameHasNoInitials(n: nat, email: Option<string>)
    requires n > 0
    ensures Initials(seq(n, _ => Space), email) == ""
  {
    var s := seq(n, _ => Space);
    assert WordStarts(s, true) == "" by {
      BlankWordStarts(s, true);
    }
  }

  lemma {:induction false} BlankWordStarts(s: string, afterSpace: bool)
    requires forall i :: 0 <= i < |s| ==> s[i] == Space
    ensures WordStarts(s, afterSpace) == ""
    decreases |s|
  {
    if |s| > 0 {
      BlankWordStarts(s[1..], true);
    }
  }

  /** `file.name.split('.').pop()`: the text after the last dot, or the whole
      name when it has none. */
  function FileExt(name: string): (ext: string)
    ensures Dot !in ext
    ensures |ext| <= |name| && ext == name[|name| - |ext|..]
    ensures Dot in name ==> |ext| < |name| && name[|name| - |ext| - 1] == Dot
    ensures Dot !in name ==> ext == name
  {
    LastPieceIsSuffix(name, Dot);
    LastPiece(name, Dot)
  }

  /** The storage key `${user?.id}/${Math.random()}.${fileExt}`: the user's
      folder, then the random part, then a dot and the file's extension. */
  function AvatarPath(userId: Option<string>, rand: string, fileName: string): (path: string)
    ensures var id, ext := IdText(userId), FileExt(fileName);
      && |path| == |id| + 1 + |rand| + 1 + |ext|
      && path[..|id|] == id && path[|id|] == '/'
      && path[|id| + 1..|id| + 1 + |rand|] == rand
      && path[|id| + 1 + |rand|] == Dot
      && path[|id| + 2 + |rand|..] == ext
  {
    IdText(userId) + "/" + rand + [Dot] + FileExt(fileName)
  }

  /** The stored object keeps the uploaded file's extension: reading the
      extension back from the key gives the file's own extension. */
  lemma AvatarPathKeepsExt(userId: Option<string>, rand: string, fileName: string)
    ensures FileExt(AvatarPath(userId, rand, fileName)) == FileExt(fileName)
  {
    var ext := FileExt(fileName);
    var stem := IdText(userId) + "/" + rand;
    SplitAppend(stem, ext, Dot);
    SplitNoSep(ext, Dot);
    assert AvatarPath(userId, rand, fileName) == stem + [Dot] + ext;
  }

  /** Within one user's folder a key determines both the random part and the
      extension, even when the random part holds dots of its own. */
  lemma AvatarPathDetermines(userId: Option<string>, r1: string, f1: string, r2: string, f2: string)
    requires AvatarPath(userId, r1, f1) == AvatarPath(userId, r2, f2)
    ensures r1 == r2 && FileExt(f1) == FileExt(f2)
  {
    AvatarPathKeepsExt(userId, r1, f1);
    AvatarPathKeepsExt(userId, r2, f2);
  }

  /** `uploadAvatar`: no file ends at once; otherwise the upload, then the
      profile update, and the avatar URL changes only when both succeeded.
      `uploading` is false afterwards in every case. */
  function UploadAvatar(currentUrl: string, userId: Option<string>, files: Option<seq<FileInfo>>,
                        rand: string, ans: UploadAnswers): (o: UploadOutcome)
    ensures !o.uploading
    ensures (files.None? || |files.value| == 0) ==>
              o.avatarUrl == currentUrl && o.uploadedTo.None? && o.profileUpdate.None? && o.toast.None?
    ensures o.uploadedTo.Some? <==> files.Some? && |files.value| > 0
    ensures o.uploadedTo.Some? ==> o.uploadedTo.value == AvatarPath(userId, rand, files.value[0].name)
    ensures o.profileUpdate.Some? <==> o.uploadedTo.Some? && ans.uploadError.None?
    ensures o.profileUpdate.Some? ==> o.profileUpdate.value == ans.publicUrl(o.uploadedTo.value)
    ensures o.avatarUrl != currentUrl ==> o.profileUpdate.Some? && ans.updateError.None?
    ensures o.profileUpdate.Some? && ans.updateError.None? ==> o.avatarUrl == o.profileUpdate.value
    ensures o.toast.Some? && o.toast.value.destructive ==>
              o.avatarUrl == currentUrl && (ans.uploadError.Some? || ans.updateError.Some?)
    ensures o.uploadedTo.Some? && ans.uploadError.Some? ==>
              o.toast == Some(Toast("Error", ans.uploadError.value, true))
    ensures o.profileUpdate.Some? && ans.updateError.Some? ==>
              o.toast == Some(Toast("Error", ans.updateError.value, true))
    ensures o.profileUpdate.Some? && ans.updateError.None? ==>
              o.toast.Some? && !o.toast.value.destructive
  {
    if files.None? || |files.value| == 0 then UploadOutcome(currentUrl, false, None, None, None)
    else
      var path := AvatarPath(userId, rand, files.value[0].name);
      match ans.uploadError
      case Some(msg) =>
        UploadOutcome(currentUrl, false, Some(path), None, Some(Toast("Error", msg, true)))
      case None =>
        var url := ans.publicUrl(path);
        match ans.updateError
        case Some(msg) =>
          UploadOutcome(currentUrl, false, Some(path), Some(url), Some(Toast("Error", msg, true)))
        case None =>
          UploadOutcome(url, false, Some(path), Some(url),
                        Some(Toast("Success!", "Avatar updated successfully.", false)))
  }

  /** The stored object keeps the chosen file's extension, whatever happens
      after the upload. */
  lemma UploadKeepsExtension(currentUrl: string, userId: Option<string>, files: Option<seq<FileInfo>>,
                             rand: string, ans: UploadAnswers)
    ensures var o := UploadAvatar(currentUrl, userId, files, rand, ans);
      o.uploadedTo.Some? ==> FileExt(o.uploadedTo.value) == FileExt(files.value[0].name)
  {
    if files.Some? && |files.value| > 0 {
      AvatarPathKeepsExt(userId, rand, files.value[0].name);
    }
  }

  /** What the page writes it reads back: after a successful save, and after
      a successful avatar upload, loading the row those writes produced gives
      the saved name and the new avatar URL. */
  lemma ProfileRoundTrip(userId: Option<string>, fullName: string, currentUrl: string,
                         files: Option<seq<FileInfo>>, rand: string, ans: UploadAnswers,
                         cur: ProfileFields)
    ensures var s := SaveProfile(userId, fullName, None);
      var u := UploadAvatar(currentUrl, userId, files, rand, ans);
      u.profileUpdate.Some? && ans.updateError.None? ==>
        LoadProfile(cur, Ok(Some(ProfileRow(Some(s.update.fullName), u.profileUpdate))))
          == ProfileFields(fullName, u.avatarUrl)
  {
  }

  /** `loadProfile`: a row sets both fields, `null` columns as empty strings;
      no row or an error leaves them as they were. */
  function LoadProfile(cur: ProfileFields, answer: Result<Option<ProfileRow>>): (r: ProfileFields)
    ensures answer.Err? || answer.value.None? ==> r == cur
    ensures answer.Ok? && answer.value.Some? ==>
              var row := answer.value.value;
              && (row.fullName.Some? ==> r.fullName == row.fullName.value)
              && (row.fullName.None? ==> r.fullName == "")
              && (row.avatarUrl.Some? ==> r.avatarUrl == row.avatarUrl.value)
              && (row.avatarUrl.None? ==> r.avatarUrl == "")
  {
    match answer
    case Err(_) => cur
    case Ok(None) => cur
    case Ok(Some(row)) => ProfileFields(OrElse(row.fullName, ""), OrElse(row.avatarUrl, ""))
  }

  /** `updateProfile`: the name is written under the user's id; the toast
      reports the answer and loading ends. */
  function SaveProfile(userId: Option<string>, fullName: string, error: Option<string>): (o: SaveOutcome)
    ensures !o.loading
    ensures o.update.fullName == fullName && o.update.id == IdText(userId)
    ensures o.toast.destructive <==> error.Some?
    ensures error.Some? ==> o.toast.description == error.value
  {
    SaveOutcome(ProfileUpdate(IdText(userId), fullName),
                match error
                case None => Toast("Success!", "Profile updated successfully.", false)
                case Some(msg) => Toast("Error", msg, true),
                false)
  }
}
