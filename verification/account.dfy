/**
 * The account page: the profile-picture checks and storage path, the profile, password,
 * e-mail and phone forms, the referral link, and the styling of the status message.
 * Every backend call is replaced by the outcome it reports, given as a parameter.
 */
module AccountPage {
  import opened Common
  import opened Text

  /** The largest picture accepted, in bytes: five mebibytes. */
  const MaxPictureSize: int := 5 * 1024 * 1024

  /** The MIME types a picture may have. */
  const ValidTypes: seq<string> := ["image/jpeg", "image/jpg", "image/png", "image/gif", "image/webp"]

  const TooLarge: string := "File size must be less than 5MB"
  const BadType: string := "Only JPEG, PNG, GIF, and WebP images are allowed"
  /** "Profile picture updated successfully", kept in pieces around "success". */
  const PictureUpdated: string := "Profile picture updated " + "success" + "fully"
  const PictureFailed: string := "Error uploading picture"
  /** "Profile updated successfully", kept in pieces around "success". */
  const ProfileUpdated: string := "Profile updated " + "success" + "fully"
  const ProfileFailed: string := "Error updating profile"
  const PasswordMismatch: string := "New passwords do not match"
  const PasswordTooShort: string := "Password must be at least 6 characters"
  /** "Password updated successfully", kept in pieces around "success". */
  const PasswordUpdated: string := "Password updated " + "success" + "fully"
  const PasswordFailed: string := "Error updating password"
  /** "Email update initiated. Please check your new email for confirmation.", kept in pieces around its one 's'. */
  const EmailNotice: string := "Email update initiated. Plea" + "s" + "e check your new " + "email for confirmation."
  const EmailFailed: string := "Error updating email"
  /** "Phone number updated successfully", kept in pieces around "success". */
  const PhoneUpdated: string := "Phone number updated " + "success" + "fully"
  const PhoneFailed: string := "Error updating phone number"

  /** The picture checks, size first: the message of the first one that fails, if any. */
  function FileCheck(size: int, mime: string): (r: Option<string>)
    ensures r.None? <==> size <= MaxPictureSize && mime in ValidTypes
    ensures size > MaxPictureSize ==> r == Some(TooLarge)
    ensures size <= MaxPictureSize && mime !in ValidTypes ==> r == Some(BadType)
  {
    if size > MaxPictureSize then Some(TooLarge)
    else if mime !in ValidTypes then Some(BadType)
    else None
  }

  /** A picture of exactly five mebibytes passes the size check; one byte more does not. */
  lemma FiveMebibytesBoundary()
    ensures FileCheck(5242880, "image/png").None?
    ensures FileCheck(5242881, "image/png") == Some(TooLarge)
    ensures FileCheck(5242881, "text/plain") == Some(TooLarge)
  {
  }

  /** `name.split('.').pop()`: the text after the last dot, or the whole name without a dot. */
  function Extension(name: string): (ext: string)
    ensures '.' !in ext
    ensures '.' !in name ==> ext == name
    ensures '.' in name ==> exists stem :: name == stem + "." + ext
  {
    var parts := Split(name, '.');
    if '.' in name then
      JoinInitLast(parts, '.');
      JoinSplit(name, '.');
      assert name == Join(parts[..|parts| - 1], '.') + "." + parts[|parts| - 1];
      parts[|parts| - 1]
    else parts[|parts| - 1]
  }

  /** The extension is the unique dot-free tail after a dot: any split of the name at a dot whose tail has no dot gives it. */
  lemma {:induction false} ExtensionIsLastSegment(stem: string, ext: string)
    requires '.' !in ext
    ensures Extension(stem + "." + ext) == ext
  {
    var name := stem + "." + ext;
    assert name[|stem|] == '.';
    var e := Extension(name);
    var stem' :| name == stem' + "." + e;
    LastDotUnique(stem, ext, stem', e);
  }

  /** Two splits of one string at a dot, each with a dot-free tail, are the same split. */
  lemma {:induction false} LastDotUnique(s1: string, t1: string, s2: string, t2: string)
    requires '.' !in t1 && '.' !in t2
    requires s1 + "." + t1 == s2 + "." + t2
    ensures t1 == t2
  {
    var n := s1 + "." + t1;
    if |t1| < |t2| {
      DotInLongerTail(s1, t1, s2, t2);
      assert false;
    } else if |t2| < |t1| {
      DotInLongerTail(s2, t2, s1, t1);
      assert false;
    } else {
      assert t1 == n[|n| - |t1|..];
      assert t2 == n[|n| - |t2|..];
    }
  }

  /** When the second tail is longer, it holds the first split's dot. */
  lemma DotInLongerTail(s1: string, t1: string, s2: string, t2: string)
    requires s1 + "." + t1 == s2 + "." + t2 && |t1| < |t2|
    ensures '.' in t2
  {
    var n := s1 + "." + t1;
    var k := |t2| - |t1| - 1;
    assert n[|s1|] == '.';
    assert n[|s2| + 1 + k] == t2[k];
  }

  /** The object path of an uploaded picture: `<user id>/profile.<extension>`. */
  function StoragePath(userId: string, fileName: string): (path: string)
    ensures |path| >= |userId| + 9 && path[..|userId| + 9] == userId + "/profile."
    ensures '.' !in path[|userId| + 9..]
    ensures '.' !in fileName ==> path[|userId| + 9..] == fileName
  {
    userId + "/profile." + Extension(fileName)
  }

  /** A file named `<stem>.<ext>` with a dot-free `ext` is stored at `<user id>/profile.<ext>`. */
  lemma StoragePathOfDotted(userId: string, stem: string, ext: string)
    requires '.' !in ext
    ensures StoragePath(userId, stem + "." + ext) == userId + "/profile." + ext
  {
    ExtensionIsLastSegment(stem, ext);
  }

  /** `x || null` on a form field: the empty string becomes absent. */
  function OrNull(s: string): (r: Option<string>)
    ensures r.None? <==> s == ""
    ensures r.Some? ==> r.value == s
  {
    if s == "" then None else Some(s)
  }

  /** `x || ''` when a stored column fills a form field. */
  function OrEmpty(o: Option<string>): (s: string)
    ensures s == "" <==> !Truthy(o)
    ensures s != "" ==> o == Some(s)
  {
    if Truthy(o) then o.value else ""
  }

  /** Loading a saved field and saving it again writes back what was stored, an empty string aside. */
  lemma SaveAfterLoad(o: Option<string>)
    ensures OrNull(OrEmpty(o)) == (if o == Some("") then None else o)
    ensures OrEmpty(OrNull(OrEmpty(o))) == OrEmpty(o)
  {
  }

  /** The editable profile fields as the form holds them: all text. */
  datatype ProfileFields = ProfileFields(
    fullName: string, weight: string, height: string, experienceLevel: string, preferredDiscipline: string)

  /**
   * The profile update the save sends. Weight and height keep the text that `parseInt`
   * would read; only their absence is modelled.
   */
  datatype ProfileUpdate = ProfileUpdate(
    fullName: Option<string>, weight: Option<string>, height: Option<string>,
    experienceLevel: string, preferredDiscipline: Option<string>)

  /** The update for the current fields: every empty optional field is sent as null. */
  function ProfileUpdateOf(f: ProfileFields): (u: ProfileUpdate)
    ensures u.fullName.None? <==> f.fullName == ""
    ensures u.weight.None? <==> f.weight == ""
    ensures u.height.None? <==> f.height == ""
    ensures u.preferredDiscipline.None? <==> f.preferredDiscipline == ""
    ensures u.experienceLevel == f.experienceLevel
    ensures f.experienceLevel != "" ==> ProfileFieldsOf(u) == f
  {
    ProfileUpdate(OrNull(f.fullName), OrNull(f.weight), OrNull(f.height), f.experienceLevel, OrNull(f.preferredDiscipline))
  }

  /** The form fields the load fills from a stored profile; an empty experience level reads as "Beginner". */
  function ProfileFieldsOf(u: ProfileUpdate): ProfileFields {
    ProfileFields(OrEmpty(u.fullName), OrEmpty(u.weight), OrEmpty(u.height),
      if u.experienceLevel == "" then "Beginner" else u.experienceLevel, OrEmpty(u.preferredDiscipline))
  }

  /**
   * The password checks, mismatch first: the message of the first one that fails, if any.
   * The length is JavaScript's, counted in UTF-16 code units.
   */
  function PasswordCheck(newPassword: string, confirmPassword: string): (r: Option<string>)
    ensures r.None? <==> newPassword == confirmPassword && Utf16Length(newPassword) >= 6
    ensures newPassword != confirmPassword ==> r == Some(PasswordMismatch)
    ensures newPassword == confirmPassword && Utf16Length(newPassword) < 6 ==> r == Some(PasswordTooShort)
    ensures newPassword == confirmPassword && |newPassword| >= 6 ==> r.None?
    ensures newPassword == confirmPassword && 2 * |newPassword| < 6 ==> r == Some(PasswordTooShort)
  {
    if newPassword != confirmPassword then Some(PasswordMismatch)
    else if Utf16Length(newPassword) < 6 then Some(PasswordTooShort)
    else None
  }

  /** Five characters, one of them outside the Basic Multilingual Plane, are six code units: long enough. */
  lemma AstralCharacterCountsTwice()
    ensures PasswordCheck("abcd\U{1F600}", "abcd\U{1F600}").None?
    ensures PasswordCheck("abcde", "abcde") == Some(PasswordTooShort)
  {
    assert Utf16Length("abcd\U{1F600}") == 6;
    assert Utf16Length("abcde") == 5;
  }

  /** Two different short passwords are reported as a mismatch, not as too short. */
  lemma MismatchReportedFirst()
    ensures PasswordCheck("abc", "abd") == Some(PasswordMismatch)
    ensures PasswordCheck("abc", "abc") == Some(PasswordTooShort)
  {
  }

  /** The referral link `<origin>?ref=<code>`, absent without a code. */
  function ReferralLink(origin: string, code: Option<string>): (link: Option<string>)
    ensures link.None? <==> !Truthy(code)
    ensures link.Some? ==> link.value == origin + "?ref=" + code.value
  {
    if Truthy(code) then Some(origin + "?ref=" + code.value) else None
  }

  /** The origin and the code can be read back from the link. */
  lemma ReferralLinkParts(origin: string, code: string)
    requires code != ""
    ensures var link := ReferralLink(origin, Some(code)).value;
      link[..|origin|] == origin && link[|origin| + 5..] == code
  {
  }

  /** How the status message is shown. */
  datatype Style = Hidden | SuccessStyle | ErrorStyle

  /** The styling as written: green when the text includes "success", red otherwise. */
  function MessageStyle(message: string): (v: Style)
    ensures v == Hidden <==> message == ""
    ensures v == SuccessStyle <==> message != "" && Contains(message, "success")
  {
    if message == "" then Hidden
    else if Contains(message, "success") then SuccessStyle
    else ErrorStyle
  }

  /** The intended styling: green exactly for the message of an operation that succeeded. */
  function NoticeStyle(message: string, succeeded: bool): (v: Style)
    ensures v == Hidden <==> message == ""
    ensures v == SuccessStyle <==> message != "" && succeeded
  {
    if message == "" then Hidden
    else if succeeded then SuccessStyle
    else ErrorStyle
  }

  /** A message whose only 's' has no other 's' five places later cannot include "success". */
  lemma NoSuccessWithOneS(p: string, q: string)
    requires 's' !in p && 's' !in q
    ensures !Contains(p + "s" + q, "success")
  {
    var m := p + "s" + q;
    OnlyS(p, q);
    forall i: nat
      ensures !MatchesAt(m, "success", i)
    {
      if i + 7 <= |m| {
        assert m[i..i + 7][0] == m[i] && m[i..i + 7][5] == m[i + 5];
      }
    }
    NotContains(m, "success");
  }

  /** In `p + "s" + q` with no 's' in `p` or `q`, the only 's' is at `|p|`. */
  lemma OnlyS(p: string, q: string)
    requires 's' !in p && 's' !in q
    ensures forall k :: 0 <= k < |p + "s" + q| && k != |p| ==> (p + "s" + q)[k] != 's'
  {
    var m := p + "s" + q;
    forall k | 0 <= k < |m| && k != |p|
      ensures m[k] != 's'
    {
      if k < |p| {
        assert m[k] == p[k];
      } else {
        assert m[k] == q[k - |p| - 1];
      }
    }
  }

  lemma NoSInNoticeHead()
    ensures 's' !in "Email update initiated. Plea"
  {
  }

  lemma NoSInNoticeMiddle()
    ensures 's' !in "e check your new "
  {
  }

  lemma NoSInNoticeTail()
    ensures 's' !in "email for confirmation."
  {
  }

  /** The e-mail notice reports a success but, as written, is styled as an error. */
  lemma EmailNoticeStyledAsError()
    ensures MessageStyle(EmailNotice) == ErrorStyle
    ensures NoticeStyle(EmailNotice, true) == SuccessStyle
  {
    var p := "Email update initiated. Plea";
    var q := "e check your new " + "email for confirmation.";
    assert EmailNotice == p + "s" + q;
    NoSInNoticeHead();
    NoSInNoticeMiddle();
    NoSInNoticeTail();
    NoSuccessWithOneS(p, q);
  }

  /** "Profile picture updated successfully" includes "success", so both stylings agree on it. */
  lemma PictureUpdatedStyledAsSuccess()
    ensures MessageStyle(PictureUpdated) == SuccessStyle
    ensures NoticeStyle(PictureUpdated, true) == SuccessStyle
  {
    ContainsInfix("Profile picture updated ", "success", "fully");
  }

  /** "Profile updated successfully" includes "success", so both stylings agree on it. */
  lemma ProfileUpdatedStyledAsSuccess()
    ensures MessageStyle(ProfileUpdated) == SuccessStyle
    ensures NoticeStyle(ProfileUpdated, true) == SuccessStyle
  {
    ContainsInfix("Profile updated ", "success", "fully");
  }

  /** "Password updated successfully" includes "success", so both stylings agree on it. */
  lemma PasswordUpdatedStyledAsSuccess()
    ensures MessageStyle(PasswordUpdated) == SuccessStyle
    ensures NoticeStyle(PasswordUpdated, true) == SuccessStyle
  {
    ContainsInfix("Password updated ", "success", "fully");
  }

  /** "Phone number updated successfully" includes "success", so both stylings agree on it. */
  lemma PhoneUpdatedStyledAsSuccess()
    ensures MessageStyle(PhoneUpdated) == SuccessStyle
    ensures NoticeStyle(PhoneUpdated, true) == SuccessStyle
  {
    ContainsInfix("Phone number updated ", "success", "fully");
  }

  /** A chosen picture: its name, size in bytes and MIME type. */
  datatype PictureFile = PictureFile(name: string, size: int, mime: string)

  /** The three password fields. */
  datatype Passwords = Passwords(current: string, next: string, confirm: string)

  /** The state cells of the account page that its handlers update. */
  class AccountForm {
    const userId: Option<string>
    var profilePicture: Option<string>
    var uploadingPicture: bool
    var fields: ProfileFields
    var passwords: Passwords
    var newEmail: string
    var phoneNumber: string
    var saving: bool
    var message: string
    /** Whether the message reports an operation that succeeded; the styling the page intends reads it. */
    var succeeded: bool
    var copiedReferral: bool

    /** The page after the profile load: the fields filled from the stored profile, if any. */
    constructor (userId: Option<string>, stored: Option<ProfileUpdate>, picture: Option<string>)
      ensures this.userId == userId
      ensures stored.Some? ==> fields == ProfileFieldsOf(stored.value) && profilePicture == picture
      ensures stored.None? ==> fields == ProfileFields("", "", "", "Beginner", "") && profilePicture.None?
      ensures passwords == Passwords("", "", "") && newEmail == "" && phoneNumber == ""
      ensures !saving && !uploadingPicture && message == "" && !copiedReferral
    {
      this.userId := userId;
      if stored.Some? {
        fields := ProfileFieldsOf(stored.value);
        profilePicture := picture;
      } else {
        fields := ProfileFields("", "", "", "Beginner", "");
        profilePicture := None;
      }
      passwords := Passwords("", "", "");
      newEmail := "";
      phoneNumber := "";
      saving := false;
      uploadingPicture := false;
      message := "";
      succeeded := false;
      copiedReferral := false;
    }

    /**
     * `handleFileChange`: reject by size then type without a backend call, else upload to
     * the storage path and, when the upload and the profile update succeed, show the new URL.
     * Returns the path written, if any.
     */
    method HandleFileChange(file: Option<PictureFile>, uploadOk: bool, publicUrl: string, updateOk: bool)
      returns (path: Option<string>)
      modifies this
      ensures fields == old(fields) && passwords == old(passwords) && newEmail == old(newEmail)
      ensures phoneNumber == old(phoneNumber) && saving == old(saving) && copiedReferral == old(copiedReferral)
      ensures file.None? || userId.None? ==>
        path.None? && message == old(message) && succeeded == old(succeeded) &&
        profilePicture == old(profilePicture) && uploadingPicture == old(uploadingPicture)
      ensures file.Some? && userId.Some? && FileCheck(file.value.size, file.value.mime).Some? ==>
        path.None? && message == FileCheck(file.value.size, file.value.mime).value && !succeeded &&
        profilePicture == old(profilePicture) && uploadingPicture == old(uploadingPicture)
      ensures file.Some? && userId.Some? && FileCheck(file.value.size, file.value.mime).None? ==>
        path == Some(StoragePath(userId.value, file.value.name)) && !uploadingPicture &&
        (uploadOk && updateOk ==> profilePicture == Some(publicUrl) && message == PictureUpdated && succeeded) &&
        (!(uploadOk && updateOk) ==> profilePicture == old(profilePicture) && message == PictureFailed && !succeeded)
    {
      path := None;
      if file.None? || userId.None? {
        return;
      }
      var check := FileCheck(file.value.size, file.value.mime);
      if check.Some? {
        message := check.value;
        succeeded := false;
        return;
      }
      uploadingPicture := true;
      message := "";
      path := Some(StoragePath(userId.value, file.value.name));
      if uploadOk && updateOk {
        profilePicture := Some(publicUrl);
        message := PictureUpdated;
        succeeded := true;
      } else {
        message := PictureFailed;
        succeeded := false;
      }
      uploadingPicture := false;
    }

    /** `handleProfileSave`: with a user, send the normalised fields; the message reports the outcome. */
    method HandleProfileSave(ok: bool) returns (update: Option<ProfileUpdate>)
      modifies this
      ensures profilePicture == old(profilePicture) && uploadingPicture == old(uploadingPicture)
      ensures fields == old(fields) && passwords == old(passwords) && newEmail == old(newEmail)
      ensures phoneNumber == old(phoneNumber) && copiedReferral == old(copiedReferral)
      ensures userId.None? ==> update.None? && saving == old(saving) && message == old(message) && succeeded == old(succeeded)
      ensures userId.Some? ==>
        update == Some(ProfileUpdateOf(fields)) && !saving &&
        message == (if ok then ProfileUpdated else ProfileFailed) && succeeded == ok
    {
      update := None;
      if userId.None? {
        return;
      }
      saving := true;
      message := "";
      update := Some(ProfileUpdateOf(fields));
      message := if ok then ProfileUpdated else ProfileFailed;
      succeeded := ok;
      saving := false;
    }

    /**
     * `handlePasswordChange`: with a user, reject a mismatch then a short password without a
     * backend call; otherwise send the new password and clear all three fields on success.
     */
    method HandlePasswordChange(ok: bool) returns (request: Option<string>)
      modifies this
      ensures profilePicture == old(profilePicture) && uploadingPicture == old(uploadingPicture)
      ensures fields == old(fields) && newEmail == old(newEmail)
      ensures phoneNumber == old(phoneNumber) && copiedReferral == old(copiedReferral)
      ensures userId.None? ==>
        request.None? && passwords == old(passwords) && saving == old(saving) &&
        message == old(message) && succeeded == old(succeeded)
      ensures userId.Some? && PasswordCheck(old(passwords.next), old(passwords.confirm)).Some? ==>
        request.None? && passwords == old(passwords) && saving == old(saving) && !succeeded &&
        message == PasswordCheck(old(passwords.next), old(passwords.confirm)).value
      ensures userId.Some? && PasswordCheck(old(passwords.next), old(passwords.confirm)).None? ==>
        request == Some(old(passwords.next)) && !saving && succeeded == ok &&
        (ok ==> passwords == Passwords("", "", "") && message == PasswordUpdated) &&
        (!ok ==> passwords == old(passwords) && message == PasswordFailed)
    {
      request := None;
      if userId.None? {
        return;
      }
      var check := PasswordCheck(passwords.next, passwords.confirm);
      if check.Some? {
        message := check.value;
        succeeded := false;
        return;
      }
      saving := true;
      message := "";
      request := Some(passwords.next);
      if ok {
        message := PasswordUpdated;
        passwords := Passwords("", "", "");
      } else {
        message := PasswordFailed;
      }
      succeeded := ok;
      saving := false;
    }

    /** `handleEmailChange`: nothing on an empty address; on success the field is cleared. */
    method HandleEmailChange(ok: bool) returns (request: Option<string>)
      modifies this
      ensures profilePicture == old(profilePicture) && uploadingPicture == old(uploadingPicture)
      ensures fields == old(fields) && passwords == old(passwords)
      ensures phoneNumber == old(phoneNumber) && copiedReferral == old(copiedReferral)
      ensures old(newEmail) == "" ==>
        request.None? && newEmail == "" && saving == old(saving) && message == old(message) && succeeded == old(succeeded)
      ensures old(newEmail) != "" ==>
        request == Some(old(newEmail)) && !saving && succeeded == ok &&
        (ok ==> newEmail == "" && message == EmailNotice) &&
        (!ok ==> newEmail == old(newEmail) && message == EmailFailed)
    {
      request := None;
      if newEmail == "" {
        return;
      }
      saving := true;
      message := "";
      request := Some(newEmail);
      if ok {
        message := EmailNotice;
        newEmail := "";
      } else {
        message := EmailFailed;
      }
      succeeded := ok;
      saving := false;
    }

    /** `handlePhoneChange`: nothing on an empty number; the number stays in the field either way. */
    method HandlePhoneChange(ok: bool) returns (request: Option<string>)
      modifies this
      ensures profilePicture == old(profilePicture) && uploadingPicture == old(uploadingPicture)
      ensures fields == old(fields) && passwords == old(passwords) && newEmail == old(newEmail)
      ensures phoneNumber == old(phoneNumber) && copiedReferral == old(copiedReferral)
      ensures old(phoneNumber) == "" ==>
        request.None? && saving == old(saving) && message == old(message) && succeeded == old(succeeded)
      ensures old(phoneNumber) != "" ==>
        request == Some(old(phoneNumber)) && !saving && succeeded == ok &&
        message == (if ok then PhoneUpdated else PhoneFailed)
    {
      request := None;
      if phoneNumber == "" {
        return;
      }
      saving := true;
      message := "";
      request := Some(phoneNumber);
      message := if ok then PhoneUpdated else PhoneFailed;
      succeeded := ok;
      saving := false;
    }

    /** `handleCopyReferralLink`: without a code nothing happens; otherwise the link is copied. */
    method HandleCopyReferral(origin: string, code: Option<string>) returns (copied: Option<string>)
      modifies this
      ensures copied == ReferralLink(origin, code)
      ensures profilePicture == old(profilePicture) && uploadingPicture == old(uploadingPicture)
      ensures fields == old(fields) && passwords == old(passwords) && newEmail == old(newEmail)
      ensures phoneNumber == old(phoneNumber) && saving == old(saving)
      ensures message == old(message) && succeeded == old(succeeded)
      ensures copiedReferral == (old(copiedReferral) || copied.Some?)
    {
      copied := ReferralLink(origin, code);
      if copied.Some? {
        copiedReferral := true;
      }
    }
  }
}
