/** The profile editor of src/pages/Editprofile.tsx: its field validators, the
    PATCH payload it builds, the save-button gate and the outcome of a save. */
module EditProfile {
  import opened Wrappers
  import opened Seqs
  import opened Text
  import opened Http

  // ===== email =====

  /** A character `[^\s@]` admits. */
  predicate EmailChar(c: char) {
    !IsSpace(c) && c != '@'
  }

  predicate EmailRun(s: string) {
    forall i :: 0 <= i < |s| ==> EmailChar(s[i])
  }

  /** `/^[^\s@]+@[^\s@]+\.[^\s@]+$/.test(s)`: three non-empty runs without whitespace
      or `@`, joined by an `@` and then a `.` (the middle run may itself hold dots). */
  predicate MatchesEmailPattern(s: string) {
    exists at, dot :: 0 < at < dot - 1 && dot < |s| - 1 && s[at] == '@' && s[dot] == '.'
                      && EmailRun(s[..at]) && EmailRun(s[at + 1..dot]) && EmailRun(s[dot + 1..])
  }

  /** `emailValid`: an empty email is accepted, anything else must match the pattern. */
  predicate EmailValid(email: string) {
    email == "" || MatchesEmailPattern(email)
  }

  /** The single `@` sits at index `at`, not first; there is no whitespace anywhere;
      and a `.` follows the `@` with text on both of its sides. */
  predicate EmailShapeAt(s: string, at: int) {
    0 < at < |s| && s[at] == '@'
    && (forall i :: 0 <= i < |s| && i != at ==> s[i] != '@')
    && (forall i :: 0 <= i < |s| ==> !IsSpace(s[i]))
    && (exists dot :: at + 1 < dot < |s| - 1 && s[dot] == '.')
  }

  lemma EmailPatternSound(s: string)
    requires MatchesEmailPattern(s)
    ensures exists at :: EmailShapeAt(s, at)
  {
    var at, dot :| 0 < at < dot - 1 && dot < |s| - 1 && s[at] == '@' && s[dot] == '.'
                   && EmailRun(s[..at]) && EmailRun(s[at + 1..dot]) && EmailRun(s[dot + 1..]);
    forall i | 0 <= i < |s| && i != at
      ensures EmailChar(s[i])
    {
      if i < at {
        assert s[..at][i] == s[i];
      } else if i < dot {
        assert s[at + 1..dot][i - at - 1] == s[i];
      } else if i > dot {
        assert s[dot + 1..][i - dot - 1] == s[i];
      }
    }
    assert EmailShapeAt(s, at);
  }

  lemma EmailPatternComplete(s: string, at: int)
    requires EmailShapeAt(s, at)
    ensures MatchesEmailPattern(s)
  {
    var dot :| at + 1 < dot < |s| - 1 && s[dot] == '.';
    assert EmailRun(s[..at]) && EmailRun(s[at + 1..dot]) && EmailRun(s[dot + 1..]);
  }

  /** The pattern in plain terms: exactly one `@`, not first; no whitespace
      anywhere; and a `.` after the `@` with text on both of its sides. */
  lemma EmailPatternMeaning(s: string)
    ensures MatchesEmailPattern(s) <==> exists at :: EmailShapeAt(s, at)
  {
    if MatchesEmailPattern(s) {
      EmailPatternSound(s);
    }
    if exists at :: EmailShapeAt(s, at) {
      var at :| EmailShapeAt(s, at);
      EmailPatternComplete(s, at);
    }
  }

  lemma ExampleEmails()
    ensures EmailValid("")
    ensures EmailValid("a@b.co")
    ensures !EmailValid("a@b")
    ensures !EmailValid("@b.co")
  {
    var s := "a@b.co";
    assert s[..1] == "a" && s[2..3] == "b" && s[4..] == "co";
    assert EmailRun("a") && EmailRun("b") && EmailRun("co");
    assert s[1] == '@' && s[3] == '.';
    assert EmailRun(s[..1]) && EmailRun(s[1 + 1..3]) && EmailRun(s[3 + 1..]);
    EmailPatternMeaning("a@b");
    EmailPatternMeaning("@b.co");
  }

  // ===== the length rules =====

  /** `fullNameValid`: at least two characters once trimmed. */
  predicate FullNameValid(fullName: string) {
    |Trim(fullName)| >= 2
  }

  /** `usernameValid`: empty once trimmed, or at least two characters. */
  predicate UsernameValid(username: string) {
    var l := |Trim(username)|;
    l == 0 || l >= 2
  }

  /** `aboutValid`: empty once trimmed, or at least ten characters. */
  predicate AboutValid(about: string) {
    var l := |Trim(about)|;
    l == 0 || l >= 10
  }

  /** Surrounding whitespace never changes a length rule's verdict, and an
      all-whitespace value is an acceptable username and about text but never a full name. */
  lemma LengthRulesIgnorePadding(p: string, s: string, q: string)
    requires AllSpace(p) && AllSpace(q)
    ensures FullNameValid(p + s + q) == FullNameValid(s)
    ensures UsernameValid(p + s + q) == UsernameValid(s)
    ensures AboutValid(p + s + q) == AboutValid(s)
    ensures AllSpace(s) ==> !FullNameValid(s) && UsernameValid(s) && AboutValid(s)
  {
    TrimPadded(p, s, q);
  }

  // ===== phone =====

  /** A character `phoneTH.replace(/\s|-/g, "")` keeps. */
  predicate PhoneChar(c: char) {
    !IsSpace(c) && c != '-'
  }

  function KeepPhoneChar(): char -> bool {
    c => PhoneChar(c)
  }

  /** The phone with every whitespace character and `-` deleted. */
  function StripSeparators(phone: string): (r: string)
    ensures forall i :: 0 <= i < |r| ==> PhoneChar(r[i])
  {
    Filter(phone, KeepPhoneChar())
  }

  /** `\d`: an ASCII digit. */
  predicate Digit(c: char) {
    '0' <= c <= '9'
  }

  predicate Digits(s: string) {
    forall i :: 0 <= i < |s| ==> Digit(s[i])
  }

  /** `^(0[689]\d{8}|\+66[689]\d{8})$`. */
  predicate ThaiMobile(s: string) {
    (|s| == 10 && s[0] == '0' && s[1] in "689" && Digits(s[2..]))
    || (|s| == 12 && s[..3] == "+66" && s[3] in "689" && Digits(s[4..]))
  }

  /** `phoneValid`: an empty phone is accepted; anything else must be a Thai
      mobile number once whitespace and dashes are deleted. */
  predicate PhoneValid(phone: string) {
    phone == "" || ThaiMobile(StripSeparators(phone))
  }

  /** Deleting separators erases an inserted one. */
  lemma StripIgnoresSeparator(a: string, sep: char, b: string)
    requires !PhoneChar(sep)
    ensures StripSeparators(a + [sep] + b) == StripSeparators(a + b)
  {
    var keep := KeepPhoneChar();
    FilterAppend(a + [sep], b, keep);
    FilterAppend(a, [sep], keep);
    FilterAppend(a, b, keep);
    assert !keep(sep);
    assert Filter([sep], keep) == [sep][1..] == [];
    assert Filter(a + [sep], keep) == Filter(a, keep);
  }

  /** Inserting a space or a dash anywhere into a non-empty phone number keeps its verdict. */
  lemma SeparatorKeepsPhoneValidity(a: string, sep: char, b: string)
    requires sep == '-' || IsSpace(sep)
    requires a + b != ""
    ensures PhoneValid(a + [sep] + b) == PhoneValid(a + b)
  {
    StripIgnoresSeparator(a, sep, b);
    assert |a + [sep] + b| > 0;
  }

  /** The blank test comes before the deletion, so the claim above needs the
      non-empty premise: "" is accepted but a lone space is not. */
  lemma BlankPhoneIsNotEmptyPhone()
    ensures PhoneValid("")
    ensures !PhoneValid(" ")
  {
    assert StripSeparators(" ") == [];
  }

  /** A string of digits has nothing to delete. */
  lemma DigitsAreStripped(s: string)
    requires Digits(s)
    ensures StripSeparators(s) == s
  {
    FilterKeepsAll(s, KeepPhoneChar());
  }

  /** Ten digits starting `06`, `08` or `09` make a valid phone. */
  lemma LocalMobileValid(s: string)
    requires |s| == 10 && s[0] == '0' && s[1] in "689" && Digits(s)
    ensures PhoneValid(s)
  {
    DigitsAreStripped(s);
    assert Digits(s[2..]);
  }

  /** Ten digits with any other operator digit are rejected. */
  lemma OtherPrefixInvalid(s: string)
    requires |s| == 10 && s[0] == '0' && s[1] !in "689" && Digits(s)
    ensures !PhoneValid(s)
  {
    DigitsAreStripped(s);
  }

  /** The same number written `0XX-XXX-XXXX` is valid as well. */
  lemma DashedMobileValid(s: string)
    requires |s| == 10 && s[0] == '0' && s[1] in "689" && Digits(s)
    ensures PhoneValid(s[..3] + "-" + s[3..6] + "-" + s[6..])
  {
    DashesAreStripped(s);
    LocalMobileValid(s);
  }

  /** Writing a number as `XXX-XXX-...` does not change what is validated. */
  lemma DashesAreStripped(s: string)
    requires |s| >= 6
    ensures StripSeparators(s[..3] + "-" + s[3..6] + "-" + s[6..]) == StripSeparators(s)
  {
    var a, b, c := s[..3], s[3..6], s[6..];
    StripIgnoresSeparator(a, '-', b + c);
    StripIgnoresSeparator(a + "-" + b, '-', c);
    assert a + (b + c) == s;
    assert a + "-" + b + c == a + ['-'] + (b + c);
    assert a + "-" + b + "-" + c == (a + "-" + b) + ['-'] + c;
  }

  // ===== the payload =====

  const DisplayNameKey: string := "displayName"
  const BioKey: string := "bio"
  const ContactKey: string := "contact"
  const AvatarKey: string := "avatar"

  /** A stripped phone holds no whitespace, so the trailing `.trim()` leaves it as is. */
  lemma StrippedPhoneIsTrimmed(phone: string)
    ensures Trim(StripSeparators(phone)) == StripSeparators(phone)
  {
    TrimUnpadded(StripSeparators(phone));
  }

  /** `if (value) payload[key] = value`: an empty value leaves the payload as it is. */
  method PutIfNonEmpty(payload: map<string, string>, key: string, value: string)
    returns (updated: map<string, string>)
    ensures value != "" ==> updated == payload[key := value]
    ensures value == "" ==> updated == payload
  {
    updated := payload;
    if value != "" {
      updated := payload[key := value];
    }
  }

  /** The payload of `onSubmit`: keys are assigned one after another, each only
      when its cleaned value is non-empty; the avatar only when one is set. */
  method BuildPayload(fullName: string, aboutMe: string, phone: string, avatar: Option<string>)
    returns (payload: map<string, string>)
    ensures payload.Keys <= {DisplayNameKey, BioKey, ContactKey, AvatarKey}
    ensures DisplayNameKey in payload <==> Trim(fullName) != ""
    ensures DisplayNameKey in payload ==> payload[DisplayNameKey] == Trim(fullName)
    ensures BioKey in payload <==> Trim(aboutMe) != ""
    ensures BioKey in payload ==> payload[BioKey] == Trim(aboutMe)
    ensures ContactKey in payload <==> StripSeparators(phone) != ""
    ensures ContactKey in payload ==> payload[ContactKey] == StripSeparators(phone)
    ensures AvatarKey in payload <==> avatar.Some? && avatar.value != ""
    ensures AvatarKey in payload ==> payload[AvatarKey] == avatar.value
  {
    payload := map[];
    var nameClean := Trim(fullName);
    var aboutClean := Trim(aboutMe);
    var phoneClean := Trim(StripSeparators(phone));
    StrippedPhoneIsTrimmed(phone);
    payload := PutIfNonEmpty(payload, DisplayNameKey, nameClean);
    payload := PutIfNonEmpty(payload, BioKey, aboutClean);
    payload := PutIfNonEmpty(payload, ContactKey, phoneClean);
    payload := PutIfNonEmpty(payload, AvatarKey, avatar.GetOr(""));
  }

  // ===== the save =====

  /** The submit button's `disabled` condition. */
  predicate SaveBlocked(prefillLoading: bool, loading: bool, email: string, phone: string) {
    prefillLoading || !EmailValid(email) || !PhoneValid(phone) || loading
  }

  /** Only the email and phone rules gate the button: an empty full name and a
      too-short about text still leave it enabled. */
  lemma NameAndAboutDoNotGateSave()
    ensures !FullNameValid("") && !AboutValid("short")
    ensures !SaveBlocked(false, false, "", "")
  {
    assert "short" == "short"[..5];
    TrimUnpadded("short");
  }

  const SavedAlert: string := "บันทึกสำเร็จ"
  const SaveFailedAlert: string := "เกิดข้อผิดพลาด กรุณาลองใหม่"
  const ProfilePath: string := "/profile"

  /** What a finished save shows and where it goes. */
  datatype SaveResult = SaveResult(alert: string, navigateTo: Option<string>)

  /** The save outcome as written: after an ok PATCH the handler awaits
      `refetchUser()`, which the auth context does not provide, so the call throws
      and every outcome lands in the error alert. */
  function SaveResultAsWritten(reply: Reply<()>): (r: SaveResult)
    ensures r.navigateTo == None
    ensures r.alert == SaveFailedAlert
  {
    match reply
    case Rejected(_) => SaveResult(SaveFailedAlert, None)
    case Response(status, _) =>
      if !IsOk(status) then SaveResult(SaveFailedAlert, None)
      else
        // `refetchUser` is undefined: calling it throws before the success alert.
        SaveResult(SaveFailedAlert, None)
  }

  /** The intended outcome: an ok PATCH alerts success and goes to the profile;
      a failure status or a rejected request alerts the error and stays. */
  function SaveResultOf(reply: Reply<()>): (r: SaveResult)
    ensures r.navigateTo.Some? <==> reply.Response? && IsOk(reply.status)
    ensures r.navigateTo.Some? ==> r.navigateTo.value == ProfilePath && r.alert == SavedAlert
    ensures r.navigateTo.None? ==> r.alert == SaveFailedAlert
  {
    if reply.Response? && IsOk(reply.status) then SaveResult(SavedAlert, Some(ProfilePath))
    else SaveResult(SaveFailedAlert, None)
  }

  /** An ok reply tells the two apart: as written the user sees the error alert
      after a save the server accepted. */
  lemma SaveResultDiscrepancy()
    ensures SaveResultAsWritten(Response(200, Body("", Parsed(())))).alert == SaveFailedAlert
    ensures SaveResultOf(Response(200, Body("", Parsed(())))) == SaveResult(SavedAlert, Some(ProfilePath))
  {
  }

  /** The state of the profile form. */
  class ProfileForm {
    var fullName: string
    var aboutMe: string
    var email: string
    var phone: string
    var avatar: Option<string>
    var loading: bool
    var prefillLoading: bool

    /** The form as first rendered: name and email from the signed-in user,
        prefill pending. */
    constructor (metaFullName: string, userEmail: string)
      ensures fullName == metaFullName && email == userEmail
      ensures aboutMe == "" && phone == "" && avatar == None
      ensures !loading && prefillLoading
    {
      fullName, aboutMe, email, phone := metaFullName, "", userEmail, "";
      avatar, loading, prefillLoading := None, false, true;
    }

    predicate SaveDisabled()
      reads this
    {
      SaveBlocked(prefillLoading, loading, email, phone)
    }

    /** `onSubmit` up to its request: the form starts loading and sends the payload. */
    method BeginSave() returns (payload: map<string, string>)
      modifies this
      ensures loading
      ensures payload.Keys <= {DisplayNameKey, BioKey, ContactKey, AvatarKey}
      ensures DisplayNameKey in payload <==> Trim(fullName) != ""
      ensures DisplayNameKey in payload ==> payload[DisplayNameKey] == Trim(fullName)
      ensures BioKey in payload <==> Trim(aboutMe) != ""
      ensures BioKey in payload ==> payload[BioKey] == Trim(aboutMe)
      ensures ContactKey in payload <==> StripSeparators(phone) != ""
      ensures ContactKey in payload ==> payload[ContactKey] == StripSeparators(phone)
      ensures AvatarKey in payload <==> avatar.Some? && avatar.value != ""
      ensures AvatarKey in payload ==> payload[AvatarKey] == avatar.value
      ensures fullName == old(fullName) && aboutMe == old(aboutMe) && email == old(email)
      ensures phone == old(phone) && avatar == old(avatar) && prefillLoading == old(prefillLoading)
    {
      loading := true;
      payload := BuildPayload(fullName, aboutMe, phone, avatar);
    }

    /** `onSubmit` after its request: the outcome is shown and loading ends. */
    method FinishSave(reply: Reply<()>) returns (result: SaveResult)
      modifies this
      ensures !loading
      ensures result == SaveResultOf(reply)
      ensures fullName == old(fullName) && aboutMe == old(aboutMe) && email == old(email)
      ensures phone == old(phone) && avatar == old(avatar) && prefillLoading == old(prefillLoading)
    {
      result := SaveResultOf(reply);
      loading := false;
    }
  }

  /** The name and the about text never decide the button: two forms that agree
      on the loading flags, the email and the phone agree on `disabled`, whatever
      their names and about texts, valid or not. */
  lemma NameAndAboutNeverGateSave(f: ProfileForm, g: ProfileForm)
    requires f.prefillLoading == g.prefillLoading && f.loading == g.loading
    requires f.email == g.email && f.phone == g.phone
    ensures f.SaveDisabled() == g.SaveDisabled()
  {
  }
}
