/** The request validators: the file-name suffix rule of photos and
    recognition images, the length bounds of person names, usernames and
    passwords, and the alphanumeric rule of usernames. A validator returns
    its value unchanged or reports which rule failed. */
module Validation {
  import opened Common

  /** `s.endswith(suffix)`. */
  predicate EndsWith(s: string, suffix: string) {
    |suffix| <= |s| && s[|s| - |suffix|..] == suffix
  }

  /** `s.endswith(('.png', '.jpg', '.jpeg'))`: case-sensitive. */
  predicate HasImageSuffix(s: string) {
    EndsWith(s, ".png") || EndsWith(s, ".jpg") || EndsWith(s, ".jpeg")
  }

  /** What failed in a validation. */
  datatype ValidationError =
    | PhotoFormat(index: nat)
    | ImageFormat
    | NameLength
    | UsernameLength
    | UsernameNotAlphanumeric
    | PasswordLength

  datatype Validated<+T> = Valid(value: T) | Invalid(errors: seq<ValidationError>)

  /** The index of the last '.' in `s`, if any. */
  function LastDot(s: string): (k: int)
    ensures -1 <= k < |s|
    ensures k >= 0 ==> s[k] == '.'
    ensures forall j :: k < j < |s| ==> s[j] != '.'
  {
    if |s| == 0 then -1 else if s[|s| - 1] == '.' then |s| - 1 else LastDot(s[..|s| - 1])
  }

  /** The text after the last '.', or `None` without a '.'. */
  function Extension(s: string): (e: Option<string>)
  {
    var k := LastDot(s);
    if k < 0 then None else Some(s[k + 1..])
  }

  lemma ExtensionOfSuffix(s: string, ext: string)
    requires '.' !in ext
    requires EndsWith(s, "." + ext)
    ensures Extension(s) == Some(ext)
  {
    var k := LastDot(s);
    var dot := |s| - |ext| - 1;
    assert s[dot] == '.' by {
      assert s[dot..] == "." + ext;
    }
    forall j | dot < j < |s|
      ensures s[j] != '.'
    {
      assert s[dot..][j - dot] == ext[j - dot - 1];
      assert ext[j - dot - 1] in ext;
    }
    assert k == dot;
    assert s[k + 1..] == s[dot..][1..];
  }

  lemma SuffixOfExtension(s: string, ext: string)
    requires Extension(s) == Some(ext)
    ensures EndsWith(s, "." + ext)
  {
    var k := LastDot(s);
    assert s[k..] == "." + s[k + 1..];
  }

  /** The suffix rule stated on the extension: a name passes exactly when
      the text after its last '.' is `png`, `jpg` or `jpeg`. */
  lemma ImageSuffixIsExtension(s: string)
    ensures HasImageSuffix(s) <==> Extension(s) in {Some("png"), Some("jpg"), Some("jpeg")}
  {
    if EndsWith(s, ".png") { ExtensionOfSuffix(s, "png"); }
    if EndsWith(s, ".jpg") { ExtensionOfSuffix(s, "jpg"); }
    if EndsWith(s, ".jpeg") { ExtensionOfSuffix(s, "jpeg"); }
    if Extension(s) == Some("png") { SuffixOfExtension(s, "png"); }
    if Extension(s) == Some("jpg") { SuffixOfExtension(s, "jpg"); }
    if Extension(s) == Some("jpeg") { SuffixOfExtension(s, "jpeg"); }
  }

  /** An upper-case extension is refused. */
  lemma UpperCaseExtensionIsRefused()
    ensures !HasImageSuffix("a.PNG")
  {
    assert "a.PNG"[1..] != ".png";
    assert "a.PNG"[1..] != ".jpg";
    assert "a.PNG"[0..] != ".jpeg";
  }

  /** The errors of `photos`, one per failing item, in order. */
  function PhotoErrors(photos: seq<string>): (errs: seq<ValidationError>)
    ensures forall i :: 0 <= i < |photos| ==> (PhotoFormat(i) in errs <==> !HasImageSuffix(photos[i]))
    ensures forall e :: e in errs ==> e.PhotoFormat? && e.index < |photos|
  {
    if |photos| == 0 then []
    else
      var init := photos[..|photos| - 1];
      assert forall i :: 0 <= i < |init| ==> init[i] == photos[i];
      PhotoErrors(init) + (if HasImageSuffix(photos[|photos| - 1]) then [] else [PhotoFormat(|photos| - 1)])
  }

  datatype PersonValidation = PersonValidation(name: string, photos: seq<string>)

  /** `PersonValidation`: a name of 1 to 100 characters and photos that all
      carry an image suffix; an accepted record is returned unchanged. */
  function ValidatePerson(p: PersonValidation): (r: Validated<PersonValidation>)
    ensures r.Valid? <==> 1 <= |p.name| <= 100 && forall i :: 0 <= i < |p.photos| ==> HasImageSuffix(p.photos[i])
    ensures r.Valid? ==> r.value == p
    ensures r.Invalid? ==> (NameLength in r.errors <==> !(1 <= |p.name| <= 100))
    ensures r.Invalid? ==>
      forall i :: 0 <= i < |p.photos| ==> (PhotoFormat(i) in r.errors <==> !HasImageSuffix(p.photos[i]))
  {
    var errs := (if 1 <= |p.name| <= 100 then [] else [NameLength]) + PhotoErrors(p.photos);
    if errs == [] then Valid(p)
    else
      assert 1 <= |p.name| <= 100 ==> errs[0] in PhotoErrors(p.photos);
      Invalid(errs)
  }

  /** `RecognitionRequestValidation`: the image reference follows the same suffix rule. */
  function ValidateImage(image: string): (r: Validated<string>)
    ensures r.Valid? <==> HasImageSuffix(image)
    ensures r.Valid? ==> r.value == image
    ensures r.Invalid? ==> r.errors == [ImageFormat]
  {
    if HasImageSuffix(image) then Valid(image) else Invalid([ImageFormat])
  }

  predicate IsAsciiAlphanumeric(c: char) {
    ('a' <= c <= 'z') || ('A' <= c <= 'Z') || ('0' <= c <= '9')
  }

  /** `str.isalnum()` over ASCII: non-empty and every character a letter or digit. */
  predicate IsAlnum(s: string) {
    |s| > 0 && forall i :: 0 <= i < |s| ==> IsAsciiAlphanumeric(s[i])
  }

  datatype UserValidation = UserValidation(username: string, password: string)

  /** `UserValidation`: the username's length bounds are checked before its
      alphanumeric rule (which only runs on a username of valid length),
      and the password needs at least six characters. Both fields report. */
  function ValidateUser(u: UserValidation): (r: Validated<UserValidation>)
    ensures r.Valid? <==> 3 <= |u.username| <= 50 && IsAlnum(u.username) && |u.password| >= 6
    ensures r.Valid? ==> r.value == u
    ensures r.Invalid? ==>
      && (UsernameLength in r.errors <==> !(3 <= |u.username| <= 50))
      && (UsernameNotAlphanumeric in r.errors <==> 3 <= |u.username| <= 50 && !IsAlnum(u.username))
      && (PasswordLength in r.errors <==> |u.password| < 6)
  {
    var usernameErrors :=
      if !(3 <= |u.username| <= 50) then [UsernameLength]
      else if !IsAlnum(u.username) then [UsernameNotAlphanumeric]
      else [];
    var errs := usernameErrors + (if |u.password| >= 6 then [] else [PasswordLength]);
    if errs == [] then Valid(u) else Invalid(errs)
  }
}
