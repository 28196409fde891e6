/** Context names: the rules that keep a name a single, visible entry of the
    store root (src/config.rs, validate_context_name). */
module Names {
  import opened Wrappers
  import opened Errors

  /** The file at the store root that records the active context. */
  const MarkerFileName: string := ".current"

  /** `char::is_ascii_control`: U+0000 to U+001F and U+007F. */
  predicate IsAsciiControl(c: char) {
    c as int < 32 || c as int == 127
  }

  predicate IsSeparator(c: char) {
    c == '/' || c == '\\'
  }

  /** `list_contexts` skips entries whose name starts with a dot. */
  predicate IsHidden(name: string) {
    |name| > 0 && name[0] == '.'
  }

  /** What a usable context name is, stated character by character. */
  predicate ValidName(name: string) {
    && |name| > 0
    && name[0] != '.'
    && forall i :: 0 <= i < |name| ==> !IsSeparator(name[i]) && !IsAsciiControl(name[i])
  }

  /** `name.chars().any(|c| c.is_ascii_control())` */
  function HasControl(s: string): (r: bool)
    ensures r <==> exists i :: 0 <= i < |s| && IsAsciiControl(s[i])
  {
    if s == [] then false
    else if IsAsciiControl(s[0]) then true
    else
      var rest := HasControl(s[1..]);
      assert forall i :: 0 < i < |s| ==> s[i] == s[1..][i - 1];
      rest
  }

  /** The checks of `validate_context_name`, in the source's order. */
  function ValidateContextName(name: string): (r: Outcome<NameError>)
    ensures r.Pass? <==> ValidName(name)
  {
    if name == "" then Fail(Empty)
    else if name == "." || name == ".." then Fail(DotOrDotDot)
    else if name[0] == '.' then Fail(LeadingDot)
    else if '/' in name || '\\' in name then Fail(PathSeparator)
    else if HasControl(name) then Fail(ControlCharacter)
    else Pass
  }

  /** The first rule a name breaks decides the error: each error is reported
      exactly for the names that pass every earlier check and fail its own. */
  lemma RejectionReason(name: string)
    ensures ValidateContextName(name) == Fail(Empty) <==> name == ""
    ensures ValidateContextName(name) == Fail(DotOrDotDot) <==> name == "." || name == ".."
    ensures ValidateContextName(name) == Fail(LeadingDot) <==>
      IsHidden(name) && name != "." && name != ".."
    ensures ValidateContextName(name) == Fail(PathSeparator) <==>
      && |name| > 0 && name[0] != '.'
      && exists i :: 0 <= i < |name| && IsSeparator(name[i])
    ensures ValidateContextName(name) == Fail(ControlCharacter) <==>
      && |name| > 0 && name[0] != '.'
      && (forall i :: 0 <= i < |name| ==> !IsSeparator(name[i]))
      && exists i :: 0 <= i < |name| && IsAsciiControl(name[i])
  {
  }

  /** A valid name is never hidden from `list_contexts`, never the marker file
      and never a relative path step. */
  lemma ValidNameIsPlainEntry(name: string)
    requires ValidName(name)
    ensures !IsHidden(name)
    ensures name != MarkerFileName && name != "." && name != ".."
    ensures '/' !in name && '\\' !in name
  {
  }

  /** "." and ".." get their own message although they also start with a dot;
      "../etc" is reported for its dot before its separator. */
  lemma CheckOrderExamples()
    ensures ValidateContextName(".") == Fail(DotOrDotDot)
    ensures ValidateContextName("..") == Fail(DotOrDotDot)
    ensures ValidateContextName("../etc") == Fail(LeadingDot)
    ensures ValidateContextName("a/../etc") == Fail(PathSeparator)
    ensures ValidateContextName("foo\\bar") == Fail(PathSeparator)
    ensures ValidateContextName("") == Fail(Empty)
    ensures ValidateContextName("bad\U{7F}name") == Fail(ControlCharacter)
    ensures ValidateContextName(".hidden") == Fail(LeadingDot)
    ensures ValidateContextName("foo/bar") == Fail(PathSeparator)
  {
    assert "../etc"[2] == '/';
    assert "a/../etc"[1] == '/';
    assert "foo\\bar"[3] == '\\';
    assert "foo/bar"[3] == '/';
    assert IsAsciiControl("bad\U{7F}name"[3]);
  }

  /** Ordinary names pass every check. */
  lemma AcceptedExamples()
    ensures ValidateContextName("my-project") == Pass
    ensures ValidateContextName("work") == Pass
    ensures ValidateContextName("project_123") == Pass
    ensures ValidateContextName("My-GCP-Context") == Pass
  {
    assert ValidName("my-project");
    assert ValidName("work");
    assert ValidName("project_123");
    assert ValidName("My-GCP-Context");
  }
}
