/** What the commands see of `gcloud`, `kubectl` and the user's own command:
    the output of a finished process, the calls they make, and the parsing rules
    of src/config.rs applied to that output. The processes themselves are not
    modelled; their output is an input to the model. */
module Tools {
  import opened Wrappers
  import opened Errors

  /** A finished process: whether it exited with status 0, and its output
      decoded as text. A process that could not be started is `None`. */
  datatype ToolOutput = ToolOutput(success: bool, stdout: string, stderr: string)

  /** The external commands the operations start. */
  datatype ToolCall =
      // gcloud config configurations activate <config>
    | ActivateConfig(config: string)
      // kubectl config use-context <context>
    | UseKubectlContext(context: string)
      // gcloud config configurations delete <config> --quiet
    | DeleteConfig(config: string)
      // the user's command, with environment overrides
    | Exec(program: string, args: seq<string>, env: map<string, string>)

  /** `char::is_whitespace`: the Unicode White_Space property. */
  predicate IsWhitespace(c: char) {
    var n := c as int;
    || 9 <= n <= 13 || n == 32 || n == 0x85 || n == 0xA0 || n == 0x1680
    || 0x2000 <= n <= 0x200A || n == 0x2028 || n == 0x2029 || n == 0x202F
    || n == 0x205F || n == 0x3000
  }

  predicate AllWhitespace(s: string) {
    forall i :: 0 <= i < |s| ==> IsWhitespace(s[i])
  }

  /** `str::trim_start`: drops the leading whitespace and nothing else. */
  function TrimStart(s: string): (r: string)
    ensures |r| <= |s| && r == s[|s| - |r|..]
    ensures AllWhitespace(s[..|s| - |r|])
    ensures r == [] || !IsWhitespace(r[0])
  {
    if s != [] && IsWhitespace(s[0]) then
      var r := TrimStart(s[1..]);
      assert s[..|s| - |r|] == [s[0]] + s[1..][..|s[1..]| - |r|];
      r
    else
      s
  }

  /** `str::trim_end`: drops the trailing whitespace and nothing else. */
  function TrimEnd(s: string): (r: string)
    ensures |r| <= |s| && r == s[..|r|]
    ensures AllWhitespace(s[|r|..])
    ensures r == [] || !IsWhitespace(r[|r| - 1])
  {
    if s != [] && IsWhitespace(s[|s| - 1]) then
      var r := TrimEnd(s[..|s| - 1]);
      assert s[|r|..] == s[..|s| - 1][|r|..] + [s[|s| - 1]];
      r
    else
      s
  }

  /** `str::trim`: the text between the leading and the trailing whitespace. */
  function Trim(s: string): (r: string)
    ensures exists i :: 0 <= i <= |s| - |r| && r == s[i..i + |r|]
                        && AllWhitespace(s[..i]) && AllWhitespace(s[i + |r|..])
    ensures r == [] <==> AllWhitespace(s)
    ensures r != [] ==> !IsWhitespace(r[0]) && !IsWhitespace(r[|r| - 1])
  {
    var t := TrimStart(s);
    var r := TrimEnd(t);
    TrimSplit(s, t, r);
    r
  }

  /** Trimming the leading run `s[..|s| - |t|]` and then the trailing run
      `t[|r|..]` leaves nothing exactly when everything was whitespace. */
  lemma TrimSplit(s: string, t: string, r: string)
    requires |t| <= |s| && t == s[|s| - |t|..] && AllWhitespace(s[..|s| - |t|])
    requires t == [] || !IsWhitespace(t[0])
    requires |r| <= |t| && r == t[..|r|] && AllWhitespace(t[|r|..])
    requires r == [] || !IsWhitespace(r[|r| - 1])
    ensures r == [] <==> AllWhitespace(s)
    ensures r != [] ==> !IsWhitespace(r[0]) && !IsWhitespace(r[|r| - 1])
    ensures r == s[|s| - |t|..|s| - |t| + |r|] && AllWhitespace(s[|s| - |t| + |r|..])
  {
    var lead := s[..|s| - |t|];
    assert s[|s| - |t| + |r|..] == t[|r|..];
    if r == [] {
      assert t[|r|..] == t;
      assert t == [];
      assert s == lead;
    } else {
      assert r[0] == t[0];
      assert s[|lead|] == t[0];
    }
  }

  /** Trimming twice is trimming once. */
  lemma TrimIdempotent(s: string)
    ensures Trim(Trim(s)) == Trim(s)
  {
    var r := Trim(s);
    assert r == [] || !IsWhitespace(r[0]);
    assert TrimStart(r) == r;
    assert TrimEnd(r) == r;
  }

  /** Output of `gcloud config configurations list --filter=is_active=true`,
      trimmed; no output means the configuration named "default". */
  function ParseActiveConfig(stdout: string): (r: string)
    ensures r != []
    ensures AllWhitespace(stdout) ==> r == "default"
    ensures !AllWhitespace(stdout) ==> r == Trim(stdout)
  {
    var config := Trim(stdout);
    if config == [] then "default" else config
  }

  /** Output of `gcloud config get-value <key>`, trimmed; no output and the
      token "(unset)" both mean the value is absent. */
  function ParseConfigValue(stdout: string): (r: Option<string>)
    ensures r.None? <==> AllWhitespace(stdout) || Trim(stdout) == "(unset)"
    ensures r.Some? ==> r.value == Trim(stdout) && r.value != [] && r.value != "(unset)"
  {
    var value := Trim(stdout);
    if value == [] || value == "(unset)" then None else Some(value)
  }

  /** `get_current_gcloud_config`. Only a gcloud that cannot be started is an
      error; its exit status is not looked at. */
  function QueryActiveConfig(out: Option<ToolOutput>): (r: Result<string, Error>)
    ensures r.Failure? <==> out.None?
    ensures r.Failure? ==> r.error == QueryFailed(ActiveConfig)
    ensures r.Success? ==> r.value == ParseActiveConfig(out.value.stdout)
  {
    match out
    case None => Failure(QueryFailed(ActiveConfig))
    case Some(o) => Success(ParseActiveConfig(o.stdout))
  }

  /** `get_current_gcloud_account` and `get_current_gcloud_project`. */
  function QueryConfigValue(key: ConfigKey, out: Option<ToolOutput>): (r: Result<Option<string>, Error>)
    requires key != ActiveConfig
    ensures r.Failure? <==> out.None?
    ensures r.Failure? ==> r.error == QueryFailed(key)
    ensures r.Success? ==> r.value == ParseConfigValue(out.value.stdout)
  {
    match out
    case None => Failure(QueryFailed(key))
    case Some(o) => Success(ParseConfigValue(o.stdout))
  }

  /** `get_current_kubectl_context`: never an error. A missing kubectl, a
      failing kubectl and an empty answer all give "no context". */
  function CurrentKubectlContext(out: Option<ToolOutput>): (r: Option<string>)
    ensures r.Some? <==> out.Some? && out.value.success && !AllWhitespace(out.value.stdout)
    ensures r.Some? ==> r.value == Trim(out.value.stdout)
  {
    match out
    case None => None
    case Some(o) =>
      if !o.success then None
      else
        var context := Trim(o.stdout);
        if context == [] then None else Some(context)
  }

  /** `switch_kubectl_context`: reports whether kubectl switched; it never
      returns an error, so it never makes its caller fail. */
  function SwitchKubectlContext(out: Option<ToolOutput>): (r: Result<bool, Error>)
    ensures r.Success?
    ensures r.value <==> out.Some? && out.value.success
  {
    match out
    case None => Success(false)
    case Some(o) => Success(o.success)
  }

  /** `needle` occurs in `haystack` starting at index `i`. */
  predicate OccursAt(haystack: string, needle: string, i: int) {
    0 <= i <= |haystack| - |needle| && haystack[i..i + |needle|] == needle
  }

  /** `str::contains` for a string pattern. */
  predicate Contains(haystack: string, needle: string)
    ensures Contains(haystack, needle) <==> exists i :: OccursAt(haystack, needle, i)
    decreases |haystack|
  {
    if |needle| <= |haystack| && haystack[..|needle|] == needle then
      assert OccursAt(haystack, needle, 0);
      true
    else if haystack == [] then
      false
    else
      OccurrenceShift(haystack, needle);
      Contains(haystack[1..], needle)
  }

  /** An occurrence is at the start or is an occurrence in the tail, one
      index further on. */
  lemma OccurrenceShift(haystack: string, needle: string)
    requires haystack != []
    ensures (exists i :: OccursAt(haystack, needle, i)) <==>
              OccursAt(haystack, needle, 0) || exists j :: OccursAt(haystack[1..], needle, j)
  {
    var tail := haystack[1..];
    forall j | OccursAt(tail, needle, j) ensures OccursAt(haystack, needle, j + 1) {
      assert tail[j..j + |needle|] == haystack[j + 1..j + 1 + |needle|];
    }
    forall i | OccursAt(haystack, needle, i) && i != 0 ensures OccursAt(tail, needle, i - 1) {
      assert tail[i - 1..i - 1 + |needle|] == haystack[i..i + |needle|];
    }
  }
}
