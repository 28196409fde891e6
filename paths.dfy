/** Where the store keeps things (src/config.rs, get_context_dir,
    get_context_adc_path, get_context_metadata_path, set_current_tracking).
    The store root itself is a parameter: how it is found is not modelled. */
module Paths {
  import opened Names

  const AdcFileName: string := "adc.json"
  const MetadataFileName: string := "metadata.json"

  /** `Path::join` on Unix: an absolute component replaces the path, and a
      separator is added only when the directory does not already end in one. */
  function JoinPath(dir: string, entry: string): string {
    if |entry| > 0 && entry[0] == '/' then entry
    else if dir == [] || dir[|dir| - 1] == '/' then dir + entry
    else dir + "/" + entry
  }

  /** The root as a directory prefix: what `JoinPath(root, _)` puts in front. */
  function RootPrefix(root: string): string {
    if root == [] || root[|root| - 1] == '/' then root else root + "/"
  }

  /** `get_context_dir`: for a valid name, one level below the root. */
  function ContextDirPath(root: string, name: string): (p: string)
    ensures ValidName(name) ==> p == RootPrefix(root) + name
    ensures ValidName(name) ==> p != [] && p[|p| - 1] != '/'
  {
    if ValidName(name) then
      assert !IsSeparator(name[|name| - 1]);
      assert (RootPrefix(root) + name)[|RootPrefix(root) + name| - 1] == name[|name| - 1];
      JoinPath(root, name)
    else
      JoinPath(root, name)
  }

  /** `get_context_adc_path`: for a valid name, `adc.json` directly inside
      the context's directory. */
  function ContextAdcPath(root: string, name: string): (p: string)
    ensures ValidName(name) ==> p == RootPrefix(root) + name + "/" + AdcFileName
  {
    JoinPath(ContextDirPath(root, name), AdcFileName)
  }

  /** `get_context_metadata_path`: for a valid name, `metadata.json` directly
      inside the context's directory. */
  function ContextMetadataPath(root: string, name: string): (p: string)
    ensures ValidName(name) ==> p == RootPrefix(root) + name + "/" + MetadataFileName
  {
    JoinPath(ContextDirPath(root, name), MetadataFileName)
  }

  /** The marker `.current`, directly in the root. */
  function MarkerPath(root: string): (p: string)
    ensures p == RootPrefix(root) + MarkerFileName
  {
    JoinPath(root, MarkerFileName)
  }

  /** A valid name is one directory level below the root, and the context's
      files sit directly inside that directory. */
  lemma ContextPathShape(root: string, name: string)
    requires ValidName(name)
    ensures ContextDirPath(root, name) == RootPrefix(root) + name
    ensures ContextAdcPath(root, name) == RootPrefix(root) + name + "/" + AdcFileName
    ensures ContextMetadataPath(root, name) == RootPrefix(root) + name + "/" + MetadataFileName
    ensures MarkerPath(root) == RootPrefix(root) + MarkerFileName
  {
  }

  /** Distinct valid names never share a directory or a credential file, and no
      valid name reaches the marker file: keying the store by name is sound. */
  lemma ContextPathsDistinct(root: string, a: string, b: string)
    requires ValidName(a) && ValidName(b) && a != b
    ensures ContextDirPath(root, a) != ContextDirPath(root, b)
    ensures ContextAdcPath(root, a) != ContextAdcPath(root, b)
    ensures ContextDirPath(root, a) != MarkerPath(root)
  {
    ContextPathShape(root, a);
    ContextPathShape(root, b);
    var p := RootPrefix(root);
    if |a| == |b| {
      var pa, pb := p + a + "/" + AdcFileName, p + b + "/" + AdcFileName;
      assert pa[|p|..|p| + |a|] == a;
      assert pb[|p|..|p| + |b|] == b;
      assert (p + a)[|p|..] == a && (p + b)[|p|..] == b;
    }
    assert (p + a)[|p|] == a[0] && (p + MarkerFileName)[|p|] == '.';
  }
}
