/** The context store (src/config.rs): its on-disk shape, the queries on it
    and the writes the commands build on. */
module Config {
  import opened Wrappers
  import opened Errors
  import opened Names
  import opened StringOrder

  newtype byte = b: int | 0 <= b < 256

  /** `ContextMetadata`: what `save` captured about gcloud and kubectl. */
  datatype ContextMetadata = ContextMetadata(
    gcloudConfig: string,
    account: Option<string>,
    project: Option<string>,
    kubectlContext: Option<string>)

  /** A context's `metadata.json`: missing (contexts from before metadata
      existed), present but unreadable or unparsable, or a record. */
  datatype MetadataFile = NoMetadata | Unparsable | Stored(metadata: ContextMetadata)

  /** A stored `adc.json`: its bytes, and whether its mode is owner-only (0600). */
  datatype AdcFile = AdcFile(content: seq<byte>, ownerOnly: bool)

  /** One subdirectory of the store root. */
  datatype ContextDir = ContextDir(adc: Option<AdcFile>, metadata: MetadataFile)

  /** What `get_current_tracking` answers when there is no marker. */
  const NoContext: string := "none"

  /** `get_current_tracking`: the marker's text verbatim, or "none" when it
      cannot be read; it has no error case. */
  function CurrentTracking(marker: Option<string>): (r: string)
    ensures marker.Some? ==> r == marker.value
    ensures r != NoContext ==> marker == Some(r)
  {
    match marker
    case Some(name) => name
    case None => NoContext
  }

  /** `context_exists`: the context's `adc.json` is present. A directory alone
      is not enough. */
  predicate ContextExistsIn(dirs: map<string, ContextDir>, name: string)
    ensures ContextExistsIn(dirs, name) ==> name in dirs
  {
    name in dirs && dirs[name].adc.Some?
  }

  /** The names `list_contexts` reports: subdirectories not starting with a dot. */
  function VisibleNames(dirs: map<string, ContextDir>): set<string> {
    set n | n in dirs && !IsHidden(n)
  }

  /** `load_context_metadata`: no file is not an error, an unparsable file is. */
  function LoadContextMetadata(dirs: map<string, ContextDir>, name: string)
    : (r: Result<Option<ContextMetadata>, Error>)
    ensures r.Failure? <==> name in dirs && dirs[name].metadata.Unparsable?
    ensures r.Failure? ==> r.error == CorruptMetadata
    ensures r == Success(None) <==> name !in dirs || dirs[name].metadata.NoMetadata?
    ensures r.Success? && r.value.Some? ==> name in dirs && dirs[name].metadata == Stored(r.value.value)
  {
    if name !in dirs then Success(None)
    else
      match dirs[name].metadata
      case NoMetadata => Success(None)
      case Unparsable => Failure(CorruptMetadata)
      case Stored(m) => Success(Some(m))
  }

  /** The gcloud configuration a context stands for: the recorded one, or the
      context's own name for contexts saved without metadata. */
  function ConfigFor(name: string, metadata: Option<ContextMetadata>): (r: string)
    ensures metadata.None? ==> r == name
    ensures metadata.Some? ==> r == metadata.value.gcloudConfig
    ensures ValidName(name) && (metadata.Some? ==> metadata.value.gcloudConfig != []) ==> r != []
  {
    match metadata
    case Some(m) => m.gcloudConfig
    case None => name
  }

  /** A context with a directory but no `adc.json` is listed, yet does not exist. */
  lemma ListedWithoutCredentials(dirs: map<string, ContextDir>, name: string)
    requires ValidName(name) && name in dirs && dirs[name].adc.None?
    ensures name in VisibleNames(dirs)
    ensures !ContextExistsIn(dirs, name)
  {
  }

  /** Every existing context with a valid name is listed. */
  lemma ExistingContextIsListed(dirs: map<string, ContextDir>, name: string)
    requires ValidName(name) && ContextExistsIn(dirs, name)
    ensures name in VisibleNames(dirs)
  {
  }

  /** Writing a valid name's directory adds exactly that name to the list. */
  lemma VisibleAfterWrite(dirs: map<string, ContextDir>, name: string, d: ContextDir)
    requires ValidName(name)
    ensures VisibleNames(dirs[name := d]) == VisibleNames(dirs) + {name}
  {
  }

  /** Removing a directory removes exactly that name from the list. */
  lemma VisibleAfterRemove(dirs: map<string, ContextDir>, name: string)
    ensures VisibleNames(dirs - {name}) == VisibleNames(dirs) - {name}
  {
  }

  /** "none" is a valid context name, so the marker's absence and a marker
      naming a context called "none" read the same. */
  lemma NoneIsAmbiguous()
    ensures ValidName(NoContext)
    ensures CurrentTracking(None) == CurrentTracking(Some(NoContext))
  {
  }

  /** The files the commands touch: the store root (one subdirectory per
      context, other plain files, and the `.current` marker) plus gcloud's live
      ADC file and its active configuration. */
  class Store {
    const root: string
    var dirs: map<string, ContextDir>
    var files: set<string>
    var marker: Option<string>
    var liveAdc: Option<seq<byte>>
    var activeConfig: string

    /** Names in a directory are unique, and `.current` is the marker file,
        never a context directory or another file. */
    ghost predicate Valid()
      reads this
    {
      && MarkerFileName !in dirs
      && MarkerFileName !in files
      && dirs.Keys !! files
    }

    /** An empty store root. */
    constructor (root: string, liveAdc: Option<seq<byte>>, activeConfig: string)
      ensures Valid()
      ensures this.root == root && dirs == map[] && files == {} && marker == None
      ensures this.liveAdc == liveAdc && this.activeConfig == activeConfig
    {
      this.root := root;
      dirs := map[];
      files := {};
      marker := None;
      this.liveAdc := liveAdc;
      this.activeConfig := activeConfig;
    }

    /** `set_current_tracking`: overwrites the marker with the name. */
    method SetCurrentTracking(name: string)
      modifies this`marker
      ensures marker == Some(name)
      ensures CurrentTracking(marker) == name
    {
      marker := Some(name);
    }

    /** `save_context_metadata`: replaces the metadata file as a whole. The
        write fails when the context has no directory. */
    method SaveContextMetadata(name: string, m: ContextMetadata) returns (r: Outcome<Error>)
      modifies this`dirs
      ensures r.Pass? <==> name in old(dirs)
      ensures r.Fail? ==> r.error == CannotWriteMetadata(name) && dirs == old(dirs)
      ensures r.Pass? ==> dirs == old(dirs)[name := old(dirs)[name].(metadata := Stored(m))]
      ensures r.Pass? ==> LoadContextMetadata(dirs, name) == Success(Some(m))
    {
      if name !in dirs {
        return Fail(CannotWriteMetadata(name));
      }
      dirs := dirs[name := dirs[name].(metadata := Stored(m))];
      r := Pass;
    }

    /** `list_contexts`: walks the root's entries in whatever order the
        directory yields them, keeps the directories whose names do not start
        with a dot, and sorts them. Each listed name appears once. */
    method ListContexts() returns (names: seq<string>)
      ensures Sorted(names)
      ensures multiset(names) == multiset(VisibleNames(dirs))
    {
      var contexts: seq<string> := [];
      var entries := dirs.Keys + files + (if marker.Some? then {MarkerFileName} else {});
      ghost var seen: set<string> := {};
      while entries != {}
        invariant seen !! entries
        invariant multiset(contexts) == multiset(VisibleAmong(dirs, seen))
        invariant dirs.Keys <= seen + entries
        decreases entries
      {
        var entry :| entry in entries;
        VisibleAmongStep(dirs, seen, entry);
        if entry in dirs && !IsHidden(entry) {
          contexts := contexts + [entry];
        }
        entries := entries - {entry};
        seen := seen + {entry};
      }
      assert VisibleAmong(dirs, seen) == VisibleNames(dirs);
      names := SortStrings(contexts);
    }
  }

  /** The visible context names among the directory entries seen so far. */
  ghost function VisibleAmong(dirs: map<string, ContextDir>, seen: set<string>): set<string> {
    set n | n in seen && n in dirs && !IsHidden(n)
  }

  /** Looking at one more entry adds it to the visible names exactly when it
      is a visible context directory. */
  lemma VisibleAmongStep(dirs: map<string, ContextDir>, seen: set<string>, entry: string)
    requires entry !in seen
    ensures entry in dirs && !IsHidden(entry) ==>
              multiset(VisibleAmong(dirs, seen + {entry})) == multiset(VisibleAmong(dirs, seen)) + multiset{entry}
    ensures !(entry in dirs && !IsHidden(entry)) ==>
              VisibleAmong(dirs, seen + {entry}) == VisibleAmong(dirs, seen)
  {
    if entry in dirs && !IsHidden(entry) {
      assert VisibleAmong(dirs, seen + {entry}) == VisibleAmong(dirs, seen) + {entry};
    } else {
      assert VisibleAmong(dirs, seen + {entry}) == VisibleAmong(dirs, seen);
    }
  }

  /** Two answers of `ListContexts` for the same directories are the same
      sequence: the result does not depend on the directory's order. */
  lemma ListingIsDetermined(dirs: map<string, ContextDir>, a: seq<string>, b: seq<string>)
    requires Sorted(a) && multiset(a) == multiset(VisibleNames(dirs))
    requires Sorted(b) && multiset(b) == multiset(VisibleNames(dirs))
    ensures a == b
  {
    SortedPermutationUnique(a, b);
  }

  /** Each visible name is listed exactly once and nothing else is listed. */
  lemma ListedOnce(dirs: map<string, ContextDir>, names: seq<string>, n: string)
    requires multiset(names) == multiset(VisibleNames(dirs))
    ensures multiset(names)[n] == if n in dirs && !IsHidden(n) then 1 else 0
  {
  }
}
