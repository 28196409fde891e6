/** `gcpx delete <name> [--gcloud-config]` (src/commands/delete.rs). */
module DeleteCommand {
  import opened Wrappers
  import opened Errors
  import opened Names
  import opened Tools
  import opened Config

  /** How `gcloud config configurations delete` ended. A configuration that
      does not exist is not an error (recognised by "does not exist" anywhere in
      gcloud's standard error); any other unsuccessful exit is reported with
      the untrimmed standard error. */
  function ConfigDeleteOutcome(out: Option<ToolOutput>): (r: Outcome<Error>)
    ensures r.Pass? <==> out.Some? && (out.value.success || Contains(out.value.stderr, "does not exist"))
    ensures out.None? ==> r == Fail(SpawnFailed("gcloud"))
    ensures out.Some? && r.Fail? ==> r == Fail(GcloudError(out.value.stderr))
  {
    match out
    case None => Fail(SpawnFailed("gcloud"))
    case Some(o) =>
      if o.success || Contains(o.stderr, "does not exist") then Pass
      else Fail(GcloudError(o.stderr))
  }

  /** `delete_context`: validate, require the context to exist, remove its
      directory as a whole, then optionally delete the gcloud configuration
      named like the context (not the one recorded in its metadata). The
      directory is already gone when gcloud fails. Deleting the tracked
      context only warns: the marker keeps naming it. Nothing but the store's
      directories ever changes. */
  method DeleteContext(store: Store, name: string, deleteGcloudConfig: bool, deleteOut: Option<ToolOutput>)
    returns (r: Outcome<Error>, calls: seq<ToolCall>)
    requires store.Valid()
    modifies store
    ensures store.Valid()
    ensures store.marker == old(store.marker) && store.files == old(store.files)
    ensures store.liveAdc == old(store.liveAdc) && store.activeConfig == old(store.activeConfig)
    ensures !ValidName(name) ==> r == Fail(InvalidName(ValidateContextName(name).error))
    ensures ValidName(name) && !ContextExistsIn(old(store.dirs), name) ==> r == Fail(ContextNotFound(name))
    ensures !(ValidName(name) && ContextExistsIn(old(store.dirs), name)) ==>
              calls == [] && store.dirs == old(store.dirs)
    ensures ValidName(name) && ContextExistsIn(old(store.dirs), name) ==>
              && store.dirs == old(store.dirs) - {name}
              && (deleteGcloudConfig ==> calls == [DeleteConfig(name)] && r == ConfigDeleteOutcome(deleteOut))
              && (!deleteGcloudConfig ==> calls == [] && r == Pass)
  {
    var valid := ValidateContextName(name);
    if valid.Fail? {
      return Fail(InvalidName(valid.error)), [];
    }
    if !ContextExistsIn(store.dirs, name) {
      return Fail(ContextNotFound(name)), [];
    }
    // remove_dir_all
    store.dirs := store.dirs - {name};
    if deleteGcloudConfig {
      calls := [DeleteConfig(name)];
      r := ConfigDeleteOutcome(deleteOut);
    } else {
      calls := [];
      r := Pass;
    }
  }

  /** After a delete the name is neither an existing nor a listed context, and
      every other context is exactly as before. */
  lemma DeletedContextIsGone(dirs: map<string, ContextDir>, name: string, other: string)
    requires other != name
    ensures !ContextExistsIn(dirs - {name}, name)
    ensures name !in VisibleNames(dirs - {name})
    ensures VisibleNames(dirs - {name}) == VisibleNames(dirs) - {name}
    ensures ContextExistsIn(dirs - {name}, other) == ContextExistsIn(dirs, other)
    ensures LoadContextMetadata(dirs - {name}, other) == LoadContextMetadata(dirs, other)
  {
    VisibleAfterRemove(dirs, name);
  }
}
