/** `gcpx switch [<name>]` (src/commands/switch.rs). */
module SwitchCommand {
  import opened Wrappers
  import opened Errors
  import opened Names
  import opened Tools
  import opened StringOrder
  import opened Config

  /** How `gcloud config configurations activate` ended: a gcloud that cannot
      be started, or that exits unsuccessfully, stops the switch; the reported
      error carries gcloud's standard error, trimmed. */
  function ActivationOutcome(out: Option<ToolOutput>): (r: Outcome<Error>)
    ensures r.Pass? <==> out.Some? && out.value.success
    ensures out.None? ==> r == Fail(SpawnFailed("gcloud"))
    ensures out.Some? && !out.value.success ==> r == Fail(GcloudError(Trim(out.value.stderr)))
  {
    match out
    case None => Fail(SpawnFailed("gcloud"))
    case Some(o) => if o.success then Pass else Fail(GcloudError(Trim(o.stderr)))
  }

  /** The kubectl call a switch makes: one `use-context` for a recorded kubectl
      context, none otherwise (including contexts saved without metadata). */
  function KubectlCalls(metadata: Option<ContextMetadata>): (calls: seq<ToolCall>)
    ensures |calls| <= 1
    ensures calls != [] <==> metadata.Some? && metadata.value.kubectlContext.Some?
    ensures calls != [] ==> calls[0] == UseKubectlContext(metadata.value.kubectlContext.value)
  {
    match metadata
    case Some(ContextMetadata(_, _, _, Some(kctx))) => [UseKubectlContext(kctx)]
    case _ => []
  }

  /** Whether `switch_context` gets past its checks and runs gcloud: a valid,
      existing context that is not already the tracked one, whose metadata
      loads. */
  predicate Proceeds(dirs: map<string, ContextDir>, marker: Option<string>, name: string) {
    && ValidName(name)
    && ContextExistsIn(dirs, name)
    && CurrentTracking(marker) != name
    && LoadContextMetadata(dirs, name).Success?
  }

  /** The second half of `switch_context`: activate the gcloud configuration,
      copy the stored credentials over the live ones, switch kubectl if a
      context was recorded (its failure is only a warning), and update the
      marker. A failed activation changes nothing. */
  method RestoreContext(store: Store, name: string, metadata: Option<ContextMetadata>,
                        activateOut: Option<ToolOutput>, kubectlOut: Option<ToolOutput>)
    returns (r: Outcome<Error>, calls: seq<ToolCall>)
    requires store.Valid() && ContextExistsIn(store.dirs, name)
    modifies store
    ensures store.Valid()
    ensures store.dirs == old(store.dirs) && store.files == old(store.files)
    ensures r == ActivationOutcome(activateOut)
    ensures r.Fail? ==> calls == [ActivateConfig(ConfigFor(name, metadata))] && unchanged(store)
    ensures r.Pass? ==> calls == [ActivateConfig(ConfigFor(name, metadata))] + KubectlCalls(metadata)
    ensures r.Pass? ==> store.activeConfig == ConfigFor(name, metadata)
    ensures r.Pass? ==> store.liveAdc == Some(old(store.dirs)[name].adc.value.content)
    ensures r.Pass? ==> store.marker == Some(name)
  {
    var config := ConfigFor(name, metadata);
    calls := [ActivateConfig(config)];
    r := ActivationOutcome(activateOut);
    if r.Fail? {
      return;
    }
    store.activeConfig := config;
    store.liveAdc := Some(store.dirs[name].adc.value.content);
    var kubectl := KubectlCalls(metadata);
    if kubectl != [] {
      // the answer only changes what is printed
      var switched := SwitchKubectlContext(kubectlOut);
      calls := calls + kubectl;
    }
    store.SetCurrentTracking(name);
  }

  /** `switch_context`. After validation and the existence check, a context
      that is already tracked is a success that touches nothing (its metadata
      is then only printed, so a corrupt file does not matter); otherwise the
      metadata must load, and the switch proceeds as `RestoreContext`. The
      store's directories are never changed. */
  method SwitchContext(store: Store, name: string, quiet: bool,
                       activateOut: Option<ToolOutput>, kubectlOut: Option<ToolOutput>)
    returns (r: Outcome<Error>, calls: seq<ToolCall>)
    requires store.Valid()
    modifies store
    ensures store.Valid()
    ensures store.dirs == old(store.dirs) && store.files == old(store.files)
    ensures !ValidName(name) ==> r == Fail(InvalidName(ValidateContextName(name).error))
    ensures ValidName(name) && !ContextExistsIn(old(store.dirs), name) ==> r == Fail(ContextNotFound(name))
    ensures ValidName(name) && ContextExistsIn(old(store.dirs), name) && CurrentTracking(old(store.marker)) == name
            ==> r == Pass
    ensures ValidName(name) && ContextExistsIn(old(store.dirs), name) && CurrentTracking(old(store.marker)) != name
            && LoadContextMetadata(old(store.dirs), name).Failure?
            ==> r == Fail(CorruptMetadata)
    ensures !Proceeds(old(store.dirs), old(store.marker), name) ==> calls == [] && unchanged(store)
    ensures Proceeds(old(store.dirs), old(store.marker), name) ==>
              var metadata := LoadContextMetadata(old(store.dirs), name).value;
              && r == ActivationOutcome(activateOut)
              && |calls| >= 1 && calls[0] == ActivateConfig(ConfigFor(name, metadata))
              && (r.Fail? ==> |calls| == 1 && unchanged(store))
              && (r.Pass? ==> calls[1..] == KubectlCalls(metadata))
              && (r.Pass? ==> store.activeConfig == ConfigFor(name, metadata))
              && (r.Pass? ==> store.liveAdc == Some(old(store.dirs)[name].adc.value.content))
              && (r.Pass? ==> store.marker == Some(name))
    ensures r.Pass? ==> CurrentTracking(store.marker) == name
  {
    var valid := ValidateContextName(name);
    if valid.Fail? {
      return Fail(InvalidName(valid.error)), [];
    }
    if !ContextExistsIn(store.dirs, name) {
      return Fail(ContextNotFound(name)), [];
    }
    if CurrentTracking(store.marker) == name {
      return Pass, [];
    }
    var metadata := LoadContextMetadata(store.dirs, name);
    if metadata.Failure? {
      return Fail(metadata.error), [];
    }
    r, calls := RestoreContext(store, name, metadata.value, activateOut, kubectlOut);
  }

  /** `interactive_switch`: list the contexts; with none, say so and succeed;
      otherwise the user picks one from the sorted list (`selection`, `None`
      when the prompt fails) and it is switched to. `listed` is the list shown. */
  method InteractiveSwitch(store: Store, quiet: bool, selection: Option<nat>,
                           activateOut: Option<ToolOutput>, kubectlOut: Option<ToolOutput>)
    returns (r: Outcome<Error>, calls: seq<ToolCall>, listed: seq<string>)
    requires store.Valid()
    requires selection.Some? ==> selection.value < |VisibleNames(store.dirs)|
    modifies store
    ensures store.Valid()
    ensures store.dirs == old(store.dirs) && store.files == old(store.files)
    ensures Sorted(listed) && multiset(listed) == multiset(VisibleNames(old(store.dirs)))
    ensures |listed| == |VisibleNames(old(store.dirs))|
    ensures listed == [] ==> r == Pass && calls == [] && unchanged(store)
    ensures listed != [] && selection.None? ==> r == Fail(SelectionFailed) && calls == [] && unchanged(store)
    ensures listed != [] && selection.Some? && r.Pass? ==>
              CurrentTracking(store.marker) == listed[selection.value]
    ensures listed != [] && selection.Some? && r.Fail? && r.error.ContextNotFound? ==>
              r.error.name == listed[selection.value]
  {
    listed := store.ListContexts();
    if listed == [] {
      return Pass, [], listed;
    }
    if selection.None? {
      return Fail(SelectionFailed), [], listed;
    }
    assert |listed| == |multiset(listed)| == |VisibleNames(store.dirs)|;
    r, calls := SwitchContext(store, listed[selection.value], quiet, activateOut, kubectlOut);
  }
}
