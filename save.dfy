/** `gcpx save <name>` (src/commands/save.rs). */
module SaveCommand {
  import opened Wrappers
  import opened Errors
  import opened Names
  import opened Tools
  import opened Config

  /** The gcloud and kubectl state that `save` records, queried in the
      source's order: configuration, account, project, kubectl context. A
      gcloud that cannot be started stops the save at the first query; kubectl
      never does. */
  function CaptureMetadata(configOut: Option<ToolOutput>, accountOut: Option<ToolOutput>,
                           projectOut: Option<ToolOutput>, kubectlOut: Option<ToolOutput>)
    : (r: Result<ContextMetadata, Error>)
    ensures r.Success? <==> configOut.Some? && accountOut.Some? && projectOut.Some?
    ensures configOut.None? ==> r == Failure(QueryFailed(ActiveConfig))
    ensures configOut.Some? && accountOut.None? ==> r == Failure(QueryFailed(Account))
    ensures configOut.Some? && accountOut.Some? && projectOut.None? ==> r == Failure(QueryFailed(Project))
  {
    match QueryActiveConfig(configOut)
    case Failure(e) => Failure(e)
    case Success(config) =>
      match QueryConfigValue(Account, accountOut)
      case Failure(e) => Failure(e)
      case Success(account) =>
        match QueryConfigValue(Project, projectOut)
        case Failure(e) => Failure(e)
        case Success(project) =>
          Success(ContextMetadata(config, account, project, CurrentKubectlContext(kubectlOut)))
  }

  /** What a successful capture records: the trimmed configuration name
      ("default" when gcloud printed nothing), account and project with
      "(unset)" read as absent, and the kubectl context if kubectl answered. */
  lemma CapturedValues(configOut: Option<ToolOutput>, accountOut: Option<ToolOutput>,
                       projectOut: Option<ToolOutput>, kubectlOut: Option<ToolOutput>)
    requires CaptureMetadata(configOut, accountOut, projectOut, kubectlOut).Success?
    ensures var m := CaptureMetadata(configOut, accountOut, projectOut, kubectlOut).value;
      && m.gcloudConfig == ParseActiveConfig(configOut.value.stdout)
      && m.account == ParseConfigValue(accountOut.value.stdout)
      && m.project == ParseConfigValue(projectOut.value.stdout)
      && m.kubectlContext == CurrentKubectlContext(kubectlOut)
      && m.gcloudConfig != []
      && (kubectlOut.None? ==> m.kubectlContext.None?)
  {
  }

  /** The writing half of `save_context`: create the directory, copy the
      live credentials into it, write the metadata, restrict the copy to its
      owner, mark the context active. Only `create_dir_all` can fail here, on a
      plain file of the same name, and it fails before anything is written. */
  method StoreContext(store: Store, name: string, metadata: ContextMetadata) returns (r: Outcome<Error>)
    requires store.Valid() && ValidName(name) && store.liveAdc.Some?
    modifies store
    ensures store.Valid()
    ensures r.Pass? <==> name !in old(store.files)
    ensures r.Fail? ==> r == Fail(CannotCreateDirectory(name)) && unchanged(store)
    ensures store.liveAdc == old(store.liveAdc)
    ensures store.activeConfig == old(store.activeConfig) && store.files == old(store.files)
    ensures r.Pass? ==>
              store.dirs == old(store.dirs)[name := ContextDir(Some(AdcFile(old(store.liveAdc).value, true)), Stored(metadata))]
    ensures r.Pass? ==> store.marker == Some(name)
  {
    // create_dir_all: succeeds on an existing directory, fails on a plain file
    if name in store.files {
      return Fail(CannotCreateDirectory(name));
    }
    ValidNameIsPlainEntry(name);
    if name !in store.dirs {
      store.dirs := store.dirs[name := ContextDir(None, NoMetadata)];
    }
    // the copy keeps the mode of an existing adc.json; a new file gets the
    // default mode, which is not owner-only
    var content := store.liveAdc.value;
    var dir := store.dirs[name];
    var mode := dir.adc.Some? && dir.adc.value.ownerOnly;
    store.dirs := store.dirs[name := dir.(adc := Some(AdcFile(content, mode)))];
    var written := store.SaveContextMetadata(name, metadata);
    assert written.Pass?;
    // chmod 0600
    store.dirs := store.dirs[name := store.dirs[name].(adc := Some(AdcFile(content, true)))];
    store.SetCurrentTracking(name);
    r := Pass;
  }

  /** `save_context`: validate, require live credentials, capture metadata,
      then write. Every check comes before the first write, so a failed save
      changes nothing. `quiet` only selects what is printed. */
  method SaveContext(store: Store, name: string, quiet: bool,
                     configOut: Option<ToolOutput>, accountOut: Option<ToolOutput>,
                     projectOut: Option<ToolOutput>, kubectlOut: Option<ToolOutput>)
    returns (r: Outcome<Error>)
    requires store.Valid()
    modifies store
    ensures store.Valid()
    ensures !ValidName(name) ==> r == Fail(InvalidName(ValidateContextName(name).error))
    ensures ValidName(name) && old(store.liveAdc).None? ==> r == Fail(NoCredentials)
    ensures ValidName(name) && old(store.liveAdc).Some?
            && CaptureMetadata(configOut, accountOut, projectOut, kubectlOut).Failure?
            ==> r == Fail(CaptureMetadata(configOut, accountOut, projectOut, kubectlOut).error)
    ensures ValidName(name) && old(store.liveAdc).Some?
            && CaptureMetadata(configOut, accountOut, projectOut, kubectlOut).Success?
            && name in old(store.files)
            ==> r == Fail(CannotCreateDirectory(name))
    ensures r.Pass? <==>
            && ValidName(name) && old(store.liveAdc).Some?
            && CaptureMetadata(configOut, accountOut, projectOut, kubectlOut).Success?
            && name !in old(store.files)
    ensures r.Fail? ==> unchanged(store)
    ensures store.liveAdc == old(store.liveAdc)
    ensures store.activeConfig == old(store.activeConfig) && store.files == old(store.files)
    ensures r.Pass? ==> store.dirs == old(store.dirs)[name := ContextDir(
              Some(AdcFile(old(store.liveAdc).value, true)),
              Stored(CaptureMetadata(configOut, accountOut, projectOut, kubectlOut).value))]
    ensures r.Pass? ==> store.marker == Some(name)
  {
    var valid := ValidateContextName(name);
    if valid.Fail? {
      return Fail(InvalidName(valid.error));
    }
    if store.liveAdc.None? {
      return Fail(NoCredentials);
    }
    var captured := CaptureMetadata(configOut, accountOut, projectOut, kubectlOut);
    if captured.Failure? {
      return Fail(captured.error);
    }
    r := StoreContext(store, name, captured.value);
  }

  /** After a successful save the context exists, is listed, carries exactly
      the captured metadata, and no other context reads differently. */
  lemma SavedContextIsComplete(dirs: map<string, ContextDir>, name: string, content: seq<byte>,
                               m: ContextMetadata, other: string)
    requires ValidName(name) && other != name
    ensures var after := dirs[name := ContextDir(Some(AdcFile(content, true)), Stored(m))];
      && ContextExistsIn(after, name)
      && VisibleNames(after) == VisibleNames(dirs) + {name}
      && LoadContextMetadata(after, name) == Success(Some(m))
      && ContextExistsIn(after, other) == ContextExistsIn(dirs, other)
      && LoadContextMetadata(after, other) == LoadContextMetadata(dirs, other)
  {
    VisibleAfterWrite(dirs, name, ContextDir(Some(AdcFile(content, true)), Stored(m)));
  }
}
