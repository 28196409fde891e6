/** `gcpx run <name> -- <command>...` (src/commands/run.rs). */
module RunCommand {
  import opened Wrappers
  import opened Errors
  import opened Names
  import opened Tools
  import opened Paths
  import opened Config

  const CredentialsVariable: string := "GOOGLE_APPLICATION_CREDENTIALS"
  const ConfigVariable: string := "CLOUDSDK_ACTIVE_CONFIG_NAME"

  /** How the child ended. `exit` is `None` when the program cannot be
      started, `Some(None)` when it ended without an exit code (killed by a
      signal), `Some(Some(c))` for exit code `c`. Only code 0 is success; a
      missing code is reported as -1. */
  function ChildOutcome(program: string, exit: Option<Option<int>>): (r: Outcome<Error>)
    ensures r.Pass? <==> exit == Some(Some(0))
    ensures exit.None? ==> r == Fail(SpawnFailed(program))
    ensures exit == Some(None) ==> r == Fail(CommandExited(-1))
    ensures exit.Some? && exit.value.Some? && exit.value.value != 0 ==> r == Fail(CommandExited(exit.value.value))
  {
    match exit
    case None => Fail(SpawnFailed(program))
    case Some(code) =>
      if code == Some(0) then Pass else Fail(CommandExited(code.GetOr(-1)))
  }

  /** The environment the child gets on top of the inherited one: the
      context's stored credentials and its gcloud configuration. */
  function ChildEnvironment(root: string, name: string, metadata: Option<ContextMetadata>)
    : (env: map<string, string>)
    ensures env.Keys == {CredentialsVariable, ConfigVariable}
    ensures env[CredentialsVariable] == ContextAdcPath(root, name)
    ensures env[ConfigVariable] == ConfigFor(name, metadata)
  {
    map[CredentialsVariable := ContextAdcPath(root, name), ConfigVariable := ConfigFor(name, metadata)]
  }

  /** `run_with_context`: the checks come in the order name, command, context,
      metadata, and only when all pass is the child started, with the first
      word as program and the rest as arguments. The store is only read: no
      switch happens. */
  method RunWithContext(store: Store, name: string, cmd: seq<string>, exit: Option<Option<int>>)
    returns (r: Outcome<Error>, child: Option<ToolCall>)
    ensures !ValidName(name) ==> r == Fail(InvalidName(ValidateContextName(name).error))
    ensures ValidName(name) && cmd == [] ==> r == Fail(NoCommand)
    ensures ValidName(name) && cmd != [] && !ContextExistsIn(store.dirs, name) ==> r == Fail(ContextNotFound(name))
    ensures ValidName(name) && cmd != [] && ContextExistsIn(store.dirs, name)
            && LoadContextMetadata(store.dirs, name).Failure?
            ==> r == Fail(CorruptMetadata)
    ensures child.Some? <==>
            ValidName(name) && cmd != [] && ContextExistsIn(store.dirs, name)
            && LoadContextMetadata(store.dirs, name).Success?
    ensures child.Some? ==>
              && child.value == Exec(cmd[0], cmd[1..],
                   ChildEnvironment(store.root, name, LoadContextMetadata(store.dirs, name).value))
              && r == ChildOutcome(cmd[0], exit)
  {
    var valid := ValidateContextName(name);
    if valid.Fail? {
      return Fail(InvalidName(valid.error)), None;
    }
    if cmd == [] {
      return Fail(NoCommand), None;
    }
    if !ContextExistsIn(store.dirs, name) {
      return Fail(ContextNotFound(name)), None;
    }
    var metadata := LoadContextMetadata(store.dirs, name);
    if metadata.Failure? {
      return Fail(metadata.error), None;
    }
    child := Some(Exec(cmd[0], cmd[1..], ChildEnvironment(store.root, name, metadata.value)));
    r := ChildOutcome(cmd[0], exit);
  }
}
