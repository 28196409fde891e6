/** Command sequences on a fresh store, as the repository's integration tests
    (tests/integration.rs) run them, with their outcomes proved. Every test
    starts from an empty store root; `content` is the live credential file the
    test creates, and the tool outputs stand for whatever gcloud and kubectl
    answer. */
module Scenarios {
  import opened Wrappers
  import opened Errors
  import opened Names
  import opened Tools
  import opened StringOrder
  import opened Config
  import opened SaveCommand
  import opened SwitchCommand
  import opened DeleteCommand
  import opened RunCommand

  /** The names the scenarios use pass validation. */
  lemma ScenarioNamesValid()
    ensures ValidName("my-project") && ValidName("to-delete") && ValidName("test-ctx")
    ensures ValidName("work") && ValidName("nonexistent")
  {
    assert ValidName("my-project");
    assert ValidName("to-delete");
    assert ValidName("test-ctx");
    assert ValidName("work");
    assert ValidName("nonexistent");
  }

  lemma ProjectNamesValid()
    ensures ValidName("project-a") && ValidName("project-b") && ValidName("project-c")
  {
    assert ValidName("project-a");
    assert ValidName("project-b");
    assert ValidName("project-c");
  }

  lemma PairNamesValid()
    ensures ValidName("alpha") && ValidName("beta")
  {
    assert ValidName("alpha");
    assert ValidName("beta");
  }

  /** A save of a valid name with credentials present and gcloud answering
      succeeds, adds exactly that name to the listing and tracks it. */
  method SaveSucceeds(store: Store, name: string,
                      configOut: Option<ToolOutput>, accountOut: Option<ToolOutput>,
                      projectOut: Option<ToolOutput>, kubectlOut: Option<ToolOutput>,
                      captured: ContextMetadata)
    returns (r: Outcome<Error>)
    requires store.Valid() && ValidName(name) && store.liveAdc.Some? && name !in store.files
    requires CaptureMetadata(configOut, accountOut, projectOut, kubectlOut) == Success(captured)
    modifies store
    ensures r == Pass && store.Valid()
    ensures store.files == old(store.files) && store.liveAdc == old(store.liveAdc)
    ensures store.activeConfig == old(store.activeConfig)
    ensures store.marker == Some(name)
    ensures VisibleNames(store.dirs) == VisibleNames(old(store.dirs)) + {name}
    ensures ContextExistsIn(store.dirs, name)
    ensures store.dirs == old(store.dirs)[name := store.dirs[name]]
    ensures store.dirs[name].adc == Some(AdcFile(store.liveAdc.value, true))
    ensures store.dirs[name].metadata == Stored(captured)
  {
    ghost var before := store.dirs;
    r := SaveContext(store, name, false, configOut, accountOut, projectOut, kubectlOut);
    VisibleAfterWrite(before, name, store.dirs[name]);
  }

  /** An empty store lists nothing and tracks "none". */
  method EmptyStore(root: string, liveAdc: Option<seq<byte>>, activeConfig: string)
    returns (listed: seq<string>, current: string)
    ensures listed == []
    ensures current == "none"
  {
    var store := new Store(root, liveAdc, activeConfig);
    assert VisibleNames(store.dirs) == {};
    listed := store.ListContexts();
    assert |listed| == |multiset(listed)| == 0;
    current := CurrentTracking(store.marker);
  }

  /** Saving without a live credential file fails and creates nothing. */
  method SaveWithoutCredentials(root: string, activeConfig: string,
                                configOut: Option<ToolOutput>, accountOut: Option<ToolOutput>,
                                projectOut: Option<ToolOutput>, kubectlOut: Option<ToolOutput>)
    returns (r: Outcome<Error>, listed: seq<string>)
    ensures r == Fail(NoCredentials)
    ensures listed == []
  {
    var store := new Store(root, None, activeConfig);
    ScenarioNamesValid();
    r := SaveContext(store, "my-project", false, configOut, accountOut, projectOut, kubectlOut);
    assert VisibleNames(store.dirs) == {};
    listed := store.ListContexts();
    assert |listed| == |multiset(listed)| == 0;
  }

  /** A save with gcloud available lists the context, tracks it, and stores an
      owner-only copy of the credentials together with the metadata. */
  method SaveAndList(root: string, content: seq<byte>, activeConfig: string, 
                     configOut: Option<ToolOutput>, accountOut: Option<ToolOutput>,
                     projectOut: Option<ToolOutput>, kubectlOut: Option<ToolOutput>, captured: ContextMetadata)
    returns (r: Outcome<Error>, listed: seq<string>, current: string, stored: ContextDir)
    requires CaptureMetadata(configOut, accountOut, projectOut, kubectlOut) == Success(captured)
    ensures r == Pass
    ensures listed == ["my-project"]
    ensures current == "my-project"
    ensures stored.adc == Some(AdcFile(content, true))
    ensures stored.metadata == Stored(captured)
  {
    ScenarioNamesValid();
    r, listed, current, stored := SaveOneAndList(root, content, activeConfig, "my-project",
                                                 configOut, accountOut, projectOut, kubectlOut, captured);
  }

  /** One save of a valid name into a new store, then a listing. */
  method SaveOneAndList(root: string, content: seq<byte>, activeConfig: string, name: string,
                        configOut: Option<ToolOutput>, accountOut: Option<ToolOutput>,
                        projectOut: Option<ToolOutput>, kubectlOut: Option<ToolOutput>, captured: ContextMetadata)
    returns (r: Outcome<Error>, listed: seq<string>, current: string, stored: ContextDir)
    requires ValidName(name)
    requires CaptureMetadata(configOut, accountOut, projectOut, kubectlOut) == Success(captured)
    ensures r == Pass
    ensures listed == [name]
    ensures current == name
    ensures stored.adc == Some(AdcFile(content, true))
    ensures stored.metadata == Stored(captured)
  {
    var store := new Store(root, Some(content), activeConfig);
    assert VisibleNames(store.dirs) == {};
    r := SaveSucceeds(store, name, configOut, accountOut, projectOut, kubectlOut, captured);
    listed := store.ListContexts();
    SingleListing(listed, name);
    current := CurrentTracking(store.marker);
    stored := store.dirs[name];
  }

  /** A listing of a single name is that name alone. */
  lemma SingleListing(listed: seq<string>, x: string)
    requires multiset(listed) == multiset({x})
    ensures listed == [x]
  {
    assert multiset({x}) == multiset{x};
    assert |listed| == 1;
    assert listed[0] in multiset(listed);
  }

  /** Three saves list as the three names in order. */
  method MultipleContexts(root: string, content: seq<byte>, activeConfig: string,
                          configOut: Option<ToolOutput>, accountOut: Option<ToolOutput>,
                          projectOut: Option<ToolOutput>, kubectlOut: Option<ToolOutput>, captured: ContextMetadata)
    returns (listed: seq<string>)
    requires CaptureMetadata(configOut, accountOut, projectOut, kubectlOut) == Success(captured)
    ensures listed == ["project-a", "project-b", "project-c"]
  {
    var store := new Store(root, Some(content), activeConfig);
    ProjectNamesValid();
    SaveThree(store, "project-a", "project-b", "project-c", configOut, accountOut, projectOut, kubectlOut, captured);
    listed := store.ListContexts();
    ThreeProjectsListing(listed);
  }

  /** Three saves of distinct valid names into an empty store make exactly
      those three names visible. */
  method SaveThree(store: Store, a: string, b: string, c: string,
                   configOut: Option<ToolOutput>, accountOut: Option<ToolOutput>,
                   projectOut: Option<ToolOutput>, kubectlOut: Option<ToolOutput>,
                   captured: ContextMetadata)
    requires store.Valid() && store.liveAdc.Some? && store.dirs == map[] && store.files == {}
    requires ValidName(a) && ValidName(b) && ValidName(c)
    requires CaptureMetadata(configOut, accountOut, projectOut, kubectlOut) == Success(captured)
    modifies store
    ensures store.Valid()
    ensures VisibleNames(store.dirs) == {a, b, c}
  {
    assert VisibleNames(store.dirs) == {};
    var ra := SaveSucceeds(store, a, configOut, accountOut, projectOut, kubectlOut, captured);
    var rb := SaveSucceeds(store, b, configOut, accountOut, projectOut, kubectlOut, captured);
    var rc := SaveSucceeds(store, c, configOut, accountOut, projectOut, kubectlOut, captured);
  }

  /** The only sorted listing of the three names is the one in order. */
  lemma ThreeProjectsListing(listed: seq<string>)
    requires Sorted(listed)
    requires multiset(listed) == multiset({"project-a", "project-b", "project-c"})
    ensures listed == ["project-a", "project-b", "project-c"]
  {
    var expected := ["project-a", "project-b", "project-c"];
    assert multiset(expected) == multiset({"project-a", "project-b", "project-c"});
    ThreeProjectsSorted();
    SortedPermutationUnique(listed, expected);
  }

  /** The three names compare pairwise in the order of their last letter. */
  lemma ProjectNamesOrdered()
    ensures LexLeq("project-a", "project-b") && LexLeq("project-b", "project-c")
    ensures LexLeq("project-a", "project-c")
  {
    assert LexLeq("a", "b") && LexLeq("b", "c") && LexLeq("a", "c");
    LexLeqCommonPrefix("project-", "a", "b");
    LexLeqCommonPrefix("project-", "b", "c");
    LexLeqCommonPrefix("project-", "a", "c");
    assert "project-" + "a" == "project-a";
    assert "project-" + "b" == "project-b";
    assert "project-" + "c" == "project-c";
  }

  /** The expected listing is in order. */
  lemma ThreeProjectsSorted()
    ensures Sorted(["project-a", "project-b", "project-c"])
  {
    ProjectNamesOrdered();
    SortedTriple("project-a", "project-b", "project-c");
  }

  /** Three strings in pairwise order form a sorted sequence. */
  lemma SortedTriple(a: string, b: string, c: string)
    requires LexLeq(a, b) && LexLeq(b, c) && LexLeq(a, c)
    ensures Sorted([a, b, c])
  {
  }

  /** A saved context exists until it is deleted. */
  method SaveThenDelete(root: string, content: seq<byte>, activeConfig: string,
                        configOut: Option<ToolOutput>, accountOut: Option<ToolOutput>,
                        projectOut: Option<ToolOutput>, kubectlOut: Option<ToolOutput>, captured: ContextMetadata)
    returns (existedBefore: bool, saved: bool, existedAfterSave: bool, deleted: Outcome<Error>,
             existsAfterDelete: bool, current: string, switched: Outcome<Error>)
    requires CaptureMetadata(configOut, accountOut, projectOut, kubectlOut) == Success(captured)
    ensures !existedBefore && saved && existedAfterSave
    ensures deleted == Pass && !existsAfterDelete
    ensures current == "to-delete"
    ensures switched == Fail(ContextNotFound("to-delete"))
  {
    var store := new Store(root, Some(content), activeConfig);
    ScenarioNamesValid();
    existedBefore := ContextExistsIn(store.dirs, "to-delete");
    var r := SaveSucceeds(store, "to-delete", configOut, accountOut, projectOut, kubectlOut, captured);
    saved := r.Pass?;
    existedAfterSave := ContextExistsIn(store.dirs, "to-delete");
    var calls;
    deleted, calls := DeleteContext(store, "to-delete", false, None);
    existsAfterDelete := ContextExistsIn(store.dirs, "to-delete");
    // the marker still names the deleted context, yet switching to it fails
    current := CurrentTracking(store.marker);
    switched, calls := SwitchContext(store, "to-delete", false, None, None);
  }

  /** Switch, delete and run all report a context that was never saved. */
  method MissingContext(root: string, liveAdc: Option<seq<byte>>, activeConfig: string, quiet: bool,
                        activateOut: Option<ToolOutput>, kubectlOut: Option<ToolOutput>,
                        deleteOut: Option<ToolOutput>, exit: Option<Option<int>>)
    returns (switched: Outcome<Error>, deleted: Outcome<Error>, ran: Outcome<Error>)
    ensures switched == Fail(ContextNotFound("nonexistent"))
    ensures deleted == Fail(ContextNotFound("nonexistent"))
    ensures ran == Fail(ContextNotFound("nonexistent"))
  {
    var store := new Store(root, liveAdc, activeConfig);
    ScenarioNamesValid();
    var calls, child;
    switched, calls := SwitchContext(store, "nonexistent", quiet, activateOut, kubectlOut);
    deleted, calls := DeleteContext(store, "nonexistent", false, deleteOut);
    ran, child := RunWithContext(store, "nonexistent", ["echo", "hello"], exit);
  }

  /** Running a saved context without a command starts nothing. */
  method RunWithoutCommand(root: string, content: seq<byte>, activeConfig: string,
                           configOut: Option<ToolOutput>, accountOut: Option<ToolOutput>,
                           projectOut: Option<ToolOutput>, kubectlOut: Option<ToolOutput>, captured: ContextMetadata,
                           exit: Option<Option<int>>)
    returns (ran: Outcome<Error>, child: Option<ToolCall>)
    requires CaptureMetadata(configOut, accountOut, projectOut, kubectlOut) == Success(captured)
    ensures ran == Fail(NoCommand) && child.None?
  {
    var store := new Store(root, Some(content), activeConfig);
    ScenarioNamesValid();
    var r := SaveSucceeds(store, "test-ctx", configOut, accountOut, projectOut, kubectlOut, captured);
    ran, child := RunWithContext(store, "test-ctx", [], exit);
  }

  /** Right after a save the context is the tracked one, so switching to it
      again runs nothing and changes nothing. */
  method SwitchAfterSave(root: string, content: seq<byte>, activeConfig: string,
                         configOut: Option<ToolOutput>, accountOut: Option<ToolOutput>,
                         projectOut: Option<ToolOutput>, kubectlOut: Option<ToolOutput>, captured: ContextMetadata,
                         activateOut: Option<ToolOutput>)
    returns (switched: Outcome<Error>, calls: seq<ToolCall>, adcAfter: Option<seq<byte>>, configAfter: string)
    requires CaptureMetadata(configOut, accountOut, projectOut, kubectlOut) == Success(captured)
    ensures switched == Pass && calls == []
    ensures adcAfter == Some(content) && configAfter == activeConfig
  {
    var store := new Store(root, Some(content), activeConfig);
    ScenarioNamesValid();
    var r := SaveSucceeds(store, "work", configOut, accountOut, projectOut, kubectlOut, captured);
    switched, calls := SwitchContext(store, "work", false, activateOut, kubectlOut);
    adcAfter := store.liveAdc;
    configAfter := store.activeConfig;
  }

  /** Switching back to a context restores what its save stored: `alpha` is
      saved with credentials `content1` and metadata `m1`, a new login replaces
      the live credentials with `content2`, and `beta` is saved with them and
      `m2`. Switching to `alpha` brings back `content1` and `m1`'s gcloud
      configuration and switches kubectl as `m1` records. The two saves are
      their writing half, `StoreContext`, with the metadata `CaptureMetadata`
      returned. */
  method SwitchBackRestores(root: string, content1: seq<byte>, content2: seq<byte>, activeConfig: string,
                            m1: ContextMetadata, m2: ContextMetadata,
                            activateOut: Option<ToolOutput>, useOut: Option<ToolOutput>)
    returns (switched: Outcome<Error>, calls: seq<ToolCall>,
             adcAfter: Option<seq<byte>>, configAfter: string, current: string)
    requires activateOut.Some? && activateOut.value.success
    ensures switched == Pass
    ensures calls == [ActivateConfig(m1.gcloudConfig)] + KubectlCalls(Some(m1))
    ensures adcAfter == Some(content1)
    ensures configAfter == m1.gcloudConfig
    ensures current == "alpha"
  {
    var store := new Store(root, Some(content1), activeConfig);
    PairNamesValid();
    assert "alpha"[0] != "beta"[0];
    var ra := StoreContext(store, "alpha", m1);
    // a fresh login replaces the live credentials before the second save
    store.liveAdc := Some(content2);
    var rb := StoreContext(store, "beta", m2);
    assert Proceeds(store.dirs, store.marker, "alpha");
    switched, calls := SwitchContext(store, "alpha", false, activateOut, useOut);
    assert calls == [calls[0]] + calls[1..];
    adcAfter := store.liveAdc;
    configAfter := store.activeConfig;
    current := CurrentTracking(store.marker);
  }

  /** `quiet` only changes what is printed: two saves that differ only in it
      end in the same result and the same store. */
  method QuietOnlyPrints(root: string, liveAdc: Option<seq<byte>>, activeConfig: string, name: string,
                         configOut: Option<ToolOutput>, accountOut: Option<ToolOutput>,
                         projectOut: Option<ToolOutput>, kubectlOut: Option<ToolOutput>)
    returns (loud: Outcome<Error>, quiet: Outcome<Error>, same: bool)
    ensures loud == quiet
    ensures same
  {
    var a := new Store(root, liveAdc, activeConfig);
    var b := new Store(root, liveAdc, activeConfig);
    loud := SaveContext(a, name, false, configOut, accountOut, projectOut, kubectlOut);
    quiet := SaveContext(b, name, true, configOut, accountOut, projectOut, kubectlOut);
    same := a.dirs == b.dirs && a.files == b.files && a.marker == b.marker
            && a.liveAdc == b.liveAdc && a.activeConfig == b.activeConfig;
  }
}
