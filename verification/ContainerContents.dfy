/** What `Create` of the container backend makes, spelled out: the container it asks for, the files that lie under its root
    when it starts, when it asks at all, and that a `Create` whose calls are served succeeds. */
module ContainerContents {
  import opened Text
  import opened Names
  import opened Provider
  import opened Paths
  import opened Container
  import opened ContainerStaging
  import opened ContainerSafety
  import opened ContainerCreate
  import opened ContainerFailure
  import opened ContainerRespect
  import opened ContainerRepeat
  import opened ContainerAnswers

  // ----- in words -----

  /** The container is the one asked for, whatever it starts with and whatever state it is in. */
  predicate Ordered(s: Site, b: Bootstrap, c: Container) {
    && c.name == DigestedName(s.p.casing, s.p.digest, s.controllerID, b.name, '-')
    && c.description == Some(Ownership("semper-supra.garm-container-owner/1", "garm-provider-truenas", s.controllerID,
                                       b.poolID, b.name, "truenas-container-linux-general"))
    && c.image.name == "ubuntu:noble:amd64:default" && TrimSpace(c.image.version) != ""
    && !c.autostart && c.idMap == "DEFAULT" && c.capabilities == "DEFAULT"
  }

  /** It starts with the init wrapper, and its environment holds the request's URLs, the pinned tool, and no token. */
  predicate StartsWrapped(s: Site, b: Bootstrap, c: Container) {
    && c.init == "/bin/sh /usr/local/bin/garm-container-init"
    && c.env == map[CallbackURL := b.callbackURL, MetadataURL := b.metadataURL, DownloadURL := s.p.contract.tool.url,
                    Filename := s.p.contract.tool.filename, SHA256 := s.p.contract.tool.sha256, AllowRunAsRoot := "1"]
  }

  /** The path `/a/b/c/d` under a root. */
  function Under(root: string, a: string, b: string, c: string, d: string): string {
    root + ("/" + (a + "/" + (b + "/" + (c + "/" + d))))
  }

  predicate HoldsFile(files: map<string, File>, path: string, content: string, mode: nat) {
    path in files && files[path] == File(content, mode)
  }

  /** The three files under a root: the wrapper where init looks for it, the runner program where the wrapper looks for it,
      both executable, and the token for its owner's eyes only. */
  predicate Stocked(s: Site, b: Bootstrap, files: map<string, File>, root: string) {
    && HoldsFile(files, Under(root, "usr", "local", "bin", "garm-container-init"), s.wrapper, 0x1ED)
    && HoldsFile(files, Under(root, "usr", "local", "bin", "garm-runner-bootstrap"), s.p.script, 0x1ED)
    && HoldsFile(files, Under(root, "var", "lib", "garm-container", "bootstrap-instance-token"), b.token, 0x180)
  }

  lemma RootIsUnder(root: string, a: string, b: string, c: string, d: string)
    ensures root + Root([a, b, c, d]) == Under(root, a, b, c, d)
  {
    assert Join([d], "/") == d;
    assert [c, d][1..] == [d] && [b, c, d][1..] == [c, d] && [a, b, c, d][1..] == [b, c, d];
    assert Join([c, d], "/") == c + "/" + d;
    assert Join([b, c, d], "/") == b + "/" + Join([c, d], "/");
    assert Join([a, b, c, d], "/") == a + "/" + Join([b, c, d], "/");
  }

  lemma FilesStock(s: Site, b: Bootstrap, files: map<string, File>, root: string)
    requires AllOnDisk(files, root, Files(s, b))
    ensures Stocked(s, b, files, root)
  {
    RootIsUnder(root, "usr", "local", "bin", "garm-container-init");
    RootIsUnder(root, "usr", "local", "bin", "garm-runner-bootstrap");
    RootIsUnder(root, "var", "lib", "garm-container", "bootstrap-instance-token");
    hide Under;
    hide Root;
    var plan := Files(s, b);
    assert plan[0] in plan && plan[1] in plan && plan[2] in plan;
    assert OnDisk(files, root, plan[0]) && OnDisk(files, root, plan[1]) && OnDisk(files, root, plan[2]);
  }

  lemma OutfittedOrdered(s: Site, b: Bootstrap, c: Container)
    requires Outfitted(s, b, c) && c.name == Named(s, b)
    ensures Ordered(s, b, c)
  {
    hide InitialEnv;
    hide Mountpoint;
    hide DigestedName;
  }

  lemma UnscrubbedStartsWrapped(s: Site, b: Bootstrap, c: Container)
    requires Unscrubbed(s, b, c)
    ensures StartsWrapped(s, b, c)
  {
  }

  /** Whenever a run of `Create` is about to start its container: the container is there, stopped, the one asked for, it will
      start with the wrapper and with the request's URLs, and under its own root lie wrapper, program and token, each in its
      place. */
  lemma StartsAsPlanned(s: Site, b: Bootstrap, before: World, oracle: nat -> Outcome, i: nat, j: nat)
    requires s.Valid() && i <= j
    requires var p := Creation(s, b, before, oracle, i, j).proc; p.Late? && p.late.StartIt?
    ensures var Moment(w, p) := Creation(s, b, before, oracle, i, j);
            && p.id !in before.containers && p.id in w.containers
            && HasState(s, w.containers[p.id], "STOPPED")
            && Ordered(s, b, w.containers[p.id]) && StartsWrapped(s, b, w.containers[p.id])
            && RootOf(w.containers[p.id]) == Some(p.mount) && Stocked(s, b, w.files, p.mount)
  {
    CreateRunHolds(s, b, before, oracle, i, j);
    RunOutfits(s, b, before, oracle, i, j);
    var m := Creation(s, b, before, oracle, i, j);
    hide Creation;
    hide Run;
    AtStart(s, b, before, m);
    hide CreateHolds;
    hide Outfits;
    FilesStock(s, b, m.world.files, m.proc.mount);
    OutfittedOrdered(s, b, m.world.containers[m.proc.id]);
    UnscrubbedStartsWrapped(s, b, m.world.containers[m.proc.id]);
    hide Stocked;
    hide Ordered;
    hide StartsWrapped;
    hide AllOnDisk;
    hide Outfitted;
    hide Unscrubbed;
    hide RootOf;
    hide Named;
  }

  lemma AtStart(s: Site, b: Bootstrap, before: World, m: Moment)
    requires CreateHolds(s, b, before, m.world, m.proc) && Outfits(s, b, before, m) && m.proc.Late? && m.proc.late.StartIt?
    ensures var Moment(w, p) := m;
            && p.id !in before.containers && p.id in w.containers && IsStopped(s, w.containers[p.id])
            && w.containers[p.id].name == Named(s, b) && Outfitted(s, b, w.containers[p.id]) && Unscrubbed(s, b, w.containers[p.id])
            && RootOf(w.containers[p.id]) == Some(p.mount) && AllOnDisk(w.files, p.mount, Files(s, b))
  {
    hide Outfitted;
    hide Unscrubbed;
    hide RootOf;
    hide AllOnDisk;
    hide Named;
    hide IsStopped;
    hide Alone;
    hide NameTaken;
  }

  // ----- checks -----

  /** Staging takes a file exactly if it lands under the mountpoint and, should it be a secret, is the token file, readable by
      its owner alone. */
  lemma StagingTakesExactly(mount: string, file: Staged, full: string)
    ensures StagingPath(mount, file) == Some(full)
       <==> && Place(mount, file.path) == At(full)
            && (file.secret ==> file.mode == 0x180
                                && file.path == Under("", "var", "lib", "garm-container", "bootstrap-instance-token"))
  {
    RootIsUnder("", "var", "lib", "garm-container", "bootstrap-instance-token");
    assert "" + TOKEN_PATH == TOKEN_PATH;
    hide Place;
    hide Under;
    hide Root;
  }

  /** A container right after its creation, as asked for and not yet scrubbed. */
  predicate FreshFor(s: Site, b: Bootstrap, c: Container) {
    && !c.autostart && c.idMap == "DEFAULT" && c.capabilities == "DEFAULT" && TrimSpace(c.dataset) != ""
    && c.image.name == "ubuntu:noble:amd64:default" && TrimSpace(c.image.version) != ""
    && (s.p.casing.upper(c.state) == "RUNNING" || s.p.casing.upper(c.state) == "STOPPED")
    && StartsWrapped(s, b, c)
  }

  lemma StartsWrappedExactly(s: Site, b: Bootstrap, c: Container)
    ensures StartsWrapped(s, b, c) <==> c.init == BOOTSTRAP_INIT && c.env == InitialEnv(s, b)
  {
    assert InitialEnv(s, b) ==
           map[CallbackURL := b.callbackURL, MetadataURL := b.metadataURL, DownloadURL := s.p.contract.tool.url,
               Filename := s.p.contract.tool.filename, SHA256 := s.p.contract.tool.sha256, AllowRunAsRoot := "1"];
    hide InitialEnv;
  }

  /** The check right after creation: a container of another owner or pool is foreign, one that is not as it was asked for has
      drifted, any other passes. */
  lemma FirstCheckExactly(s: Site, b: Bootstrap, c: Container)
    requires b.poolID != ""
    ensures VerifyBootstrap(s, c, b)
         == if !Bears(s, c) || c.description.value.poolID != b.poolID then Err(Foreign)
            else if FreshFor(s, b, c) then Ok(Unit.Unit) else Err(ManagedDrift)
  {
    IdentifiedBears(s, c);
    StartsWrappedExactly(s, b, c);
    hide StartsWrapped;
    hide InitialEnv;
    hide TrimSpace;
    assert Bears(s, c) ==> c.description.Some?;
    hide Bears;
    hide Identified;
  }

  // ----- calls -----

  /** The container asked for, before TrueNAS has chosen its state and dataset. */
  predicate Asked(s: Site, b: Bootstrap, image: Image, c: Container) {
    && c.name == DigestedName(s.p.casing, s.p.digest, s.controllerID, b.name, '-')
    && c.description == Some(Ownership("semper-supra.garm-container-owner/1", "garm-provider-truenas", s.controllerID,
                                       b.poolID, b.name, "truenas-container-linux-general"))
    && c.image == image && !c.autostart && c.idMap == "DEFAULT" && c.capabilities == "DEFAULT" && StartsWrapped(s, b, c)
  }

  lemma RequestedIsAsked(s: Site, b: Bootstrap, image: Image)
    ensures Asked(s, b, image, Requested(s, b, image))
  {
    StartsWrappedExactly(s, b, Requested(s, b, image));
    hide StartsWrapped;
    hide InitialEnv;
    hide DigestedName;
  }

  /** A running container is stopped by force in the cleanup of a failed `Create` and nowhere else. */
  lemma ForcedOnlyInCleanup(s: Site, p: Proc)
    requires !p.Finished?
    ensures Wants(s, p).Stop? ==> (Wants(s, p).force <==> p.Cleanup?)
  {
    hide Requested;
    hide Named;
    hide TokenFile;
  }
}
