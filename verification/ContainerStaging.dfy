/** Where `Create` writes its three files, and that its path checks never stop it. */
module ContainerStaging {
  import opened Text
  import opened Names
  import opened Provider
  import opened Paths
  import opened Container

  ghost predicate RootedMount(mount: string) {
    exists parts :: Components(parts) && parts != [] && mount == Root(parts)
  }

  /** A path of the plan, taken apart: absolute, clean, and ending as its last part ends. */
  ghost predicate PlanPath(path: string, last: string) {
    exists parts :: Components(parts) && |parts| == 4 && parts[3] == last && path == Root(parts)
  }

  lemma FourPartPath(a: string, b: string, c: string, d: string)
    requires Component(a) && Component(b) && Component(c) && Component(d)
    ensures PlanPath(Root([a, b, c, d]), d)
  {
    hide Component;
    hide Root;
    var parts := [a, b, c, d];
    assert Components(parts) && |parts| == 4 && parts[3] == d && Root([a, b, c, d]) == Root(parts);
  }

  lemma RunnerScriptPath()
    ensures PlanPath(RUNNER_SCRIPT_PATH, "garm-runner-bootstrap")
  {
    hide PlanPath;
    FourPartPath("usr", "local", "bin", "garm-runner-bootstrap");
  }

  lemma InitScriptPath()
    ensures PlanPath(INIT_SCRIPT_PATH, "garm-container-init")
  {
    hide PlanPath;
    FourPartPath("usr", "local", "bin", "garm-container-init");
  }

  lemma TokenFilePath()
    ensures PlanPath(TOKEN_PATH, "bootstrap-instance-token")
  {
    hide PlanPath;
    FourPartPath("var", "lib", "garm-container", "bootstrap-instance-token");
  }

  lemma {:induction false} JoinLast(parts: seq<string>)
    requires parts != [] && parts[|parts| - 1] != ""
    ensures var (text, last) := (Join(parts, "/"), parts[|parts| - 1]);
            text != "" && text[|text| - 1] == last[|last| - 1]
  {
    if |parts| > 1 { JoinLast(parts[1..]); }
  }

  /** One plan file under a rooted mountpoint goes to the mountpoint followed by its own path. */
  lemma PlacedLiterally(mount: string, path: string, last: string)
    requires RootedMount(mount) && PlanPath(path, last)
    ensures Place(mount, path) == At(mount + path)
    ensures JoinPath(mount, TrimPrefix(path, "/")) == mount + path
  {
    var at :| Components(at) && at != [] && mount == Root(at);
    var parts :| Components(parts) && |parts| == 4 && parts[3] == last && path == Root(parts);
    PlacedRoots(at, parts);
  }

  lemma PlacedRoots(at: seq<string>, parts: seq<string>)
    requires at != [] && parts != [] && Components(at) && Components(parts)
    ensures Place(Root(at), Root(parts)) == At(Root(at) + Root(parts))
    ensures JoinPath(Root(at), TrimPrefix(Root(parts), "/")) == Root(at) + Root(parts)
  {
    CleanRooted(parts);
    assert TrimPrefix(Root(parts), "/") == Join(parts, "/");
    ComponentsSafe(parts);
    UnderMount(at, parts);
    assert Root(at) + "/" + Join(parts, "/") == Root(at) + Root(parts);
    hide Root;
    hide JoinPath;
    hide Clean;
    hide UnsafeRelative;
  }

  /** Every file of the plan is staged at the mountpoint followed by its own path; no check refuses one. */
  lemma PlanStaged(s: Site, b: Bootstrap, mount: string, file: Staged)
    requires RootedMount(mount) && file in Files(s, b)
    ensures StagingPath(mount, file) == Some(mount + file.path)
  {
    hide RootedMount;
    hide PlanPath;
    hide Place;
    hide RUNNER_SCRIPT_PATH;
    hide INIT_SCRIPT_PATH;
    hide TOKEN_PATH;
    RunnerScriptPath();
    InitScriptPath();
    TokenFilePath();
    PlacedLiterally(mount, file.path, if file == Files(s, b)[0] then "garm-runner-bootstrap"
                                      else if file == Files(s, b)[1] then "garm-container-init"
                                      else "bootstrap-instance-token");
  }

  lemma TokenFilePlaced(mount: string)
    requires RootedMount(mount)
    ensures TokenFile(mount) == mount + TOKEN_PATH
  {
    hide RootedMount;
    hide PlanPath;
    hide TOKEN_PATH;
    TokenFilePath();
    PlacedLiterally(mount, TOKEN_PATH, "bootstrap-instance-token");
  }

  lemma LastChar(path: string, last: string)
    requires PlanPath(path, last) && last != ""
    ensures path != "" && path[|path| - 1] == last[|last| - 1]
  {
    var parts :| Components(parts) && |parts| == 4 && parts[3] == last && path == Root(parts);
    JoinLast(parts);
  }

  /** The three plan paths end differently, so under no two roots does one become another. */
  lemma EndsApart(s: Site, b: Bootstrap, f: Staged, g: Staged, m: string, n: string)
    requires f in Files(s, b) && g in Files(s, b) && m + f.path == n + g.path
    ensures f == g && m == n
  {
    hide PlanPath;
    hide RUNNER_SCRIPT_PATH;
    hide INIT_SCRIPT_PATH;
    hide TOKEN_PATH;
    RunnerScriptPath();
    InitScriptPath();
    TokenFilePath();
    LastChar(RUNNER_SCRIPT_PATH, "garm-runner-bootstrap");
    LastChar(INIT_SCRIPT_PATH, "garm-container-init");
    LastChar(TOKEN_PATH, "bootstrap-instance-token");
    SameEnd(m, f.path, n, g.path);
  }

  lemma SameEnd(m: string, p: string, n: string, q: string)
    requires p != "" && q != "" && m + p == n + q
    ensures p[|p| - 1] == q[|q| - 1]
    ensures p == q ==> m == n
  {
    assert (m + p)[|m + p| - 1] == p[|p| - 1] && (n + q)[|n + q| - 1] == q[|q| - 1];
    if p == q { SuffixSplits(m, p, n, q); }
  }

  /** The root of a container this provider named is a proper one, even in a dotted pool. */
  lemma MountIsRooted(dataset: string, name: string)
    requires Mountpoint(dataset, name).Some? && "garm" <= name
    ensures RootedMount(Mountpoint(dataset, name).value)
  {
    var (pool, n) := (DatasetParts(dataset)[0], TrimSpace(name));
    StartStays(name);
    SplitParts(Trim(TrimSpace(dataset), Only('/')), '/');
    assert Component(CONTAINERS_ROOT) && Component("containers");
    assert Component(n);
    hide Root;
    hide Component;
    hide Mountpoint;
    hide DatasetParts;
    if Dots(pool) {
      DottedPoolMoves(dataset, name);
      assert Components(["containers", n]) && Components([CONTAINERS_ROOT, "containers", n]);
    } else {
      MountpointLiteralExactly(dataset, name);
      assert Components(MountParts(pool, n));
    }
  }

  lemma StartStays(name: string)
    requires "garm" <= name
    ensures TrimSpace(name) != "" && TrimSpace(name)[0] == 'g'
  {
    assert name[0] == "garm"[0];
    assert TrimLeft(name, White) == name;
    TrimRightStops(name, White);
    TrimRightKeeps(name, White, 0);
  }
}
