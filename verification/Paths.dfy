/** Go's lexical path rules, and where the container backend lets bootstrap files be written. */
module Paths {
  import opened Text

  /** `path.Clean` on components: `done` holds what has been kept so far. */
  function Resolve(parts: seq<string>, rooted: bool, done: seq<string>): seq<string>
    decreases |parts|
  {
    if parts == [] then done
    else
      var p := parts[0];
      var next :=
        if p == "" || p == "." then done
        else if p != ".." then done + [p]
        else if done != [] && done[|done| - 1] != ".." then done[..|done| - 1]
        else if rooted then done
        else done + [".."];
      Resolve(parts[1..], rooted, next)
  }

  predicate Rooted(p: string) {
    p != "" && p[0] == '/'
  }

  function CleanParts(p: string): seq<string> {
    Resolve(Split(p, '/'), Rooted(p), [])
  }

  function Clean(p: string): string {
    var kept := CleanParts(p);
    if Rooted(p) then "/" + Join(kept, "/")
    else if kept == [] then "."
    else Join(kept, "/")
  }

  /** `path.Join` of two elements. */
  function JoinPath(a: string, b: string): string {
    if a == "" && b == "" then "" else Clean(if b == "" then a else if a == "" then b else a + "/" + b)
  }

  /** A name that stands for itself inside a path. */
  predicate Component(c: string) {
    c != "" && c != "." && c != ".." && Free(c, '/')
  }

  predicate Components(parts: seq<string>) {
    forall c | c in parts :: Component(c)
  }

  /** Components, after as many leading `..` as an unrooted path may keep. */
  predicate Settled(parts: seq<string>, rooted: bool) {
    && (forall c | c in parts :: Component(c) || (!rooted && c == ".."))
    && forall i | 0 < i < |parts| :: parts[i] == ".." ==> parts[i - 1] == ".."
  }

  lemma {:induction false} ResolveSettles(parts: seq<string>, rooted: bool, done: seq<string>)
    requires Settled(done, rooted) && forall p | p in parts :: Free(p, '/')
    ensures Settled(Resolve(parts, rooted, done), rooted)
    decreases |parts|
  {
    if parts != [] {
      var p := parts[0];
      assert Free(p, '/');
      assert done != [] ==> done[|done| - 1] in done;
      assert forall q | q in parts[1..] :: q in parts;
      if p == "" || p == "." {
        ResolveSettles(parts[1..], rooted, done);
      } else if p != ".." {
        ResolveSettles(parts[1..], rooted, done + [p]);
      } else if done != [] && done[|done| - 1] != ".." {
        assert forall c | c in done[..|done| - 1] :: c in done;
        ResolveSettles(parts[1..], rooted, done[..|done| - 1]);
      } else if rooted {
        ResolveSettles(parts[1..], rooted, done);
      } else {
        ResolveSettles(parts[1..], rooted, done + [".."]);
      }
    }
  }

  lemma {:induction false} ResolveKeeps(parts: seq<string>, rooted: bool, done: seq<string>)
    requires Components(parts)
    ensures Resolve(parts, rooted, done) == done + parts
    decreases |parts|
  {
    if parts != [] {
      assert Component(parts[0]);
      assert forall q | q in parts[1..] :: q in parts;
      ResolveKeeps(parts[1..], rooted, done + [parts[0]]);
      assert done + [parts[0]] + parts[1..] == done + parts;
    }
  }

  /** A settled list that does not start with `..` holds only components. */
  lemma {:induction false} SettledStart(parts: seq<string>, rooted: bool)
    requires Settled(parts, rooted) && (parts != [] ==> parts[0] != "..")
    ensures Components(parts)
  {
    forall c | c in parts ensures Component(c) {
      var i :| 0 <= i < |parts| && parts[i] == c;
      NoLaterDots(parts, rooted, i);
    }
  }

  lemma {:induction false} NoLaterDots(parts: seq<string>, rooted: bool, i: nat)
    requires Settled(parts, rooted) && i < |parts| && parts[0] != ".."
    ensures parts[i] != ".."
  {
    if i > 0 { NoLaterDots(parts, rooted, i - 1); }
  }

  lemma {:induction false} JoinAppend(a: seq<string>, b: seq<string>)
    requires a != [] && b != []
    ensures Join(a + b, "/") == Join(a, "/") + "/" + Join(b, "/")
  {
    if |a| == 1 {
      assert (a + b)[1..] == b;
    } else {
      JoinAppend(a[1..], b);
      assert (a + b)[1..] == a[1..] + b;
      assert Join(a, "/") == a[0] + "/" + Join(a[1..], "/");
    }
  }

  /** A rooted path made of components, in text. */
  function Root(parts: seq<string>): string {
    "/" + Join(parts, "/")
  }

  /** `path.Clean` leaves a rooted path of components as it is, whatever was appended to make it. */
  lemma CleanRooted(parts: seq<string>)
    requires parts != [] && Components(parts)
    ensures Clean(Root(parts)) == Root(parts)
  {
    assert forall p | p in parts :: Free(p, '/');
    SplitJoin(parts, '/');
    SplitAfter("", Join(parts, "/"), '/');
    assert "" + ['/'] + Join(parts, "/") == Root(parts);
    assert Split(Root(parts), '/') == [""] + parts;
    assert ([""] + parts)[1..] == parts;
    ResolveKeeps(parts, true, []);
    assert Resolve([""] + parts, true, []) == Resolve(parts, true, []) == parts;
  }

  lemma RootInjective(a: seq<string>, b: seq<string>)
    requires a != [] && b != [] && Root(a) == Root(b)
    requires forall p | p in a + b :: Free(p, '/')
    ensures a == b
  {
    assert forall p | p in a :: p in a + b;
    assert forall p | p in b :: p in a + b;
    assert Root(a)[1..] == Join(a, "/") && Root(b)[1..] == Join(b, "/");
    SplitJoin(a, '/');
    SplitJoin(b, '/');
  }

  // ----- the root of a container's file system -----

  const CONTAINERS_ROOT := ".truenas_containers"

  function DatasetParts(dataset: string): seq<string> {
    Split(Trim(TrimSpace(dataset), Only('/')), '/')
  }

  /** `containerRootfsMountpoint`; None is managed drift. */
  function Mountpoint(dataset: string, name: string): Option<string> {
    var parts := DatasetParts(dataset);
    var n := TrimSpace(name);
    if |parts| != 4 || parts[0] == "" || parts[1] != CONTAINERS_ROOT || parts[2] != "containers" || parts[3] != n || n == ""
    then None
    else Some(Clean("/" + CONTAINERS_ROOT + "/" + parts[0] + "/containers/" + n))
  }

  predicate Dots(c: string) {
    c == "." || c == ".."
  }

  function MountParts(pool: string, name: string): seq<string> {
    [CONTAINERS_ROOT, pool, "containers", name]
  }

  lemma MountText(pool: string, name: string)
    ensures "/" + CONTAINERS_ROOT + "/" + pool + "/containers/" + name == Root(MountParts(pool, name))
    ensures forall c :: c in MountParts(pool, name) <==> c in [CONTAINERS_ROOT, "containers", pool, name]
  {
    hide CONTAINERS_ROOT;
    hide Join;
    JoinOne(pool);
    JoinOne(CONTAINERS_ROOT);
    JoinTwo("containers", name);
    JoinAppend([pool], ["containers", name]);
    JoinAppend([CONTAINERS_ROOT], [pool, "containers", name]);
    assert [pool] + ["containers", name] == [pool, "containers", name];
    assert [CONTAINERS_ROOT] + [pool, "containers", name] == MountParts(pool, name);
    assert pool + "/containers/" + name == pool + "/" + ("containers" + "/" + name);
  }

  lemma JoinOne(a: string)
    ensures Join([a], "/") == a
  {
  }

  lemma JoinTwo(a: string, b: string)
    ensures Join([a, b], "/") == a + "/" + b
  {
    assert [a, b][1..] == [b];
  }

  /** The mountpoint is the literal concatenation of pool and name exactly when neither is `.` or `..`. */
  lemma MountpointLiteralExactly(dataset: string, name: string)
    requires Mountpoint(dataset, name).Some?
    ensures var (pool, n) := (DatasetParts(dataset)[0], TrimSpace(name));
            Mountpoint(dataset, name).value == Root(MountParts(pool, n)) <==> !Dots(pool) && !Dots(n)
  {
    var (pool, n) := (DatasetParts(dataset)[0], TrimSpace(name));
    var parts := MountParts(pool, n);
    SplitParts(Trim(TrimSpace(dataset), Only('/')), '/');
    MountText(pool, n);
    assert parts[1] == pool && parts[3] == n;
    var path := Root(parts);
    if !Dots(pool) && !Dots(n) {
      CleanRooted(parts);
    } else if Clean(path) == path {
      SplitParts(path, '/');
      ResolveSettles(Split(path, '/'), true, []);
      var kept := CleanParts(path);
      assert forall i | 0 <= i < |kept| :: Component(kept[i]);
      assert forall p | p in parts :: Free(p, '/');
      if kept != [] {
        assert forall p | p in kept + parts :: p in kept || p in parts;
        RootInjective(kept, parts);
      }
    }
  }

  /** Two accepted datasets share a mountpoint only when pool and name are the same. */
  lemma MountpointInjective(d1: string, n1: string, d2: string, n2: string)
    requires Mountpoint(d1, n1).Some? && Mountpoint(d1, n1) == Mountpoint(d2, n2)
    requires !Dots(DatasetParts(d1)[0]) && !Dots(TrimSpace(n1)) && !Dots(DatasetParts(d2)[0]) && !Dots(TrimSpace(n2))
    ensures DatasetParts(d1)[0] == DatasetParts(d2)[0] && TrimSpace(n1) == TrimSpace(n2)
  {
    MountpointLiteralExactly(d1, n1);
    MountpointLiteralExactly(d2, n2);
    SplitParts(Trim(TrimSpace(d1), Only('/')), '/');
    SplitParts(Trim(TrimSpace(d2), Only('/')), '/');
    RootInjective(MountParts(DatasetParts(d1)[0], TrimSpace(n1)), MountParts(DatasetParts(d2)[0], TrimSpace(n2)));
  }

  /** With a dotted pool the files would go elsewhere, above the containers root for `..`. */
  lemma DottedPoolMoves(dataset: string, name: string)
    requires Mountpoint(dataset, name).Some?
    requires Dots(DatasetParts(dataset)[0]) && !Dots(TrimSpace(name))
    ensures var n := TrimSpace(name);
            Mountpoint(dataset, name).value
            == if DatasetParts(dataset)[0] == ".." then Root(["containers", n]) else Root([CONTAINERS_ROOT, "containers", n])
  {
    var (pool, n) := (DatasetParts(dataset)[0], TrimSpace(name));
    var parts := MountParts(pool, n);
    SplitParts(Trim(TrimSpace(dataset), Only('/')), '/');
    MountText(pool, n);
    assert forall p | p in parts :: Free(p, '/');
    SplitJoin(parts, '/');
    SplitAfter("", Join(parts, "/"), '/');
    assert "" + ['/'] + Join(parts, "/") == Root(parts);
    ResolveDotted(pool, n);
  }

  function DatasetOf(pool: string, name: string): string {
    pool + "/" + CONTAINERS_ROOT + "/containers/" + name
  }

  /** The dataset of a named container in a pool is accepted. */
  lemma DatasetAccepted(pool: string, n: string)
    requires pool != "" && Free(pool, '/') && Trimmed(pool) && Component(n) && Trimmed(n)
    ensures DatasetParts(DatasetOf(pool, n)) == [pool, CONTAINERS_ROOT, "containers", n]
    ensures Mountpoint(DatasetOf(pool, n), n).Some?
  {
    var parts := [pool, CONTAINERS_ROOT, "containers", n];
    var dataset := DatasetOf(pool, n);
    DatasetText(pool, n);
    assert forall p | p in parts :: Free(p, '/');
    SplitJoin(parts, '/');
    assert n[|n| - 1] in n && pool[0] in pool;
    TrimEnds(n, White);
    TrimEnds(pool, White);
    assert dataset[0] == pool[0] && dataset[|dataset| - 1] == n[|n| - 1];
    hide Join;
    TrimEnds(dataset, White);
    TrimEnds(dataset, Only('/'));
    assert DatasetParts(dataset) == parts;
  }

  /** Such datasets are accepted: with the pool `..`, a container of any name gets a root outside the containers root. */
  lemma DottedPoolAccepted(n: string)
    requires Component(n) && Trimmed(n)
    ensures Mountpoint(DatasetOf("..", n), n) == Some("/containers/" + n)
  {
    assert Trimmed("..") by { TrimEnds("..", White); }
    DatasetAccepted("..", n);
    DottedPoolMoves(DatasetOf("..", n), n);
    hide Mountpoint;
    hide DatasetParts;
    UnderContainers(n);
  }

  lemma UnderContainers(n: string)
    ensures Root(["containers", n]) == "/containers/" + n
  {
    JoinTwo("containers", n);
    hide Join;
    assert "/" + ("containers" + "/" + n) == "/containers/" + n;
  }

  lemma DatasetText(pool: string, n: string)
    ensures DatasetOf(pool, n) == Join([pool, CONTAINERS_ROOT, "containers", n], "/")
  {
    hide CONTAINERS_ROOT;
    hide Join;
    JoinOne(pool);
    JoinOne(CONTAINERS_ROOT);
    JoinTwo("containers", n);
    JoinAppend([CONTAINERS_ROOT], ["containers", n]);
    JoinAppend([pool], [CONTAINERS_ROOT, "containers", n]);
    assert [CONTAINERS_ROOT] + ["containers", n] == [CONTAINERS_ROOT, "containers", n];
    assert [pool] + [CONTAINERS_ROOT, "containers", n] == [pool, CONTAINERS_ROOT, "containers", n];
    var text := CONTAINERS_ROOT + "/containers/" + n;
    assert text == CONTAINERS_ROOT + "/" + ("containers" + "/" + n);
    assert DatasetOf(pool, n) == pool + "/" + text;
  }

  lemma ResolveDotted(pool: string, n: string)
    requires Dots(pool) && Component(n)
    ensures Resolve([""] + MountParts(pool, n), true, [])
         == if pool == ".." then ["containers", n] else [CONTAINERS_ROOT, "containers", n]
  {
    hide Resolve;
    var tail := ["containers", n];
    assert MountParts(pool, n) == [CONTAINERS_ROOT] + ([pool] + tail);
    assert CONTAINERS_ROOT !in ["", ".", ".."];
    hide CONTAINERS_ROOT;
    ResolveHead("", MountParts(pool, n), []);
    ResolveHead(CONTAINERS_ROOT, [pool] + tail, []);
    assert [] + [CONTAINERS_ROOT] == [CONTAINERS_ROOT] && [CONTAINERS_ROOT][..0] == [];
    ResolveHead(pool, tail, [CONTAINERS_ROOT]);
    if pool == "." {
      ResolveKeeps(tail, true, [CONTAINERS_ROOT]);
      assert [CONTAINERS_ROOT] + tail == [CONTAINERS_ROOT, "containers", n];
    } else {
      ResolveKeeps(tail, true, []);
      assert [] + tail == tail;
    }
  }

  lemma ResolveHead(part: string, rest: seq<string>, done: seq<string>)
    requires forall d | d in done :: d != ".."
    ensures Resolve([part] + rest, true, done)
         == if part == "" || part == "." then Resolve(rest, true, done)
            else if part != ".." then Resolve(rest, true, done + [part])
            else Resolve(rest, true, if done == [] then [] else done[..|done| - 1])
  {
    assert ([part] + rest)[1..] == rest;
    if done != [] { assert done[|done| - 1] in done; }
  }

  // ----- where one bootstrap file goes -----

  datatype Placement = At(path: string) | UnsafePath | Escaped

  predicate UnsafeRelative(relative: string) {
    relative == "." || relative == "" || relative == ".." || "../" <= relative
  }

  function RelativePath(path: string): string {
    TrimPrefix(Clean(path), "/")
  }

  /** The path checks of `stageBootstrapFiles`, for one file under one mountpoint. */
  function Place(mount: string, path: string): Placement {
    var relative := RelativePath(path);
    if UnsafeRelative(relative) then UnsafePath
    else
      var full := JoinPath(mount, relative);
      if mount + "/" <= full then At(full) else Escaped
  }

  /** Every accepted path is the mountpoint followed by components, and the last check never fires. */
  lemma StagingStaysInside(mount: seq<string>, path: string)
    requires mount != [] && Components(mount)
    ensures var kept := CleanParts(path);
            match Place(Root(mount), path)
            case Escaped => false
            case UnsafePath => kept == [] || kept[0] == ".."
            case At(full) => kept != [] && Components(kept) && full == Root(mount) + "/" + Join(kept, "/")
  {
    var kept := CleanParts(path);
    SplitParts(path, '/');
    ResolveSettles(Split(path, '/'), Rooted(path), []);
    RelativeIsKept(path);
    var relative := RelativePath(path);
    if kept != [] && kept[0] != ".." {
      SettledStart(kept, Rooted(path));
      ComponentsSafe(kept);
      UnderMount(mount, kept);
    } else if kept != [] {
      DotsUnsafe(kept);
    }
  }

  lemma UnderMount(mount: seq<string>, kept: seq<string>)
    requires mount != [] && kept != [] && Components(mount) && Components(kept)
    ensures JoinPath(Root(mount), Join(kept, "/")) == Root(mount) + "/" + Join(kept, "/")
    ensures Root(mount) + "/" <= JoinPath(Root(mount), Join(kept, "/"))
  {
    hide Join;
    hide Clean;
    hide Component;
    JoinNotEmpty(kept);
    JoinAppend(mount, kept);
    var (front, text) := (Root(mount), Join(kept, "/"));
    assert front + "/" + text == Root(mount + kept);
    CleanRooted(mount + kept);
    assert front + "/" + text == (front + "/") + text;
  }

  lemma JoinNotEmpty(kept: seq<string>)
    requires kept != [] && Components(kept)
    ensures Join(kept, "/") != ""
  {
    assert Component(kept[0]) && kept[0] <= Join(kept, "/");
  }

  lemma RelativeIsKept(path: string)
    requires Settled(CleanParts(path), Rooted(path))
    ensures var kept := CleanParts(path);
            RelativePath(path) == if kept == [] && !Rooted(path) then "." else Join(kept, "/")
  {
    var kept := CleanParts(path);
    if !Rooted(path) && kept != [] {
      assert kept[0] in kept;
      var text := Join(kept, "/");
      assert text[0] == kept[0][0];
      assert kept[0][0] in kept[0];
    }
  }

  lemma ComponentsSafe(kept: seq<string>)
    requires kept != [] && Components(kept)
    ensures !UnsafeRelative(Join(kept, "/"))
  {
    var text := Join(kept, "/");
    assert Component(kept[0]);
    assert kept[0] <= text;
    assert forall p | p in kept :: Free(p, '/');
    SplitJoin(kept, '/');
    SplitFree(".", '/');
    SplitFree("..", '/');
    if "../" <= text {
      assert text == ".." + "/" + text[3..];
      SplitAfter("..", text[3..], '/');
    }
  }

  lemma DotsUnsafe(kept: seq<string>)
    requires kept != [] && kept[0] == ".."
    ensures UnsafeRelative(Join(kept, "/"))
  {
  }
}
