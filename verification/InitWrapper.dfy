/** The init wrapper a new container starts with: it consumes the token file, hands the token to the runner bootstrap
    alone, and becomes the real init without it. */
module InitWrapper {
  import opened Text
  import opened Paths
  import opened Container
  import opened ContainerStaging

  const WRAPPER_MARKER_PATH := Root(["var", "lib", "garm-container", "init-wrapper-executed"])
  const CHILD_MARKER_PATH := Root(["var", "lib", "garm-container", "bootstrap-child-started"])

  /** The program prints a backslash and an `n` here, not a line feed. */
  const WRAPPER_MARKER := "init-wrapper-v1\\n"
  const CHILD_MARKER := "bootstrap-child-v1\\n"

  /** The variables the wrapper unsets before it becomes init. */
  const PROVIDER_VARIABLES: set<Variable> :=
    {CallbackURL, MetadataURL, InstanceToken, DownloadURL, Filename, SHA256, AllowRunAsRoot}

  /** A command substitution drops trailing line feeds. */
  function Substituted(text: string): string {
    TrimRight(text, Only('\n'))
  }

  /** Whether the wrapper gets past the commands before the fork, each of which ends it when it fails. */
  predicate Consumes(files: map<string, string>, ok: nat -> bool) {
    ok(0) && ok(1) && TOKEN_PATH in files && ok(2) && ok(3)
  }

  lemma MarkersApart()
    ensures WRAPPER_MARKER_PATH != TOKEN_PATH && CHILD_MARKER_PATH != TOKEN_PATH
  {
    hide PlanPath;
    hide WRAPPER_MARKER_PATH;
    hide CHILD_MARKER_PATH;
    hide TOKEN_PATH;
    TokenFilePath();
    WrapperMarkerPath();
    ChildMarkerPath();
    LastChar(TOKEN_PATH, "bootstrap-instance-token");
    LastChar(WRAPPER_MARKER_PATH, "init-wrapper-executed");
    LastChar(CHILD_MARKER_PATH, "bootstrap-child-started");
  }

  lemma MarkerTexts()
    ensures WRAPPER_MARKER == "init-wrapper-v1" + "\\n" && CHILD_MARKER == "bootstrap-child-v1" + "\\n"
  {
  }

  lemma WrapperMarkerPath()
    ensures PlanPath(WRAPPER_MARKER_PATH, "init-wrapper-executed")
  {
    hide PlanPath;
    FourPartPath("var", "lib", "garm-container", "init-wrapper-executed");
  }

  lemma ChildMarkerPath()
    ensures PlanPath(CHILD_MARKER_PATH, "bootstrap-child-started")
  {
    hide PlanPath;
    FourPartPath("var", "lib", "garm-container", "bootstrap-child-started");
  }

  /** The first process of a container. */
  class Process {
    var files: map<string, string>
    var env: map<Variable, string>
    var child: Option<map<Variable, string>>
    var isInit: bool

    constructor (files: map<string, string>, env: map<Variable, string>)
      ensures this.files == files && this.env == env && child.None? && !isInit
    {
      this.files, this.env, child, isInit := files, env, None, false;
    }

    /** Up to the fork: mark the run, read the token, delete its file, export it. */
    method Consume(ok: nat -> bool) returns (done: bool)
      modifies this`files, this`env
      ensures done <==> Consumes(old(files), ok)
      ensures done ==> files == old(files)[WRAPPER_MARKER_PATH := WRAPPER_MARKER] - {TOKEN_PATH}
      ensures done ==> env == old(env)[InstanceToken := Substituted(old(files)[TOKEN_PATH])]
      ensures !done ==> env == old(env) && (TOKEN_PATH in files <==> TOKEN_PATH in old(files))
    {
      hide TOKEN_PATH;
      hide WRAPPER_MARKER_PATH;
      hide CHILD_MARKER_PATH;
      hide Substituted;
      MarkersApart();
      if !ok(0) { return false; }
      if !ok(1) { return false; }
      files := files[WRAPPER_MARKER_PATH := WRAPPER_MARKER];
      if TOKEN_PATH !in files || !ok(2) { return false; }
      var token := Substituted(files[TOKEN_PATH]);
      if !ok(3) { return false; }
      files := files - {TOKEN_PATH};
      env := env[InstanceToken := token];
      return true;
    }

    /** The background child: it becomes the bootstrap once it has left its own mark. */
    method Fork(ok: nat -> bool)
      requires TOKEN_PATH !in files
      modifies this`files, this`child
      ensures child == if ok(4) then Some(env) else old(child)
      ensures files == if ok(4) then old(files)[CHILD_MARKER_PATH := CHILD_MARKER] else old(files)
      ensures TOKEN_PATH !in files
    {
      hide TOKEN_PATH;
      hide WRAPPER_MARKER_PATH;
      hide CHILD_MARKER_PATH;
      MarkersApart();
      if ok(4) {
        files := files[CHILD_MARKER_PATH := CHILD_MARKER];
        child := Some(env);
      }
    }

    method Unset()
      modifies this`env
      ensures env == old(env) - PROVIDER_VARIABLES
    {
      env := env - {CallbackURL};
      env := env - {MetadataURL};
      env := env - {InstanceToken};
      env := env - {DownloadURL};
      env := env - {Filename};
      env := env - {SHA256};
      env := env - {AllowRunAsRoot};
    }

    /** The wrapper, command by command; `ok(k)` says whether the k-th of those that can fail succeeds. Whoever
        gets the token, the file is gone first; whoever becomes init has what the wrapper was given but for the provider's
        variables, and both have left their marks. */
    method Wrap(ok: nat -> bool)
      requires child.None? && !isInit
      modifies this
      ensures child.Some? <==> Consumes(old(files), ok) && ok(4)
      ensures child.Some? ==> child.value == old(env)[InstanceToken := Substituted(old(files)[TOKEN_PATH])]
      ensures isInit <==> Consumes(old(files), ok) && ok(5)
      ensures isInit ==> env == old(env) - {CallbackURL, MetadataURL, InstanceToken, DownloadURL, Filename, SHA256, AllowRunAsRoot}
      ensures isInit ==> var marked := old(files)[WRAPPER_MARKER_PATH := "init-wrapper-v1" + "\\n"] - {TOKEN_PATH};
                         files == if child.Some? then marked[CHILD_MARKER_PATH := "bootstrap-child-v1" + "\\n"] else marked
      ensures TOKEN_PATH in files <==> TOKEN_PATH in old(files) && !Consumes(old(files), ok)
    {
      hide TOKEN_PATH;
      hide WRAPPER_MARKER_PATH;
      hide CHILD_MARKER_PATH;
      hide Substituted;
      MarkersApart();
      MarkerTexts();
      hide WRAPPER_MARKER;
      hide CHILD_MARKER;
      var done := Consume(ok);
      if !done { return; }
      Fork(ok);
      Unset();
      if !ok(5) { return; }
      isInit := true;
    }
  }

  /** The bootstrap sees exactly the token that was staged if and only if that token does not end in a line feed. */
  lemma TokenSurvivesExactly(token: string)
    ensures Substituted(token) == token <==> token == "" || token[|token| - 1] != '\n'
  {
    TrimRightStops(token, Only('\n'));
  }
}
