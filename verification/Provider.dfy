/** The vocabulary the three backends share: requests, app records, instances and error classes. */
module Provider {
  import opened Text
  import opened Names

  /** The error classes callers can tell apart; `Other` is every error that wraps none of the sentinels. */
  datatype Error = NotFound | Active | Foreign | Unsupported | UnsafeOperation | ManagedDrift | Unmanaged | Other

  datatype Result<+T> = Ok(value: T) | Err(error: Error)

  datatype Unit = Unit

  /** What a loop ends with that has kept some items so far and goes on to `rest`. */
  ghost function Prefixed<T>(kept: seq<T>, rest: Result<seq<T>>): Result<seq<T>> {
    match rest case Err(e) => Err(e) case Ok(items) => Ok(kept + items)
  }

  lemma PrefixedNone<T>(rest: Result<seq<T>>)
    ensures Prefixed([], rest) == rest
  {
    if rest.Ok? { assert [] + rest.value == rest.value; }
  }

  lemma PrefixedOnce<T>(kept: seq<T>, item: T, rest: Result<seq<T>>)
    ensures Prefixed(kept, Prefixed([item], rest)) == Prefixed(kept + [item], rest)
  {
    if rest.Ok? { assert kept + ([item] + rest.value) == kept + [item] + rest.value; }
  }

  const GENERAL_CPU := 4
  const GENERAL_MEMORY_BYTES := 8 * 1024 * 1024 * 1024

  /** The pinned values of the one Apps profile. What is proved holds for every such record; the one the
      provider uses is `GENERAL`. */
  datatype Pinned = Pinned(
    flavor: string, image: string, cpu: int, memoryBytes: int, user: string, restart: string, capDrop: seq<string>,
    securityOpt: seq<string>, tmpfs: seq<string>, shell: seq<string>, tool: Tool)

  datatype Tool = Tool(url: string, filename: string, sha256: string)

  predicate Lawful(c: Pinned) {
    && Exact(c.cpu) && Exact(c.memoryBytes) && Trimmed(c.flavor) && c.flavor != ""
    && c.tool.url != "" && c.tool.filename != "" && c.tool.sha256 != ""
  }

  predicate Int64(n: int) {
    -0x8000_0000_0000_0000 <= n < 0x8000_0000_0000_0000
  }

  /** A float64 holds every integer of this range, so a trip through JSON leaves it alone. */
  predicate Exact(n: int) {
    -0x20_0000_0000_0000 <= n <= 0x20_0000_0000_0000
  }

  const RUNNER_VERSION := "2.337.0"
  const RUNNER_FILENAME := "actions-runner-linux-x64-" + RUNNER_VERSION + ".tar.gz"
  const RUNNER_URL :=
    "https://github.com/actions/" + "runner/releases/download/v" + RUNNER_VERSION + "/" + RUNNER_FILENAME
  const RUNNER_SHA256 :=
    "70920811a4f8ad43" + "28818682bca5c646" + "9c1c942fab524488" + "68071d0063816613"

  const RUNNER_TOOL := Tool(RUNNER_URL, RUNNER_FILENAME, RUNNER_SHA256)

  const GENERAL := Pinned(
    "truenas-linux-general",
    "ghcr.io/actions/actions-runner:2.337.0@sha256:" + "e5496277be5d09bc968b3d64911b74e2" + "19ac4a3f2edce956a3ecf9271bea1ef4",
    GENERAL_CPU, GENERAL_MEMORY_BYTES, "1001:1001", "no", ["ALL"], ["no-new-privileges:true"],
    ["/run/garm-jit:rw,nosuid,nodev,noexec,uid=1001,gid=1001,mode=0700"], ["/bin/sh", "-c"], RUNNER_TOOL)

  lemma GeneralIsLawful()
    ensures Lawful(GENERAL)
  {
    TrimEnds(GENERAL.flavor, White);
  }

  datatype State = Deploying | Running | Stopping | Stopped | Crashed
  {
    predicate Busy() {
      Deploying? || Running? || Stopping?
    }
  }

  datatype Bootstrap = Bootstrap(
    name: string, osType: string, arch: string, flavor: string, poolID: string,
    callbackURL: string, metadataURL: string, token: string)

  datatype AppSpec = AppSpec(
    name: string, image: string, controllerID: string, poolID: string, cpu: int, memoryBytes: int,
    runAsUser: string, capDrop: seq<string>, noNewPrivileges: bool, workdirTmpfs: bool, credentialTmpfs: bool,
    hostMounts: seq<string>, dockerSocket: bool, callbackURL: string, metadataURL: string, bootstrapToken: string,
    runnerDownloadURL: string, runnerFilename: string, runnerSHA256: string, executionProfile: string)

  datatype App = App(spec: AppSpec, state: State)

  datatype Instance = Instance(
    providerID: string, name: string, osName: string, osVersion: string, status: string, poolID: string)

  /** What the code cannot know about its surroundings: case mapping, digests, which URLs name a DNS host
      over https, and the text of the runner bootstrap program. */
  datatype Platform = Platform(
    casing: CaseMaps, digest: string -> string, hostOf: string -> Option<string>, script: string, contract: Pinned)
  {
    ghost predicate Valid() {
      casing.Lawful() && IsDigest(digest) && Lawful(contract)
    }
  }

  /** A request every backend could serve, if the flavour is its own: a Linux runner on a 64-bit PC, with nothing left
      blank. */
  predicate Supported(b: Bootstrap, flavor: string) {
    && b.osType == "linux" && b.arch in {"amd64", "x64", "x86_64"} && b.flavor == flavor
    && forall text | text in {b.name, b.poolID, b.callbackURL, b.metadataURL, b.token} :: TrimSpace(text) != ""
  }

  lemma CommonIsSupported(b: Bootstrap, flavor: string)
    ensures CommonBootstrap(b, flavor) <==> Supported(b, flavor)
  {
    var texts := {b.name, b.poolID, b.callbackURL, b.metadataURL, b.token};
    assert b.name in texts && b.poolID in texts && b.callbackURL in texts && b.metadataURL in texts && b.token in texts;
    hide TrimSpace;
  }

  /** The checks all three `validateBootstrap` functions make; the flavour is the backend's own. */
  predicate CommonBootstrap(b: Bootstrap, flavor: string) {
    && !Blank(b.name) && !Blank(b.poolID)
    && b.osType == "linux" && (b.arch == "amd64" || b.arch == "x64" || b.arch == "x86_64")
    && b.flavor == flavor
    && !Blank(b.callbackURL) && !Blank(b.metadataURL) && !Blank(b.token)
  }
}
