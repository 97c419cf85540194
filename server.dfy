/**
 * The server binary's start-up settings: where its configuration file is read from, and
 * the defaults filled into the loaded proxy configuration.
 */
module Server {
  import opened Text

  const DefaultConfigPath := "config.yaml"
  const ConfigFlag := "--config"
  const ConfigFlagAssign := "--config="
  const DefaultPort := 8317
  const DefaultAuthDir := "~/.cli-proxy-api"

  /** Argument `i` names a configuration path: `--config` followed by a value, or `--config=<v>`. */
  predicate IsConfigFlag(args: seq<string>, i: nat)
    requires i < |args|
  {
    (args[i] == ConfigFlag && i + 1 < |args|) || HasPrefix(args[i], ConfigFlagAssign)
  }

  /** The path that argument `i` names. */
  function ConfigFlagValue(args: seq<string>, i: nat): string
    requires i < |args| && IsConfigFlag(args, i)
  {
    if args[i] == ConfigFlag && i + 1 < |args| then args[i + 1] else args[i][|ConfigFlagAssign|..]
  }

  /** The scan of the arguments from index `i` on: the first flag found decides. */
  function ScanConfigArgs(args: seq<string>, i: nat): string
    requires i <= |args|
    decreases |args| - i
  {
    if i == |args| then DefaultConfigPath
    else if IsConfigFlag(args, i) then ConfigFlagValue(args, i)
    else ScanConfigArgs(args, i + 1)
  }

  /**
   * The configuration path of `main`, given the arguments after the program name and the
   * value of CONFIG_PATH ("" when unset): a loop over the arguments that stops at the first
   * flag, then the environment override.
   */
  method ResolveConfigPath(args: seq<string>, envConfigPath: string) returns (configPath: string)
    ensures envConfigPath != "" ==> configPath == envConfigPath
    ensures envConfigPath == "" ==> configPath == ScanConfigArgs(args, 0)
  {
    configPath := DefaultConfigPath;
    var i := 0;
    while i < |args|
      invariant 0 <= i <= |args|
      invariant configPath == DefaultConfigPath
      invariant ScanConfigArgs(args, 0) == ScanConfigArgs(args, i)
    {
      var arg := args[i];
      if arg == ConfigFlag && i + 1 < |args| {
        configPath := args[i + 1];
        break;
      } else if HasPrefix(arg, ConfigFlagAssign) {
        configPath := arg[|ConfigFlagAssign|..];
        break;
      }
      i := i + 1;
    }
    if envConfigPath != "" {
      configPath := envConfigPath;
    }
  }

  /** The first configuration flag wins, whatever follows it. */
  lemma {:induction false} FirstConfigFlagWins(args: seq<string>, i: nat, k: nat)
    requires i <= k < |args| && IsConfigFlag(args, k)
    requires forall j :: i <= j < k ==> !IsConfigFlag(args, j)
    ensures ScanConfigArgs(args, i) == ConfigFlagValue(args, k)
    decreases k - i
  {
    if i < k {
      FirstConfigFlagWins(args, i + 1, k);
    }
  }

  /** With no configuration flag the path is "config.yaml". */
  lemma {:induction false} NoConfigFlagGivesDefault(args: seq<string>, i: nat)
    requires i <= |args|
    requires forall j :: i <= j < |args| ==> !IsConfigFlag(args, j)
    ensures ScanConfigArgs(args, i) == DefaultConfigPath
    decreases |args| - i
  {
    if i < |args| {
      NoConfigFlagGivesDefault(args, i + 1);
    }
  }

  /** A bare `--config` as the last argument is ignored. */
  lemma TrailingBareFlagIgnored(args: seq<string>)
    requires |args| == 0 || args[|args| - 1] != ConfigFlag
    ensures ScanConfigArgs(args + [ConfigFlag], 0) == ScanConfigArgs(args, 0)
  {
    var longer := args + [ConfigFlag];
    assert !IsConfigFlag(longer, |args|);
    assert forall j :: 0 <= j < |args| ==> (IsConfigFlag(longer, j) <==> IsConfigFlag(args, j));
    if k :| 0 <= k < |args| && IsConfigFlag(args, k) {
      var first := FirstFlag(args, k);
      FirstConfigFlagWins(args, 0, first);
      FirstConfigFlagWins(longer, 0, first);
    } else {
      NoConfigFlagGivesDefault(args, 0);
      NoConfigFlagGivesDefault(longer, 0);
    }
  }

  /** The index of the first configuration flag, given that one exists at or before `k`. */
  ghost function FirstFlag(args: seq<string>, k: nat): (f: nat)
    requires k < |args| && IsConfigFlag(args, k)
    ensures f <= k && IsConfigFlag(args, f)
    ensures forall j :: 0 <= j < f ==> !IsConfigFlag(args, j)
  {
    if exists j :: 0 <= j < k && IsConfigFlag(args, j) then
      var j :| 0 <= j < k && IsConfigFlag(args, j);
      FirstFlag(args, j)
    else k
  }

  /** The port after defaulting: 0 means unset and becomes 8317; any other value stays. */
  function PortOrDefault(port: int): (r: int)
    ensures r != 0
    ensures port != 0 ==> r == port
    ensures port == 0 ==> r == DefaultPort
  {
    if port == 0 then DefaultPort else port
  }

  /** The auth directory after defaulting: "" means unset; any other value stays. */
  function AuthDirOrDefault(authDir: string): (r: string)
    ensures r != ""
    ensures authDir != "" ==> r == authDir
    ensures authDir == "" ==> r == DefaultAuthDir
  {
    if authDir == "" then DefaultAuthDir else authDir
  }

  /** The two fields of the loaded proxy configuration that `main` fills in. */
  class ProxyConfig {
    var port: int
    var authDir: string

    constructor (port: int, authDir: string)
      ensures this.port == port && this.authDir == authDir
    {
      this.port := port;
      this.authDir := authDir;
    }

    /** The defaults `main` assigns into the configuration when a field is unset. */
    method ApplyDefaults()
      modifies this
      ensures port == PortOrDefault(old(port)) && authDir == AuthDirOrDefault(old(authDir))
    {
      if port == 0 {
        port := DefaultPort;
      }
      if authDir == "" {
        authDir := DefaultAuthDir;
      }
    }
  }
}
