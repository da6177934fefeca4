/**
 * The persisted configuration as an in-memory map, the choice of the
 * configuration file's location, and the bridge address precedence of the
 * command-line entry point.
 */
module Settings {
  import opened Wrappers

  /** The configuration dictionary; every value is modelled as a string. */
  type Config = map<string, string>

  /** `cfg.get(key)`. */
  function Get(cfg: Config, key: string): Option<string>
  {
    if key in cfg then Some(cfg[key]) else None
  }

  /** The `updated_at` stamp: a UTC ISO-8601 time (given) followed by "Z". */
  function Stamp(now: string): string
  {
    now + "Z"
  }

  /** A file-system path as its list of components. */
  datatype Path = Path(parts: seq<string>)

  /** `Path(s)` for a string taken whole from the environment; the empty string is the current directory. */
  function PathOf(s: string): Path
  {
    if s == "" then Path([]) else Path([s])
  }

  function Join(p: Path, names: seq<string>): Path
  {
    Path(p.parts + names)
  }

  /**
   * The default configuration file: `hue_cli/config.json` under APPDATA on
   * Windows (falling back to AppData/Roaming in the home directory), and under
   * XDG_CONFIG_HOME elsewhere (falling back to .config in the home directory).
   * A variable that is set, even to the empty string, wins over the fallback.
   * The fallback is computed before the variable is looked up, so the home
   * directory is always needed: `home` is `None` when it cannot be determined,
   * and then no path results (the source raises at import time).
   */
  function DefaultConfigPath(osName: string, env: map<string, string>, home: Option<Path>): (p: Option<Path>)
    ensures p.None? <==> home.None?
    ensures p.Some? ==> |p.value.parts| >= 2 && p.value.parts[|p.value.parts| - 2..] == ["hue_cli", "config.json"]
    ensures p.Some? && osName == "nt" && "APPDATA" in env ==>
              p.value.parts == PathOf(env["APPDATA"]).parts + ["hue_cli", "config.json"]
    ensures p.Some? && osName == "nt" && "APPDATA" in env && env["APPDATA"] == "" ==>
              p.value.parts == ["hue_cli", "config.json"]
    ensures p.Some? && osName == "nt" && "APPDATA" !in env ==>
              p.value.parts == home.value.parts + ["AppData", "Roaming", "hue_cli", "config.json"]
    ensures p.Some? && osName != "nt" && "XDG_CONFIG_HOME" in env ==>
              p.value.parts == PathOf(env["XDG_CONFIG_HOME"]).parts + ["hue_cli", "config.json"]
    ensures p.Some? && osName != "nt" && "XDG_CONFIG_HOME" in env && env["XDG_CONFIG_HOME"] == "" ==>
              p.value.parts == ["hue_cli", "config.json"]
    ensures p.Some? && osName != "nt" && "XDG_CONFIG_HOME" !in env ==>
              p.value.parts == home.value.parts + [".config", "hue_cli", "config.json"]
  {
    if home.None? then None
    else
      var base :=
        if osName == "nt" then
          (if "APPDATA" in env then PathOf(env["APPDATA"]) else Join(home.value, ["AppData", "Roaming"]))
        else
          (if "XDG_CONFIG_HOME" in env then PathOf(env["XDG_CONFIG_HOME"]) else Join(home.value, [".config"]));
      Some(Join(base, ["hue_cli", "config.json"]))
  }

  /** Each platform consults only its own variable: the other one never changes the path. */
  lemma ConfigPathIgnoresForeignVariable(osName: string, env: map<string, string>, home: Option<Path>)
    ensures osName == "nt" ==>
              DefaultConfigPath(osName, env, home) == DefaultConfigPath(osName, env - {"XDG_CONFIG_HOME"}, home)
    ensures osName != "nt" ==>
              DefaultConfigPath(osName, env, home) == DefaultConfigPath(osName, env - {"APPDATA"}, home)
  {
  }

  datatype AddressError = DiscoveryFailed

  /**
   * `args.ip or cfg.get("bridge_ip") or discovered`, failing when the chain
   * ends in nothing usable; the configuration is given the address and a new
   * `updated_at` stamp only when the stored address differs.
   */
  function ResolveBridgeIp(argIp: Option<string>, cfg: Config, discovered: Option<string>, now: string)
    : (r: Result<(string, Config), AddressError>)
    ensures r.Success? <==> Truthy(argIp) || Truthy(Get(cfg, "bridge_ip")) || Truthy(discovered)
    ensures r.Success? ==> r.value.0 != "" && Get(r.value.1, "bridge_ip") == Some(r.value.0)
    ensures Truthy(argIp) ==> r.Success? && r.value.0 == argIp.value
    ensures !Truthy(argIp) && Truthy(Get(cfg, "bridge_ip")) ==> r.Success? && r.value.0 == cfg["bridge_ip"]
    ensures !Truthy(argIp) && !Truthy(Get(cfg, "bridge_ip")) && Truthy(discovered) ==>
              r.Success? && r.value.0 == discovered.value
    ensures r.Success? && Get(cfg, "bridge_ip") == Some(r.value.0) ==> r.value.1 == cfg
    ensures r.Success? && Get(cfg, "bridge_ip") != Some(r.value.0) ==>
              r.value.1 == cfg["bridge_ip" := r.value.0]["updated_at" := Stamp(now)]
  {
    var chosen :=
      if Truthy(argIp) then argIp
      else if Truthy(Get(cfg, "bridge_ip")) then Get(cfg, "bridge_ip")
      else discovered;
    if !Truthy(chosen) then Failure(DiscoveryFailed)
    else
      var ip := chosen.value;
      if Get(cfg, "bridge_ip") != Some(ip) then
        Success((ip, cfg["bridge_ip" := ip]["updated_at" := Stamp(now)]))
      else
        Success((ip, cfg))
  }

  /**
   * Resolving again from the updated configuration, with no address on the
   * command line, finds the same address and leaves the configuration (and its
   * stamp) untouched, whatever discovery would say.
   */
  lemma ResolveIsStable(argIp: Option<string>, cfg: Config, discovered: Option<string>, now: string,
                        discovered': Option<string>, later: string)
    requires ResolveBridgeIp(argIp, cfg, discovered, now).Success?
    ensures var (ip, cfg') := ResolveBridgeIp(argIp, cfg, discovered, now).value;
            ResolveBridgeIp(None, cfg', discovered', later) == Success((ip, cfg'))
  {
  }
}
