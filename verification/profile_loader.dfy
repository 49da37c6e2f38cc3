/**
 * Which local files are read at startup and which registry connection they
 * yield: `application.yaml` names the active profile, the file
 * `application-<active>.yaml` holds the connection, and its config key has
 * every `{}` replaced by the profile name.
 */
module ProfileLoader {
  import opened Wrappers
  import opened Types
  import opened Errors
  import opened Placeholder

  /** The base profile file. */
  const APPLICATION_YAML: string := "application.yaml"
  const PROFILE_PREFIX: string := "application-"
  const PROFILE_SUFFIX: string := ".yaml"

  /**
   * What `load_config` yields for a path, per document type: the decoded
   * document, or None where reading or decoding fails (and it panics).
   */
  datatype Disk = Disk(env: string -> Option<Env>, nacos: string -> Option<Nacos>)

  /** `format!("application-{}.yaml", active)`. */
  function ProfilePath(active: string): (path: string)
    ensures |path| == |PROFILE_PREFIX| + |active| + |PROFILE_SUFFIX|
    ensures path[..|PROFILE_PREFIX|] == PROFILE_PREFIX
    ensures path[|PROFILE_PREFIX|..|path| - |PROFILE_SUFFIX|] == active
    ensures path[|path| - |PROFILE_SUFFIX|..] == PROFILE_SUFFIX
  {
    PROFILE_PREFIX + active + PROFILE_SUFFIX
  }

  /** Reads the profile name back out of a profile file name. */
  function ActiveOf(path: string): Option<string> {
    if |path| >= |PROFILE_PREFIX| + |PROFILE_SUFFIX|
       && path[..|PROFILE_PREFIX|] == PROFILE_PREFIX
       && path[|path| - |PROFILE_SUFFIX|..] == PROFILE_SUFFIX
    then Some(path[|PROFILE_PREFIX|..|path| - |PROFILE_SUFFIX|])
    else None
  }

  /** The file name determines the profile: `ActiveOf` inverts `ProfilePath`, both ways. */
  lemma ProfilePathRoundTrip(active: string, path: string)
    ensures ActiveOf(ProfilePath(active)) == Some(active)
    ensures ActiveOf(path) == Some(active) ==> ProfilePath(active) == path
  {
    if ActiveOf(path) == Some(active) {
      assert path == path[..|PROFILE_PREFIX|] + path[|PROFILE_PREFIX|..|path| - |PROFILE_SUFFIX|]
                     + path[|path| - |PROFILE_SUFFIX|..];
    }
  }

  /** Two profiles never share a file, and no profile file is the base file. */
  lemma ProfilePathDistinct(a: string, b: string)
    ensures ProfilePath(a) == ProfilePath(b) ==> a == b
    ensures ProfilePath(a) != APPLICATION_YAML
  {
    ProfilePathRoundTrip(a, ProfilePath(b));
    assert |ProfilePath(a)| > |APPLICATION_YAML|;
  }

  /**
   * The connection the two files describe, with the config key resolved;
   * None when either load panics.
   */
  function Connection(disk: Disk): (c: Option<NacosConfig>)
    ensures c.Some? <==>
              && disk.env(APPLICATION_YAML).Some?
              && disk.nacos(ProfilePath(disk.env(APPLICATION_YAML).value.profiles.active)).Some?
    ensures c.Some? ==>
              var active := disk.env(APPLICATION_YAML).value.profiles.active;
              var loaded := disk.nacos(ProfilePath(active)).value.nacos;
              && c.value == loaded.(dataId := c.value.dataId)
              && c.value.dataId == Substitute(loaded.dataId, active)
  {
    match disk.env(APPLICATION_YAML)
    case None => None
    case Some(env) =>
      match disk.nacos(ProfilePath(env.profiles.active))
      case None => None
      case Some(conf) =>
        Some(conf.nacos.(dataId := Substitute(conf.nacos.dataId, env.profiles.active)))
  }

  /**
   * The three opening lines of every startup routine: load the base profile,
   * load the profile's connection file, then overwrite its config key with
   * the resolved one.
   */
  method LoadConnection(disk: Disk) returns (o: Outcome<NacosConfig>)
    ensures !o.Raised?
    ensures disk.env(APPLICATION_YAML).None? ==> o == Aborted(LoadFailed(APPLICATION_YAML))
    ensures disk.env(APPLICATION_YAML).Some? ==>
              var active := disk.env(APPLICATION_YAML).value.profiles.active;
              match disk.nacos(ProfilePath(active))
              case None => o == Aborted(LoadFailed(ProfilePath(active)))
              case Some(conf) =>
                && o.Returned?
                && o.value.serverAddr == conf.nacos.serverAddr
                && o.value.namespace == conf.nacos.namespace
                && o.value.group == conf.nacos.group
                && o.value.dataId == Substitute(conf.nacos.dataId, active)
    ensures o.Returned? <==> Connection(disk).Some?
    ensures o.Returned? ==> o.value == Connection(disk).value
  {
    var env := disk.env(APPLICATION_YAML);
    if env.None? {
      return Aborted(LoadFailed(APPLICATION_YAML));
    }
    var active := env.value.profiles.active;
    var path := ProfilePath(active);
    var loaded := disk.nacos(path);
    if loaded.None? {
      return Aborted(LoadFailed(path));
    }
    var conf := loaded.value;
    conf := conf.(nacos := conf.nacos.(dataId := Substitute(conf.nacos.dataId, active)));
    o := Returned(conf.nacos);
  }
}
