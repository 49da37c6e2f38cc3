/**
 * The startup routines of src/lib.rs that talk to the registry: fetching
 * the application configuration and registering the running instances.
 * The SDK is reduced to the outcome each call returns; every routine also
 * returns the calls it made, in order, so that what reaches the registry
 * can be stated.
 */
module Registration {
  import opened Wrappers
  import opened Types
  import opened Errors
  import opened ProfileLoader
  import opened Group
  import opened Naming
  import Placeholder

  /** `env!("CARGO_PKG_NAME")`: the package name, used as app name and service name. */
  const SERVICE_NAME: string := "nacos_rust_client"

  /** The client properties both SDK builders receive. */
  datatype ClientProps = ClientProps(serverAddr: string, namespace: string, appName: string)

  function PropsOf(conf: NacosConfig): (p: ClientProps)
    ensures p.serverAddr == conf.serverAddr && p.namespace == conf.namespace
    ensures p.appName == SERVICE_NAME
  {
    ClientProps(conf.serverAddr, conf.namespace, SERVICE_NAME)
  }

  /**
   * The registry SDK as the outcomes of its calls. A config response is its
   * text content. The naming calls take the group as configured, not the
   * defaulted one.
   */
  datatype Sdk = Sdk(
    buildConfigService: ClientProps -> Result<(), SdkError>,
    getConfig: (string, string) -> Result<string, SdkError>,
    addListener: (string, string) -> Result<(), SdkError>,
    buildNamingService: ClientProps -> Result<(), SdkError>,
    subscribe: (string, Option<string>) -> Result<(), SdkError>,
    batchRegisterInstance: (string, Option<string>, seq<ServiceInstance>) -> Result<(), SdkError>,
    getAllInstances: (string, Option<string>) -> Result<seq<ServiceInstance>, SdkError>)

  /** One call into the SDK, with the arguments the model keeps. */
  datatype Call =
    | BuildConfigService(props: ClientProps)
    | GetConfigRequest(dataId: string, group: string)
    | AddListener(dataId: string, group: string)
    | BuildNamingService(props: ClientProps)
    | Subscribe(serviceName: string, groupOption: Option<string>)
    | BatchRegister(serviceName: string, groupOption: Option<string>, instances: seq<ServiceInstance>)
    | GetAllInstances(serviceName: string, groupOption: Option<string>)

  /**
   * Build the config service and fetch the application configuration under
   * the resolved key and group. A builder error propagates; a fetch error or
   * an undecodable payload aborts.
   */
  method FetchConfig(conf: NacosConfig, sdk: Sdk, decode: string -> Option<Ac>)
    returns (o: Outcome<Ac>, calls: seq<Call>)
    ensures |calls| >= 1 && calls[0] == BuildConfigService(PropsOf(conf))
    ensures sdk.buildConfigService(PropsOf(conf)).Err? ==>
              o == Raised(NacosError(sdk.buildConfigService(PropsOf(conf)).error))
              && calls == [BuildConfigService(PropsOf(conf))]
    ensures sdk.buildConfigService(PropsOf(conf)).Ok? ==>
              && calls == [BuildConfigService(PropsOf(conf)), GetConfigRequest(conf.dataId, ResolveGroup(conf.group))]
              && match sdk.getConfig(conf.dataId, ResolveGroup(conf.group))
                 case Err(e) => o == Aborted(FetchFailed(e))
                 case Ok(content) =>
                   match decode(content)
                   case None => o == Aborted(DecodeFailed(content))
                   case Some(ac) => o == Returned(ac)
    ensures o.Returned? ==>
              && sdk.buildConfigService(PropsOf(conf)).Ok?
              && sdk.getConfig(conf.dataId, ResolveGroup(conf.group)).Ok?
              && decode(sdk.getConfig(conf.dataId, ResolveGroup(conf.group)).value) == Some(o.value)
  {
    var props := PropsOf(conf);
    calls := [BuildConfigService(props)];
    var built := sdk.buildConfigService(props);
    if built.Err? {
      return Raised(NacosError(built.error)), calls;
    }
    var group := ResolveGroup(conf.group);
    calls := calls + [GetConfigRequest(conf.dataId, group)];
    var resp := sdk.getConfig(conf.dataId, group);
    if resp.Err? {
      return Aborted(FetchFailed(resp.error)), calls;
    }
    var ac := decode(resp.value);
    if ac.None? {
      return Aborted(DecodeFailed(resp.value)), calls;
    }
    o := Returned(ac.value);
  }

  /**
   * Build the naming service, subscribe, register one instance per host and
   * read the instance list back. Only the builder's error propagates; the
   * outcomes of the three later calls are discarded.
   */
  method RegisterInstances(conf: NacosConfig, sdk: Sdk, app: Application)
    returns (o: Outcome<()>, calls: seq<Call>)
    ensures match sdk.buildNamingService(PropsOf(conf))
            case Err(e) => o == Raised(NacosError(e)) && calls == [BuildNamingService(PropsOf(conf))]
            case Ok(_) =>
              && o == Returned(())
              && |calls| == 4
              && calls[2].BatchRegister?
              && calls == [BuildNamingService(PropsOf(conf)), Subscribe(SERVICE_NAME, conf.group),
                           BatchRegister(SERVICE_NAME, conf.group, calls[2].instances),
                           GetAllInstances(SERVICE_NAME, conf.group)]
              && IsBatchFor(calls[2].instances, app)
  {
    var props := PropsOf(conf);
    calls := [BuildNamingService(props)];
    var built := sdk.buildNamingService(props);
    if built.Err? {
      return Raised(NacosError(built.error)), calls;
    }
    calls := calls + [Subscribe(SERVICE_NAME, conf.group)];
    var subscribed := sdk.subscribe(SERVICE_NAME, conf.group);
    var instances := BuildInstances(app);
    calls := calls + [BatchRegister(SERVICE_NAME, conf.group, instances)];
    var registered := sdk.batchRegisterInstance(SERVICE_NAME, conf.group, instances);
    calls := calls + [GetAllInstances(SERVICE_NAME, conf.group)];
    var listed := sdk.getAllInstances(SERVICE_NAME, conf.group);
    o := Returned(());
  }

  /**
   * `get_config`: resolve the connection, then fetch and decode the
   * application configuration. It returns only a configuration that a
   * successful fetch of the resolved key delivered.
   */
  method GetConfig(disk: Disk, sdk: Sdk, decode: string -> Option<Ac>)
    returns (o: Outcome<Ac>, calls: seq<Call>)
    ensures Connection(disk).None? ==> o.Aborted? && o.panic.LoadFailed? && calls == []
    ensures Connection(disk).Some? ==>
              var conf := Connection(disk).value;
              var props := PropsOf(conf);
              var group := ResolveGroup(conf.group);
              && (o.Raised? <==> sdk.buildConfigService(props).Err?)
              && match sdk.buildConfigService(props)
                 case Err(e) => o == Raised(NacosError(e)) && calls == [BuildConfigService(props)]
                 case Ok(_) =>
                   && calls == [BuildConfigService(props), GetConfigRequest(conf.dataId, group)]
                   && match sdk.getConfig(conf.dataId, group)
                      case Err(e) => o == Aborted(FetchFailed(e))
                      case Ok(content) =>
                        match decode(content)
                        case None => o == Aborted(DecodeFailed(content))
                        case Some(ac) => o == Returned(ac)
  {
    var loaded := LoadConnection(disk);
    if !loaded.Returned? {
      return Aborted(loaded.panic), [];
    }
    o, calls := FetchConfig(loaded.value, sdk, decode);
  }

  /**
   * A profile-templated key with one token and no group, such as
   * `app-{}.yaml` under the profile `prod`: the request goes to the key with
   * the profile name in the token's place (`app-prod.yaml`), in the default
   * group, and nothing else of the loaded connection changes.
   */
  lemma ResolvedSingleTokenKey(disk: Disk, active: string, addr: string, ns: string, pre: string, post: string)
    requires Placeholder.PlaceholderFree(pre) && Placeholder.PlaceholderFree(post)
    requires disk.env(APPLICATION_YAML) == Some(Env(Profiles(active)))
    requires disk.nacos(ProfilePath(active)) == Some(Nacos(NacosConfig(addr, ns, None, pre + Placeholder.PLACEHOLDER + post)))
    ensures Connection(disk) == Some(NacosConfig(addr, ns, None, pre + active + post))
    ensures ResolveGroup(Connection(disk).value.group) == DEFAULT_GROUP
  {
    Placeholder.SubstituteSingle(pre, post, active);
  }

  /**
   * `register_nacos`: resolve the connection, then register the given
   * configuration's hosts. It returns unless a load panics or the naming
   * service cannot be built; subscribe, registration and listing failures
   * never change its result.
   */
  method RegisterNacos(disk: Disk, sdk: Sdk, ac: Ac) returns (o: Outcome<()>, calls: seq<Call>)
    ensures Connection(disk).None? ==> o.Aborted? && o.panic.LoadFailed? && calls == []
    ensures Connection(disk).Some? ==>
              var conf := Connection(disk).value;
              var props := PropsOf(conf);
              && !o.Aborted?
              && match sdk.buildNamingService(props)
                 case Err(e) => o == Raised(NacosError(e)) && calls == [BuildNamingService(props)]
                 case Ok(_) =>
                   && o == Returned(())
                   && |calls| == 4
                   && calls[2].BatchRegister?
                   && calls == [BuildNamingService(props), Subscribe(SERVICE_NAME, conf.group),
                                BatchRegister(SERVICE_NAME, conf.group, calls[2].instances),
                                GetAllInstances(SERVICE_NAME, conf.group)]
                   && IsBatchFor(calls[2].instances, ac.application)
  {
    var loaded := LoadConnection(disk);
    if !loaded.Returned? {
      return Aborted(loaded.panic), [];
    }
    o, calls := RegisterInstances(loaded.value, sdk, ac.application);
  }

  /**
   * The registering service of the source: it holds the configuration
   * listener and the naming listener. Listener callbacks are not modelled,
   * so the listeners are type parameters.
   */
  class RegisterService<CC, NE> {
    var cc: CC
    var ne: NE

    constructor (cc: CC, ne: NE)
      ensures this.cc == cc && this.ne == ne
    {
      this.cc := cc;
      this.ne := ne;
    }

    method SetCc(cc: CC)
      modifies this
      ensures this.cc == cc && this.ne == old(this.ne)
    {
      this.cc := cc;
    }

    method SetNe(ne: NE)
      modifies this
      ensures this.ne == ne && this.cc == old(this.cc)
    {
      this.ne := ne;
    }

    /**
     * `RegisterService::register_nacos`: fetch the configuration, add the
     * change listener, then register the fetched configuration's hosts, and
     * return that configuration. A listener failure is swallowed like the
     * naming failures after the builder.
     */
    static method RegisterNacos(disk: Disk, sdk: Sdk, decode: string -> Option<Ac>)
      returns (o: Outcome<Ac>, calls: seq<Call>)
      ensures Connection(disk).None? ==> o.Aborted? && o.panic.LoadFailed? && calls == []
      ensures Connection(disk).Some? ==>
                var conf := Connection(disk).value;
                var props := PropsOf(conf);
                var group := ResolveGroup(conf.group);
                && (o.Returned? <==>
                      && sdk.buildConfigService(props).Ok?
                      && sdk.getConfig(conf.dataId, group).Ok?
                      && decode(sdk.getConfig(conf.dataId, group).value).Some?
                      && sdk.buildNamingService(props).Ok?)
                && match sdk.buildConfigService(props)
                   case Err(e) => o == Raised(NacosError(e)) && calls == [BuildConfigService(props)]
                   case Ok(_) =>
                     match sdk.getConfig(conf.dataId, group)
                     case Err(e) =>
                       o == Aborted(FetchFailed(e))
                       && calls == [BuildConfigService(props), GetConfigRequest(conf.dataId, group)]
                     case Ok(content) =>
                       match decode(content)
                       case None =>
                         o == Aborted(DecodeFailed(content))
                         && calls == [BuildConfigService(props), GetConfigRequest(conf.dataId, group)]
                       case Some(ac) =>
                         && |calls| >= 4
                         && calls[..4] == [BuildConfigService(props), GetConfigRequest(conf.dataId, group),
                                           AddListener(conf.dataId, group), BuildNamingService(props)]
                         && match sdk.buildNamingService(props)
                            case Err(e) => o == Raised(NacosError(e)) && |calls| == 4
                            case Ok(_) =>
                              && o == Returned(ac)
                              && |calls| == 7
                              && calls[5].BatchRegister?
                              && calls[4..] == [Subscribe(SERVICE_NAME, conf.group),
                                                BatchRegister(SERVICE_NAME, conf.group, calls[5].instances),
                                                GetAllInstances(SERVICE_NAME, conf.group)]
                              && IsBatchFor(calls[5].instances, ac.application)
    {
      var loaded := LoadConnection(disk);
      if !loaded.Returned? {
        return Aborted(loaded.panic), [];
      }
      var conf := loaded.value;
      var fetched;
      fetched, calls := FetchConfig(conf, sdk, decode);
      if !fetched.Returned? {
        return fetched, calls;
      }
      var ac := fetched.value;
      var group := ResolveGroup(conf.group);
      calls := calls + [AddListener(conf.dataId, group)];
      var listening := sdk.addListener(conf.dataId, group);
      var registered, namingCalls := RegisterInstances(conf, sdk, ac.application);
      calls := calls + namingCalls;
      if registered.Raised? {
        return Raised(registered.error), calls;
      }
      o := Returned(ac);
    }
  }
}
