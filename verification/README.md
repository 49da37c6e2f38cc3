# nacos_rust_client: the bootstrap rules, in Dafny

This project models the deterministic core of `nacos_rust_client`. That is
the layer that connects a service to a Nacos configuration-and-discovery
registry at startup. The model covers:

- which local profile files are read (`application.yaml`, then
  `application-<active>.yaml`);
- how the config key (`data_id`) is rewritten: every `{}` becomes the active
  profile name;
- which group a configuration request uses (the configured one, else
  `DEFAULT_GROUP`);
- how a configured log-level name becomes one of five level filters, and how
  the reloadable filter is replaced;
- how the batch of service instances is built from `application.hosts` and
  `application.port`;
- which SDK failures abort startup, which propagate as an `Err`, and which
  are swallowed, in `get_config`, `register_nacos` and
  `RegisterService::register_nacos`.

The SDK, the local files and the YAML decoder are parameters. `Disk` gives
the decoded document that `load_config` yields for a path. `Sdk` gives the
result of each client call. `decode` is the YAML decoder for the fetched
text. Each startup routine returns an `Outcome`:

- `Returned`: the routine returned normally.
- `Raised`: an error came back through `?`.
- `Aborted`: the routine panicked.

Each routine also returns the sequence of SDK calls it made. That lets the
contracts state what is sent to the registry: the key, the group and the
instance batch.

Modules, one per component of `src/lib.rs` (plus `src/types.rs`):

| file | module | models |
|---|---|---|
| wrappers.dfy | Wrappers | `Option` and `Result` |
| types.dfy | Types | the serde records of `src/types.rs` |
| errors.dfy | Errors | the crate error type, panics, and routine outcomes |
| placeholder.dfy | Placeholder | `data_id.replace("{}", active)` |
| profile_loader.dfy | ProfileLoader | the profile file names, and loading plus resolving the connection |
| group.dfy | Group | group defaulting |
| tracing.dfy | Tracing | the level mapping and the reload handle |
| naming.dfy | Naming | `ServiceInstance` and the instance-building loop |
| registration.dfy | Registration | the three startup routines and `RegisterService` |

## Model

| member | source | states |
|---|---|---|
| ProfileLoader.ProfilePath | src/lib.rs:94-96 | the environment file name is `application-` followed by the active profile and then `.yaml`, with each part at its position |
| ProfileLoader.ProfilePathRoundTrip | src/lib.rs:95 | the profile name can be read back from the file name, and every name that reads back as a profile is that profile's file name |
| ProfileLoader.ProfilePathDistinct | src/lib.rs:83-96 | different profiles load different files, and no profile file is `application.yaml` |
| ProfileLoader.Connection | src/lib.rs:221-223 | a connection exists exactly when both files load; it is the loaded one with only its `data_id` changed, to the key with each `{}` replaced by the active profile |
| ProfileLoader.LoadConnection | src/lib.rs:221-223 | a failed load of either file panics with that file's path; otherwise the connection is the loaded one, with only its `data_id` overwritten by the substituted key |
| Placeholder.Substitute | src/lib.rs:124 | a key in which no `{}` starts is returned unchanged |
| Placeholder.SubstituteLength | src/lib.rs:124 | each `{}` of the key is replaced exactly once: the result is as long as the key plus, per token, the profile name's length minus two |
| Placeholder.OccurrencesZero | src/lib.rs:124 | the token count used above is zero exactly when the key holds no `{}` |
| Placeholder.SubstituteWithoutPlaceholder | src/lib.rs:124 | a key containing no `{}` is left unchanged, whatever the profile |
| Placeholder.SubstituteSplit | src/lib.rs:124 | each `{}` is replaced by the profile, and the text on either side is rewritten independently |
| Placeholder.SubstituteSingle | src/lib.rs:124 | a key with one `{}` between token-free texts, such as `app-{}.yaml`, becomes the text before it, the profile name, then the text after it |
| Placeholder.SubstituteLeavesNoPlaceholder | src/lib.rs:124 | if the profile name is non-empty, holds no `{}`, does not start with `}` and does not end with `{`, the resolved key contains no `{}` |
| Placeholder.SubstituteNeedsSafeProfile | src/lib.rs:124 | conversely, for every other profile name some key resolves to a text containing `{}` |
| Placeholder.SubstituteIdempotent | src/lib.rs:124 | under that condition, resolving a resolved key again changes nothing |
| Placeholder.SubstituteCanCreatePlaceholder | src/lib.rs:124 | the profile name `}` holds no `{}`, yet key `{{}` resolves to `{}`, and a second pass changes it again |
| Group.ResolveGroup | src/lib.rs:232-235 | a configured group is used unchanged; an absent group becomes `DEFAULT_GROUP` |
| Tracing.LevelOf | src/lib.rs:343-350 | the exact upper-case or lower-case name of a level selects that level, and any result other than Info came from one of those two names; every other string selects Info |
| Tracing.LevelOfFallsBack | src/lib.rs:343-350 | `Debug`, `Warn` and `verbose` select Info, while `debug` selects Debug: the match is not case-insensitive |
| Tracing.LevelHandle.constructor | src/lib.rs:325-326 | the reloadable filter starts at DEBUG |
| Tracing.LevelHandle.ConfigTracing | src/lib.rs:340-352 | afterwards the filter is the level the log section's name selects |
| Naming.BuildInstances | src/lib.rs:275-289 | the batch has one instance per host, in host order, each with ip equal to that host, the application's port, and weight 1.0 |
| Naming.BatchRecoversHosts | src/lib.rs:176-190 | the ips of a batch are exactly the host list |
| Naming.BatchUnique | src/lib.rs:275-289 | two batches for the same application are equal: the batch is determined by the hosts and the port |
| Naming.TwoHostBatch | src/lib.rs:277-282 | hosts `10.0.0.1` and `10.0.0.2` on port 8080 give exactly those two instances, in that order |
| Registration.PropsOf | src/lib.rs:125-128 | both builders receive the server address and namespace of the resolved connection and the package name as app name; the key and the group play no part |
| Registration.FetchConfig | src/lib.rs:229-249 | a builder error is raised; otherwise one fetch is made at the resolved key and defaulted group; a fetch error or an undecodable payload aborts; a returned configuration is the decoding of a successful fetch |
| Registration.RegisterInstances | src/lib.rs:264-305 | a naming builder error is raised with that error and nothing else is called; otherwise it returns `Ok(())` whatever subscribe, batch register and list return, after exactly those three calls, in that order, with the configured (optional) group and the host batch |
| Registration.GetConfig | src/lib.rs:218-251 | a failed load aborts before any SDK call; a config builder error is raised with that error; otherwise one fetch of the resolved key in the resolved group is made, a fetch error aborts with that error, an undecodable payload aborts with that payload, and a decodable one is returned decoded |
| Registration.ResolvedSingleTokenKey | src/lib.rs:122-136 | a key such as `app-{}.yaml` with no group under profile `prod` is requested as `app-prod.yaml` in `DEFAULT_GROUP`, with the server address and namespace unchanged |
| Registration.RegisterNacos | src/lib.rs:253-308 | a failed load aborts before any SDK call; otherwise it never panics; a naming builder error is raised with that error; otherwise it returns `Ok(())` after subscribing, registering the given configuration's hosts and listing, in that order |
| Registration.RegisterService.constructor | src/lib.rs:105-107 | the service holds the two given listeners |
| Registration.RegisterService.SetCc | src/lib.rs:109-111 | replaces the config listener and keeps the naming listener |
| Registration.RegisterService.SetNe | src/lib.rs:113-115 | replaces the naming listener and keeps the config listener |
| Registration.RegisterService.RegisterNacos | src/lib.rs:118-208 | a failed load aborts before any SDK call; a config builder error is raised with that error; a fetch error aborts with it and an undecodable payload aborts with the payload, both before the listener is added; a naming builder error is raised with that error; otherwise the decoded configuration is returned whatever the listener, subscribe, register and list calls return; the calls are build, fetch, add listener, build naming, subscribe, register the decoded hosts, list |

## Behaviour worth knowing

- The level mapping accepts only the exact upper-case or lower-case
  spelling of a level; any other spelling (`Debug`, say) selects Info. See
  `Tracing.LevelOfFallsBack`.
- Rust's `replace` makes a single pass. A resolved key contains no `{}` for
  every key exactly when the profile name is non-empty, contains no `{}`,
  does not start with `}` and does not end with `{`. A profile name that
  merely avoids `{}` is not enough, and then a repeated substitution is not
  always a no-op. See `Placeholder.SubstituteLeavesNoPlaceholder`,
  `Placeholder.SubstituteNeedsSafeProfile` and
  `Placeholder.SubstituteCanCreatePlaceholder`.
- Nothing requires `hosts` to be non-empty. An empty host list registers an
  empty batch.
- Only the config service uses the defaulted group. `subscribe`,
  `batch_register_instance` and `get_all_instances` receive the configured
  `Option` unchanged.
- `init_tracing` starts the filter at DEBUG whatever `log.level` says. Only
  a later `config_tracing` applies the configured level.
- A payload that fails to decode makes the routine panic through `unwrap`.
  It is not a returned error. In `RegisterService::register_nacos` this
  happens before the listener is added.

## Left out

- YAML and JSON decoding through serde (`parse_config`,
  `parse_config_from_string`, `load_config`, `deserialize_yaml`, and the
  `Display` of `Env`): a foreign library. It is represented by `Disk` and by
  the `decode` parameter.
- `read_yaml` (the current directory and the file read): I/O. A failed read
  is part of what `Disk` returns as None.
- The Nacos SDK clients: a network client behind an opaque API. Only the
  result of each call is kept. `get_config` also returns the config service
  handle, which the model does not.
- `ServiceInstance` fields filled by `..Default::default()` (instance id,
  cluster, health, enabled, ephemeral, metadata): set by the SDK. The weight
  is the fixed tag `One` rather than the float 1.0.
- `SERVICE_NAME` is the package name, fixed at compile time. The model
  assumes `nacos_rust_client`, the crate name `src/main.rs` imports.
- The tracing subscriber, the file appenders and the rotation-based choice
  of appender in `init_tracing`: a foreign logging backend. From
  `init_tracing` only the initial filter is kept. The result of the reload
  handle's `modify`, which `config_tracing` discards, is not modelled.
  Neither is the atomicity of the swap under concurrent logging.
- Every `tracing::info!`, `debug!` and `error!` call: output only.
- The listener callbacks and their asynchronous delivery (src/main.rs:112-135),
  the actix server start-up in src/main.rs, and src/hello_controller.rs.
  These are concurrency and HTTP plumbing. src/main.rs is not part of this
  model apart from the key substitution it repeats.
- `Vec::with_capacity(2)`: only a capacity hint.
