/**
 * The configuration records of src/types.rs. Every field that serde fills in
 * is kept; fixed-width integers are subset types of `int`.
 */
module Types {
  import opened Wrappers

  /** Rust `u16`. */
  type U16 = x: int | 0 <= x < 0x1_0000
  /** Rust `u64` (and `usize` on a 64-bit target). */
  type U64 = x: int | 0 <= x < 0x1_0000_0000_0000_0000
  /** Rust `i32`. */
  type I32 = x: int | -0x8000_0000 <= x < 0x8000_0000

  /** How the log file appender rolls over. */
  datatype Rotation = Hourly | Daily | Never

  datatype Log = Log(level: string, path: string, rotation: Rotation, fileNamePrefix: string)

  datatype Application = Application(
    shutdownTimeout: U64,
    workers: U64,
    hosts: seq<string>,
    hostsV6: seq<string>,
    port: U16,
    log: Log)

  /** The application configuration document served by the config service. */
  datatype Ac = Ac(application: Application)

  /** Where the registry is and under which key the configuration lives. */
  datatype NacosConfig = NacosConfig(
    serverAddr: string,
    namespace: string,
    group: Option<string>,
    dataId: string)

  /** The document `application-<active>.yaml`. */
  datatype Nacos = Nacos(nacos: NacosConfig)

  datatype Profiles = Profiles(active: string)

  /** The document `application.yaml`. */
  datatype Env = Env(profiles: Profiles)
}
