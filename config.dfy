/** The configuration records that the planner and the executor consume:
    targets, problems and their phase templates, as they come out of the
    configuration file. Loading and parsing that file is not modelled. */
module Config {

  datatype Option<+T> = None | Some(value: T) {
    function GetOr(default: T): T {
      match this
      case Some(v) => v
      case None => default
    }
  }

  /** A parameter value as the configuration file's TOML layer delivers it.
      Integers and strings are modelled exactly. A float carries the text of
      Rust's `Display` for `f64` (so `1.0` is carried as "1"); any other
      value (boolean, array, table, datetime) carries the text the TOML
      library's `to_string` produces. Both formattings are given, not
      modelled. */
  datatype Value =
    | VFloat(rendered: string)
    | VInteger(i: int)
    | VString(s: string)
    | VOther(rendered: string)

  /** Where plans run: a root directory and, for a remote host, the endpoint
      handed to the `ssh` client. */
  datatype Target = Target(root: string, ssh: Option<string>)

  /** One phase template. `env` is a map in the source; only its presence and
      its contents are carried, never interpreted. */
  datatype Phase = Phase(
    program: string,
    args: seq<string>,
    cwd: Option<string>,
    env: Option<map<string, string>>)

  datatype Phases = Phases(build: Option<Phase>, run: Phase, analyze: Option<Phase>)

  /** A problem. The parameter table is a hash map in the source; here it is
      the sequence of its entries in the map's iteration order, which is the
      order the planner walks both its keys and its values in. */
  datatype Problem = Problem(
    runName: string,
    parameters: seq<(string, seq<Value>)>,
    phases: Phases)
}
