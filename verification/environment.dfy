/** The environment handed to a Renovate process: fixed logging defaults,
    overridden by the platform variables, overridden in turn by the cache
    variables. Object spread in an object literal is a left-to-right overlay in
    which a later layer wins on a shared key. */
module Environment {
  import opened Wrappers

  type Env = map<string, string>

  const LogFormatKey := "LOG_FORMAT"
  const LogLevelKey := "LOG_LEVEL"
  const LogContextKey := "LOG_CONTEXT"
  const ReportTypeKey := "RENOVATE_REPORT_TYPE"

  /** JSON log lines at debug level, tagged with the task id, with the report
      written into the log stream. */
  function LoggingDefaults(id: string): Env
  {
    map[LogFormatKey := "json", LogLevelKey := "debug", LogContextKey := id, ReportTypeKey := "logging"]
  }

  /** Reference reading of a layered environment: the value a key has in the
      last layer that defines it. */
  function LookupLast(layers: seq<Env>, key: string): Option<string>
  {
    if |layers| == 0 then None
    else if key in layers[|layers| - 1] then Some(layers[|layers| - 1][key])
    else LookupLast(layers[..|layers| - 1], key)
  }

  /** The layers spread one after the other into an empty object. */
  function Overlay(layers: seq<Env>): (env: Env)
    ensures forall k :: k in env <==> exists i :: 0 <= i < |layers| && k in layers[i]
  {
    if |layers| == 0 then map[]
    else
      var prefix := layers[..|layers| - 1];
      assert forall i :: 0 <= i < |prefix| ==> prefix[i] == layers[i];
      Overlay(prefix) + layers[|layers| - 1]
  }

  /** Every key reads, in the overlay, as it reads in the last layer defining it. */
  lemma {:induction false} OverlayIsLastWriterWins(layers: seq<Env>, key: string)
    ensures Get(Overlay(layers), key) == LookupLast(layers, key)
  {
    if |layers| > 0 {
      OverlayIsLastWriterWins(layers[..|layers| - 1], key);
    }
  }

  /** `LookupLast` of a three-layer environment, written out. */
  function LookupLast3(first: Env, second: Env, third: Env, key: string): Option<string>
  {
    if key in third then Some(third[key])
    else if key in second then Some(second[key])
    else if key in first then Some(first[key])
    else None
  }

  /** A key of a three-layer overlay reads as `LookupLast3` says. */
  lemma OverlayOfThree(first: Env, second: Env, third: Env, key: string)
    ensures Get(Overlay([first, second, third]), key) == LookupLast3(first, second, third, key)
  {
    var layers := [first, second, third];
    OverlayIsLastWriterWins(layers, key);
    assert LookupLast(layers, key) == if key in third then Some(third[key]) else LookupLast(layers[..2], key);
    assert LookupLast(layers[..2], key) == if key in second then Some(second[key]) else LookupLast(layers[..2][..1], key);
  }

  /** The environment of one run of task `id`. */
  function ComposeEnv(id: string, platform: Env, cache: Env): (env: Env)
    ensures forall k :: k in env <==> k in LoggingDefaults(id) || k in platform || k in cache
    ensures forall k :: k in cache ==> env[k] == cache[k]
    ensures forall k :: k in platform && k !in cache ==> env[k] == platform[k]
    ensures forall k :: k in LoggingDefaults(id) && k !in platform && k !in cache ==>
              env[k] == LoggingDefaults(id)[k]
    ensures LogFormatKey !in platform && LogFormatKey !in cache ==> env[LogFormatKey] == "json"
    ensures LogLevelKey !in platform && LogLevelKey !in cache ==> env[LogLevelKey] == "debug"
    ensures LogContextKey !in platform && LogContextKey !in cache ==> env[LogContextKey] == id
    ensures ReportTypeKey !in platform && ReportTypeKey !in cache ==> env[ReportTypeKey] == "logging"
  {
    var layers := [LoggingDefaults(id), platform, cache];
    forall k ensures k in Overlay(layers) <==> LookupLast3(LoggingDefaults(id), platform, cache, k).Some?
             ensures k in Overlay(layers) ==> Overlay(layers)[k] == LookupLast3(LoggingDefaults(id), platform, cache, k).value
    {
      OverlayOfThree(LoggingDefaults(id), platform, cache, k);
    }
    Overlay(layers)
  }
}
