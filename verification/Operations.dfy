/** The commands of src/operations.c over the three things they change: the configuration on
    disk, the daemon with its pid record, and the NAT table.  The daemon is modelled by its
    start and stop contracts (src/process.c); every outcome outside the program's control
    is taken from the machine's `luck`. */
module Operations {
  import opened Wrappers
  import opened BypassLanguage
  import opened ConfigFile
  import opened Firewall

  /** The pid record: the proxy its daemon serves, and whether that daemon still runs. */
  datatype Record = Record(proxy: Endpoint, live: bool)

  /** `unsaved` is history: a rollback could not restore the configuration on disk. */
  datatype Sys = Sys(disk: Option<string>, record: Option<Record>, m: Machine, unsaved: bool)

  datatype Result = Result(s: Sys, ok: bool)

  function ProxyOf(c: Conf): Endpoint {
    Endpoint(c.addr, c.port)
  }

  /** One outcome that the program does not control. */
  function Flip(s: Sys): Result {
    var luck := s.m.luck;
    Result(s.(m := s.m.(luck := if luck == [] then [] else luck[1..])), luck != [] && luck[0])
  }

  function LoadDisk(s: Sys): Option<Conf> {
    match s.disk
    case None => None
    case Some(file) => LoadText(file)
  }

  /** fp_config_save: the file is replaced in one step or not at all. */
  function Save(s: Sys, c: Conf): Result {
    var r := Flip(s);
    if r.ok then Result(r.s.(disk := Some(SaveText(c))), true) else r
  }

  /** A roll-back save, whose result the caller ignores. */
  function SaveBack(s: Sys, c: Conf): Sys {
    var r := Save(s, c);
    r.s.(unsaved := s.unsaved || LoadDisk(r.s) != Some(c))
  }

  // ---- the daemon ----

  /** The daemon ends in an orderly way: it removes its record and disables the firewall. */
  function DaemonExits(s: Sys): Sys {
    s.(record := None, m := CleanUp(s.m))
  }

  /** The daemon is killed: its record stays behind. */
  function DaemonDies(s: Sys): Sys {
    if s.record.Some? then s.(record := Some(s.record.value.(live := false))) else s
  }

  /** fp_stop_daemon.  On success the daemon is gone and so is its record; on failure the
      daemon may or may not have ended. */
  function StopDaemon(s: Sys): Result {
    var orderly := Flip(s);
    var killed := Flip(orderly.s);
    var stopped := Flip(killed.s);
    var after :=
      if orderly.ok then DaemonExits(stopped.s)
      else if killed.ok || stopped.ok then DaemonDies(stopped.s)
      else stopped.s;
    if stopped.ok then Result(after.(record := None), true) else Result(after, false)
  }

  /** fp_proxy_run up to its ready signal: it listens, writes its record and enables the firewall;
      when one of the last two fails it removes the record and disables the firewall. */
  function ProxyRuns(s: Sys, c: Conf): Result {
    var listening := Flip(s);
    if !listening.ok then listening
    else
      var recorded := Flip(listening.s);
      var enabled := if recorded.ok then Enable(recorded.s.m, c) else Outcome(recorded.s.m, false);
      if enabled.ok then Result(recorded.s.(record := Some(Record(ProxyOf(c), true)), m := enabled.m), true)
      else Result(recorded.s.(record := None, m := Disable(enabled.m).m), false)
  }

  /** The new daemon from its start to the ready signal: it runs the configuration on disk, and
      when it fails or is told to stop before it is ready, it disables the firewall and exits. */
  function DaemonStarts(s: Sys): Result {
    match LoadDisk(s)
    case None => Result(s, false)
    case Some(c) =>
      var run := ProxyRuns(s, c);
      var inTime := Flip(run.s);
      if run.ok && inTime.ok then Result(inTime.s, true)
      else Result(DaemonGivesUp(inTime.s, s.m.stuck), false)
  }

  /** Its exit; whether that could disable the firewall is left to the parent's clean-up. */
  function DaemonGivesUp(s: Sys, stuck: bool): Sys {
    s.(record := None, m := Disable(s.m).m.(stuck := stuck))
  }

  predicate ServedBy(s: Sys, c: Conf) {
    s.record == Some(Record(ProxyOf(c), true))
  }

  /** fp_start_daemon. */
  function StartDaemon(s: Sys, c: Conf): Result {
    if ServedBy(s, c) then Result(s, true)
    else
      var cleared := StopDaemon(s);
      if !cleared.ok then cleared
      else
        var spawned := Flip(cleared.s);
        if spawned.ok then DaemonStarts(spawned.s) else spawned
  }

  // ---- the operations ----

  /** activate_proxy_locked. */
  function Activate(s: Sys, c: Conf): Result {
    if ServedBy(s, c) && IsEnabled(s.m.table, c) then Result(s, true)
    else
      var stopped := if s.record.Some? then StopDaemon(s) else Result(s, true);
      if !stopped.ok then stopped
      else
        var disabled := Disable(stopped.s.m);
        var s1 := stopped.s.(m := disabled.m);
        var started := if disabled.ok then StartDaemon(s1, c) else Result(s1, false);
        if started.ok then started else Result(started.s.(m := CleanUp(started.s.m)), false)
  }

  /** The configuration with another proxy; the bypass list stays. */
  function WithProxy(previous: Option<Conf>, p: Endpoint): Conf {
    Conf(p.addr, p.port, if previous.Some? then previous.value.bypass else [])
  }

  /** fp_enable_proxy, once it holds the lock and has parsed the address. */
  function EnableEndpoint(s: Sys, p: Endpoint): Result {
    var previous := LoadDisk(s);
    var c := WithProxy(previous, p);
    var saved := Save(s, c);
    if !saved.ok then saved
    else
      var active := Activate(saved.s, c);
      if active.ok || previous.None? then active
      else
        var back := SaveBack(active.s, previous.value);
        Result(if s.record.Some? then Activate(back, previous.value).s else back, false)
  }

  function EnableProxy(s: Sys, text: string): Result {
    var locked := Flip(s);
    if !locked.ok then locked
    else
      match ParseProxy(text)
      case None => Result(locked.s, false)
      case Some(p) => EnableEndpoint(locked.s, p)
  }

  /** fp_enable_saved_proxy. */
  function EnableSaved(s: Sys): Result {
    var locked := Flip(s);
    if !locked.ok then locked
    else
      match LoadDisk(locked.s)
      case None => Result(locked.s, false)
      case Some(c) => Activate(locked.s, c)
  }

  function EnableOn(s: Sys, c: Conf): Result {
    var r := Enable(s.m, c);
    Result(s.(m := r.m), r.ok)
  }

  /** fp_set_bypass, once it has loaded the old and parsed the new list. */
  function ReplaceBypass(s: Sys, previous: Conf, c: Conf): Result {
    var saved := Save(s, c);
    var applied := if saved.ok && s.record.Some? then EnableOn(saved.s, c) else saved;
    if applied.ok then applied
    else
      var back := SaveBack(applied.s, previous);
      Result(if s.record.Some? then EnableOn(back, previous).s else back, false)
  }

  function SetBypass(s: Sys, text: string): Result {
    var locked := Flip(s);
    if !locked.ok then locked
    else
      match LoadDisk(locked.s)
      case None => Result(locked.s, false)
      case Some(previous) =>
        match ParseList(text)
        case None => Result(locked.s, false)
        case Some(es) => ReplaceBypass(locked.s, previous, previous.(bypass := es))
  }

  /** fp_disable_proxy. */
  function DisableProxy(s: Sys): Result {
    var locked := Flip(s);
    if !locked.ok then locked
    else
      var stopped := StopDaemon(locked.s);
      var disabled := Disable(stopped.s.m);
      Result(stopped.s.(m := CleanUp(stopped.s.m)), stopped.ok && disabled.ok)
  }

  /** What can happen between two rest points: a command, or the daemon ending by itself. */
  datatype Event =
    | DoEnable(proxy: string) | DoEnableSaved | DoSetBypass(list: string) | DoDisable
    | DaemonCrash | DaemonQuit

  function Perform(s: Sys, e: Event): Result {
    match e
    case DoEnable(text) => EnableProxy(s, text)
    case DoEnableSaved => EnableSaved(s)
    case DoSetBypass(text) => SetBypass(s, text)
    case DoDisable => DisableProxy(s)
    case DaemonCrash => Result(DaemonDies(s), true)
    case DaemonQuit => Result(if s.record.Some? && s.record.value.live then DaemonExits(s) else s, true)
  }

  function PerformAll(s: Sys, events: seq<Event>): Sys
    decreases |events|
  {
    if events == [] then s else PerformAll(Perform(s, events[0]).s, events[1..])
  }
}
