/** The commands of src/operations.c as they run: the lock, then one effect after the other on
    the disk, the daemon and the NAT table, with the roll-backs. */
module Commands {
  import opened Wrappers
  import opened BypassLanguage
  import opened ConfigFile
  import opened NatTable
  import opened Operations
  import opened Transactions

  class Host {
    var disk: Option<string>
    var record: Option<Record>
    ghost var unsaved: bool
    const table: Nat

    ghost function State(): Sys
      reads this, table
    {
      Sys(disk, record, table.State(), unsaved)
    }

    constructor (table: Nat)
      ensures this.table == table && disk.None? && record.None? && !unsaved
    {
      this.table := table;
      disk, record, unsaved := None, None, false;
    }

    /** Something outside the program succeeds or fails. */
    method Chance() returns (ok: bool)
      modifies table
      ensures Result(State(), ok) == Flip(old(State()))
    {
      ok := table.luck != [] && table.luck[0];
      table.luck := if table.luck == [] then [] else table.luck[1..];
    }

    method ConfigLoad() returns (c: Option<Conf>)
      ensures c == LoadDisk(State())
    {
      c := if disk.Some? then LoadText(disk.value) else None;
    }

    method ConfigSave(c: Conf) returns (ok: bool)
      modifies this, table
      ensures Result(State(), ok) == Save(old(State()), c)
    {
      ok := Chance();
      if ok {
        disk := Some(SaveText(c));
      }
    }

    method RollBackSave(c: Conf)
      modifies this, table
      ensures State() == SaveBack(old(State()), c)
    {
      var saved := ConfigSave(c);
      unsaved := unsaved || LoadDisk(State()) != Some(c);
    }

    // ---- the daemon ----

    method StopTheDaemon() returns (ok: bool)
      modifies this, table
      ensures Result(State(), ok) == StopDaemon(old(State()))
    {
      var orderly := Chance();
      var killed := Chance();
      ok := Chance();
      if orderly {
        table.CleanUpAfterFailure();
        record := None;
      } else if (killed || ok) && record.Some? {
        record := Some(record.value.(live := false));
      }
      if ok {
        record := None;
      }
    }

    method RunProxy(c: Conf) returns (ready: bool)
      modifies this, table
      ensures Result(State(), ready) == ProxyRuns(old(State()), c)
    {
      ready := Chance();
      if !ready {
        return;
      }
      ready := Chance();
      if ready {
        ready := table.EnableFirewall(c);
      }
      if ready {
        record := Some(Record(ProxyOf(c), true));
      } else {
        record := None;
        var disabled := table.DisableFirewall();
      }
    }

    method RunDaemon() returns (ready: bool)
      modifies this, table
      ensures Result(State(), ready) == DaemonStarts(old(State()))
    {
      var c := ConfigLoad();
      if c.None? {
        return false;
      }
      ghost var stuck := table.stuck;
      ready := RunProxy(c.value);
      var inTime := Chance();
      ready := ready && inTime;
      if !ready {
        var disabled := table.DisableFirewall();
        table.stuck := stuck;
        record := None;
      }
    }

    method DaemonMatches(c: Conf) returns (yes: bool)
      ensures yes == ServedBy(State(), c)
    {
      yes := record == Some(Record(ProxyOf(c), true));
    }

    method StartTheDaemon(c: Conf) returns (ok: bool)
      modifies this, table
      ensures Result(State(), ok) == StartDaemon(old(State()), c)
    {
      ok := DaemonMatches(c);
      if ok {
        return;
      }
      ok := StopTheDaemon();
      if !ok {
        return;
      }
      ok := Chance();
      if ok {
        ok := RunDaemon();
      }
    }

    // ---- the operations ----

    /** activate_proxy_locked. */
    method ActivateProxy(c: Conf) returns (ok: bool)
      modifies this, table
      ensures Result(State(), ok) == Activate(old(State()), c)
      ensures LoadDisk(old(State())) == Some(c) && Consistent(old(State())) ==>
        (ok ==> Running(State(), c)) && (State().m.stuck || Consistent(State()))
    {
      if LoadDisk(State()) == Some(c) && Consistent(State()) {
        ActivateDisk(State(), c);
      }
      var matches := DaemonMatches(c);
      var enabled := table.IsFirewallEnabled(c);
      if matches && enabled {
        return true;
      }
      if record.Some? {
        var stopped := StopTheDaemon();
        if !stopped {
          return false;
        }
      }
      ok := table.DisableFirewall();
      if ok {
        ok := StartTheDaemon(c);
      }
      if !ok {
        table.CleanUpAfterFailure();
      }
    }

    /** fp_enable_proxy with the lock held and the address parsed. */
    method EnableParsed(p: Endpoint) returns (ok: bool)
      modifies this, table
      ensures Result(State(), ok) == EnableEndpoint(old(State()), p)
      ensures Consistent(old(State())) && 1 <= p.port <= 65535 ==>
        Settled(State()) && (ok ==> Switched(old(State()), State(), p))
    {
      if Consistent(State()) && 1 <= p.port <= 65535 {
        EnableEndpointEffect(State(), p);
      }
      var previous := ConfigLoad();
      var c := WithProxy(previous, p);
      var wasRunning := record.Some?;
      ok := ConfigSave(c);
      if !ok {
        return;
      }
      ok := ActivateProxy(c);
      if !ok && previous.Some? {
        RollBackSave(previous.value);
        if wasRunning {
          var restored := ActivateProxy(previous.value);
        }
      }
    }

    /** fp_enable_proxy. */
    method Enable(proxy: string) returns (ok: bool)
      modifies this, table
      ensures Result(State(), ok) == EnableProxy(old(State()), proxy)
      ensures Consistent(old(State())) ==> Settled(State())
      ensures Consistent(old(State())) && ok ==>
        ParseProxy(proxy).Some? && Switched(old(State()), State(), ParseProxy(proxy).value)
    {
      if Consistent(State()) {
        EnableProxyEffect(State(), proxy);
      }
      var locked := Chance();
      if !locked {
        return false;
      }
      var parsed := ParseProxy(proxy);
      if parsed.None? {
        return false;
      }
      ok := EnableParsed(parsed.value);
    }

    /** fp_enable_saved_proxy. */
    method EnableSavedProxy() returns (ok: bool)
      modifies this, table
      ensures Result(State(), ok) == EnableSaved(old(State()))
      ensures Consistent(old(State())) ==> State().m.stuck || Consistent(State())
      ensures Consistent(old(State())) && ok ==>
        LoadDisk(old(State())).Some? && Running(State(), LoadDisk(old(State())).value)
    {
      if Consistent(State()) {
        EnableSavedEffect(State());
      }
      var locked := Chance();
      var c := ConfigLoad();
      if !locked || c.None? {
        return false;
      }
      ok := ActivateProxy(c.value);
    }

    /** fp_set_bypass. */
    method ChangeBypass(list: string) returns (ok: bool)
      modifies this, table
      ensures Result(State(), ok) == SetBypass(old(State()), list)
      ensures Consistent(old(State())) ==> Settled(State())
      ensures Consistent(old(State())) && ok ==>
        && ParseList(list).Some? && LoadDisk(old(State())).Some?
        && LoadDisk(State()) == Some(LoadDisk(old(State())).value.(bypass := ParseList(list).value))
    {
      if Consistent(State()) {
        SetBypassEffect(State(), list);
      }
      var locked := Chance();
      var previous := ConfigLoad();
      if !locked || previous.None? {
        return false;
      }
      var parsed := ParseList(list);
      if parsed.None? {
        return false;
      }
      var c := previous.value.(bypass := parsed.value);
      var wasRunning := record.Some?;
      ok := ConfigSave(c);
      if ok && wasRunning {
        ok := table.EnableFirewall(c);
      }
      if !ok {
        RollBackSave(previous.value);
        if wasRunning {
          var restored := table.EnableFirewall(previous.value);
        }
      }
    }

    /** fp_disable_proxy. */
    method Disable() returns (ok: bool)
      modifies this, table
      ensures Result(State(), ok) == DisableProxy(old(State()))
      ensures Consistent(old(State())) ==> State().m.stuck || Consistent(State())
      ensures Consistent(old(State())) && ok ==> record.None? && !InEffect(State().m.table)
    {
      if Consistent(State()) {
        DisableProxyEffect(State());
      }
      var locked := Chance();
      if !locked {
        return false;
      }
      var stopped := StopTheDaemon();
      var disabled := table.DisableFirewall();
      if !disabled {
        table.stuck := true;
      }
      ok := stopped && disabled;
    }
  }
}
