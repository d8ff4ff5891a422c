/** The shared statistics table of src/stats.c, with its operations run without
    interference.  WorkerPool takes the same operations apart into single stores
    and interleaves them. */
module StatsTable {
  const MAX_CLIENTS: nat := 128

  /** One connection slot.  Counters are unbounded: wrap-around at 2^64 is not modelled. */
  datatype Slot = Slot(active: bool, dest: nat, port: nat, pid: int, up: nat, down: nat, start: nat)

  const EMPTY := Slot(false, 0, 0, 0, 0, 0, 0)

  /** One row of a snapshot. */
  datatype Row = Row(dest: nat, port: nat, pid: int, up: nat, down: nat)

  /** A slot that a snapshot lists: active, with a pid the kernel still knows. */
  predicate Listed(x: Slot, known: set<int>) {
    x.active && x.pid > 1 && x.pid in known
  }

  function RowOf(x: Slot): Row {
    Row(x.dest, x.port, x.pid, x.up, x.down)
  }

  /** A row shows a slot field by field. */
  predicate RowShows(row: Row, x: Slot) {
    && row.dest == x.dest && row.port == x.port && row.pid == x.pid && row.up == x.up && row.down == x.down
  }

  /** The rows of the listed slots, in slot order. */
  function Rows(slots: seq<Slot>, known: set<int>): seq<Row> {
    if slots == [] then []
    else
      var last := slots[|slots| - 1];
      Rows(slots[..|slots| - 1], known) + (if Listed(last, known) then [RowOf(last)] else [])
  }

  /** The indices of the listed slots, in slot order. */
  function Listing(slots: seq<Slot>, known: set<int>): seq<nat> {
    if slots == [] then []
    else
      var n := |slots| - 1;
      Listing(slots[..n], known) + (if Listed(slots[n], known) then [n] else [])
  }

  /** `rows` has one row for every listed slot and no other, in the order of the slots. */
  predicate InSlotOrder(slots: seq<Slot>, known: set<int>, at: seq<nat>, rows: seq<Row>) {
    && |rows| == |at|
    && (forall k :: 0 <= k < |at| ==> at[k] < |slots| && Listed(slots[at[k]], known) && RowShows(rows[k], slots[at[k]]))
    && (forall j, k :: 0 <= j < k < |at| ==> at[j] < at[k])
    && (forall i: nat :: i < |slots| && Listed(slots[i], known) ==> i in at)
  }

  lemma OneSlotMore(slots: seq<Slot>, x: Slot, known: set<int>, at: seq<nat>, rows: seq<Row>)
    requires InSlotOrder(slots, known, at, rows)
    ensures if Listed(x, known) then InSlotOrder(slots + [x], known, at + [|slots|], rows + [RowOf(x)])
            else InSlotOrder(slots + [x], known, at, rows)
  {
  }

  /** The rows are those of the slots that are active with the pid of a process still known, one
      each and in the order of the slots. */
  lemma {:induction false} RowsInSlotOrder(slots: seq<Slot>, known: set<int>)
    ensures InSlotOrder(slots, known, Listing(slots, known), Rows(slots, known))
    ensures forall i: nat :: i in Listing(slots, known) <==>
      i < |slots| && slots[i].active && slots[i].pid > 1 && slots[i].pid in known
  {
    if slots != [] {
      var n := |slots| - 1;
      RowsInSlotOrder(slots[..n], known);
      OneSlotMore(slots[..n], slots[n], known, Listing(slots[..n], known), Rows(slots[..n], known));
      assert slots[..n] + [slots[n]] == slots;
      assert Listing(slots[..n], known) + [] == Listing(slots[..n], known);
      assert Rows(slots[..n], known) + [] == Rows(slots[..n], known);
    }
  }

  function RowsUp(rows: seq<Row>): nat {
    if rows == [] then 0 else RowsUp(rows[..|rows| - 1]) + rows[|rows| - 1].up
  }

  function RowsDown(rows: seq<Row>): nat {
    if rows == [] then 0 else RowsDown(rows[..|rows| - 1]) + rows[|rows| - 1].down
  }

  function SumUp(slots: seq<Slot>): nat {
    if slots == [] then 0 else SumUp(slots[..|slots| - 1]) + slots[|slots| - 1].up
  }

  function SumDown(slots: seq<Slot>): nat {
    if slots == [] then 0 else SumDown(slots[..|slots| - 1]) + slots[|slots| - 1].down
  }

  /** Replacing one slot moves the sums by exactly the difference in that slot. */
  lemma {:induction false} SumUpdate(slots: seq<Slot>, i: nat, x: Slot)
    requires i < |slots|
    ensures SumUp(slots[i := x]) + slots[i].up == SumUp(slots) + x.up
    ensures SumDown(slots[i := x]) + slots[i].down == SumDown(slots) + x.down
  {
    var n := |slots| - 1;
    if i == n {
      assert slots[i := x][..n] == slots[..n];
    } else {
      SumUpdate(slots[..n], i, x);
      assert slots[i := x][..n] == slots[..n][i := x];
    }
  }

  lemma {:induction false} SumsOfEmpty(slots: seq<Slot>)
    requires forall i :: 0 <= i < |slots| ==> slots[i] == EMPTY
    ensures SumUp(slots) == 0 && SumDown(slots) == 0
  {
    if slots != [] {
      SumsOfEmpty(slots[..|slots| - 1]);
    }
  }

  /** A snapshot never shows more bytes than its slots hold. */
  lemma {:induction false} RowsWithinSlots(slots: seq<Slot>, known: set<int>)
    ensures RowsUp(Rows(slots, known)) <= SumUp(slots)
    ensures RowsDown(Rows(slots, known)) <= SumDown(slots)
  {
    if slots != [] {
      var n := |slots| - 1;
      RowsWithinSlots(slots[..n], known);
      var front := Rows(slots[..n], known);
      if Listed(slots[n], known) {
        assert (front + [RowOf(slots[n])])[..|front|] == front;
      } else {
        assert front + [] == front;
      }
    }
  }

  /** The mapped table.  `self` is the calling process. */
  class StatsMap {
    var slots: array<Slot>
    var totalUp: nat
    var totalDown: nat

    ghost predicate Valid()
      reads this
    {
      slots.Length == MAX_CLIENTS
    }

    constructor ()
      ensures Valid() && fresh(slots)
      ensures forall i :: 0 <= i < MAX_CLIENTS ==> slots[i] == EMPTY
      ensures totalUp == 0 && totalDown == 0
    {
      slots := new Slot[MAX_CLIENTS](_ => EMPTY);
      totalUp, totalDown := 0, 0;
    }

    /** Takes the first inactive slot; -1 exactly when every slot is active. */
    method Claim(self: int, dest: nat, port: nat, now: nat) returns (index: int)
      requires Valid()
      modifies slots
      ensures -1 <= index < MAX_CLIENTS
      ensures index == -1 <==> forall i :: 0 <= i < MAX_CLIENTS ==> old(slots[i].active)
      ensures index == -1 ==> slots[..] == old(slots[..])
      ensures index >= 0 ==>
        && !old(slots[index].active)
        && (forall i :: 0 <= i < index ==> old(slots[i].active))
        && slots[..] == old(slots[..])[index := Slot(true, dest, port, self, 0, 0, now)]
    {
      var i := 0;
      while i < slots.Length
        invariant 0 <= i <= slots.Length
        invariant slots[..] == old(slots[..])
        invariant forall k :: 0 <= k < i ==> old(slots[k].active)
      {
        if !slots[i].active {
          slots[i] := slots[i].(active := true);
          slots[i] := slots[i].(dest := dest);
          slots[i] := slots[i].(port := port);
          slots[i] := slots[i].(pid := self);
          slots[i] := slots[i].(up := 0);
          slots[i] := slots[i].(down := 0);
          slots[i] := slots[i].(start := now);
          return i;
        }
        i := i + 1;
      }
      return -1;
    }

    /** Counts bytes on a slot and on the totals, if the slot is active and ours. */
    method Add(self: int, index: int, up: nat, down: nat)
      requires Valid()
      modifies this`totalUp, this`totalDown, slots
      ensures var mine := 0 <= index < MAX_CLIENTS && old(slots[index].active) && old(slots[index].pid) == self;
        if mine then
          && slots[..] == old(slots[..])[index := old(slots[index]).(up := old(slots[index].up) + up,
                                                                     down := old(slots[index].down) + down)]
          && totalUp == old(totalUp) + up && totalDown == old(totalDown) + down
        else
          slots[..] == old(slots[..]) && totalUp == old(totalUp) && totalDown == old(totalDown)
    {
      if index < 0 || index >= slots.Length {
        return;
      }
      if !slots[index].active || slots[index].pid != self {
        return;
      }
      if up > 0 {
        slots[index] := slots[index].(up := slots[index].up + up);
        totalUp := totalUp + up;
      }
      if down > 0 {
        slots[index] := slots[index].(down := slots[index].down + down);
        totalDown := totalDown + down;
      }
    }

    /** Empties a slot if it carries our pid. */
    method Release(self: int, index: int)
      requires Valid()
      modifies slots
      ensures slots[..] ==
        if 0 <= index < MAX_CLIENTS && old(slots[index].pid) == self
        then old(slots[..])[index := EMPTY] else old(slots[..])
    {
      if index < 0 || index >= slots.Length {
        return;
      }
      if slots[index].pid != self {
        return;
      }
      slots[index] := slots[index].(up := 0);
      slots[index] := slots[index].(down := 0);
      slots[index] := slots[index].(dest := 0);
      slots[index] := slots[index].(port := 0);
      slots[index] := slots[index].(pid := 0);
      slots[index] := slots[index].(start := 0);
      slots[index] := slots[index].(active := false);
    }

    /** Empties every active slot of one pid and no other slot. */
    method ClearPid(pid: int)
      requires Valid()
      modifies slots
      ensures forall i :: 0 <= i < MAX_CLIENTS ==>
        slots[i] == if pid > 1 && old(slots[i].active) && old(slots[i].pid) == pid then EMPTY else old(slots[i])
    {
      if pid <= 1 {
        return;
      }
      var i := 0;
      while i < slots.Length
        invariant 0 <= i <= slots.Length
        invariant forall k :: 0 <= k < i ==>
          slots[k] == if old(slots[k].active) && old(slots[k].pid) == pid then EMPTY else old(slots[k])
        invariant forall k :: i <= k < slots.Length ==> slots[k] == old(slots[k])
      {
        if slots[i].active && slots[i].pid == pid {
          slots[i] := slots[i].(up := 0);
          slots[i] := slots[i].(down := 0);
          slots[i] := slots[i].(dest := 0);
          slots[i] := slots[i].(port := 0);
          slots[i] := slots[i].(pid := 0);
          slots[i] := slots[i].(start := 0);
          slots[i] := slots[i].(active := false);
        }
        i := i + 1;
      }
    }

    /** Lists the active slots of processes the kernel still knows, in slot order. */
    method Snapshot(known: set<int>) returns (rows: seq<Row>, up: nat, down: nat)
      requires Valid()
      ensures rows == Rows(slots[..], known)
      ensures up == totalUp && down == totalDown
    {
      up, down := totalUp, totalDown;
      rows := [];
      var i := 0;
      while i < slots.Length
        invariant 0 <= i <= slots.Length
        invariant rows == Rows(slots[..i], known) && |rows| <= i
      {
        assert slots[..i + 1][..i] == slots[..i];
        if slots[i].active && slots[i].pid > 1 && slots[i].pid in known {
          if |rows| >= MAX_CLIENTS {
            break;
          }
          rows := rows + [RowOf(slots[i])];
        }
        i := i + 1;
      }
      assert slots[..slots.Length] == slots[..];
    }
  }
}
