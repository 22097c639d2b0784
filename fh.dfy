/**
  Frequency hopping control surface of the ADRV9001 (adi_adrv9001_fh.h).

  The device keeps, in its ARM memory, two ping-pong hop tables A and B of at
  most 64 hop frames each, a selector saying which table drives hopping, the
  global FH configuration, and a three-slot lookahead window (current frame,
  upcoming frame, next frame) that advances by one frame at every hop edge.
  `FhDevice` is that device-held state; its methods are the API functions,
  each one atomic step that returns an action code. The outcome of each
  transport step a call makes (mailbox command, direct buffer write or read,
  register write) is a parameter: a failed step is reported as the call's
  action code, changes nothing itself and stops the call. Only
  `HopTableConfigure` has a step that can succeed before a later one fails:
  when the direct write succeeds and the mailbox command fails, the staging
  buffer holds the new frames and `load` records `Staged`, while the hop
  tables stay as they were.
 */
module Fh {
  import opened Adrv9001Common

  /** Capacity of one hop table in ARM memory. */
  const MaxHopTableSize: nat := 64

  /** FH_HOP_TABLE_A or FH_HOP_TABLE_B. */
  datatype TableId = TableA | TableB {
    /** The ping-pong partner of this table. */
    function Other(): (t: TableId)
      ensures t != this
    {
      if this == TableA then TableB else TableA
    }
  }

  /** The three lookahead slots the device maintains. */
  datatype FrameIndex = Current | Upcoming | Next

  /** One hop frame; its fields are defined in adi_adrv9001_fh_types.h, which is not part of this model. */
  datatype HopFrame = HopFrame(fields: seq<int>)

  /** The global FH configuration; its fields are defined in adi_adrv9001_fh_types.h, which is not part of this model. */
  datatype FhCfg = FhCfg(fields: seq<int>)

  /**
    The lookahead window: the frames for the current hop, the next hop edge
    and the edge after that, and the position in the active table of the
    frame that enters the window at the next hop edge.
   */
  datatype Window = Window(current: HopFrame, upcoming: HopFrame, next: HopFrame, nextIndex: nat) {
    function Slot(i: FrameIndex): HopFrame
    {
      match i
      case Current => current
      case Upcoming => upcoming
      case Next => next
    }
  }

  /** The table position after `i`, wrapping around a table of `n` frames. */
  function Succ(i: nat, n: nat): (j: nat)
    requires i < n
    ensures j < n
    ensures j == (i + 1) % n
  {
    if i + 1 == n then 0 else i + 1
  }

  /** Consecutive multiples of `n` are at least `n` apart. */
  lemma MulLess(a: nat, b: nat, n: nat)
    requires a < b
    ensures a * n + n <= b * n
  {
    assert b * n == a * n + (b - a - 1) * n + n;
  }

  /** Division with remainder is unique. */
  lemma ModUnique(x: nat, n: nat, q: nat, r: nat)
    requires r < n && x == q * n + r
    ensures x % n == r
  {
    var q' := x / n;
    assert x == q' * n + x % n;
    if q' < q {
      MulLess(q', q, n);
    } else if q < q' {
      MulLess(q, q', n);
    }
  }

  /** Stepping one position on from a wrapped position is wrapping one position further. */
  lemma ModStep(a: nat, n: nat)
    requires n > 0
    ensures (a % n + 1) % n == (a + 1) % n
  {
    var q := a / n;
    var r := a % n;
    if r + 1 < n {
      ModUnique(a + 1, n, q, r + 1);
      ModUnique(r + 1, n, 0, r + 1);
    } else {
      ModUnique(a + 1, n, q + 1, 0);
      ModUnique(r + 1, n, 1, 0);
    }
  }

  /** `j` table positions after `i`, wrapping around a table of `n` frames. */
  function Walk(i: nat, n: nat, j: nat): (k: nat)
    requires i < n
    ensures k < n
    ensures k == (i + j) % n
  {
    if j == 0 then
      ModUnique(i, n, 0, i);
      i
    else
      ModStep(i + j - 1, n);
      Succ(Walk(i, n, j - 1), n)
  }

  /**
    Where the device picks up the table at the next hop edge: its recorded
    position, or the first frame when a shorter table was loaded since.
   */
  function Start(w: Window, table: seq<HopFrame>): nat
  {
    if w.nextIndex < |table| then w.nextIndex else 0
  }

  /** One hop edge driven by a non-empty active table: the window slides by one frame. */
  function Advance(w: Window, table: seq<HopFrame>): Window
    requires |table| > 0
  {
    var k := Start(w, table);
    Window(w.upcoming, w.next, table[k], Succ(k, |table|))
  }

  /** `m` successive hop edges on the same table. */
  function Hops(w: Window, table: seq<HopFrame>, m: nat): Window
    requires |table| > 0
  {
    if m == 0 then w else Advance(Hops(w, table, m - 1), table)
  }

  /**
    The window is aligned with the table at position i: its three slots hold
    the table's frames i, i+1 and i+2 (wrapping around the table), and the
    frame that comes in next is frame i+3.
   */
  predicate Aligned(w: Window, table: seq<HopFrame>, i: nat)
  {
    var n := |table|;
    && i < n
    && w.current == table[i]
    && w.upcoming == table[Succ(i, n)]
    && w.next == table[Succ(Succ(i, n), n)]
    && w.nextIndex == Succ(Succ(Succ(i, n), n), n)
  }

  /** After a hop edge the new current frame is the old upcoming one and the new upcoming frame is the old next one. */
  lemma AdvanceShifts(w: Window, table: seq<HopFrame>)
    requires |table| > 0
    ensures Advance(w, table).Slot(Current) == w.Slot(Upcoming)
    ensures Advance(w, table).Slot(Upcoming) == w.Slot(Next)
    ensures Advance(w, table).Slot(Next) == table[Start(w, table)]
    ensures Advance(w, table).nextIndex < |table|
  {
  }

  /** A hop edge keeps an aligned window aligned, one table position further on. */
  lemma AdvanceKeepsAlignment(w: Window, table: seq<HopFrame>, i: nat)
    requires Aligned(w, table, i)
    ensures Aligned(Advance(w, table), table, Succ(i, |table|))
  {
  }

  /**
    Three hop edges on one table fill the window from it: whatever the window
    held before, afterwards it shows three consecutive frames of the table,
    starting where the device picked the table up.
   */
  lemma ThreeHopsAlign(w: Window, table: seq<HopFrame>)
    requires |table| > 0
    ensures Aligned(Hops(w, table, 3), table, Start(w, table))
  {
    var n := |table|;
    var k := Start(w, table);
    var w1 := Advance(w, table);
    assert w1.next == table[k] && w1.nextIndex == Succ(k, n);
    var w2 := Advance(w1, table);
    assert w2.upcoming == table[k] && w2.next == table[Succ(k, n)];
    var w3 := Advance(w2, table);
    assert Hops(w, table, 1) == w1;
    assert Hops(w, table, 2) == w2;
    assert Hops(w, table, 3) == w3;
  }

  /** From the third hop edge on, the window stays aligned with the table, one position further per hop. */
  lemma {:induction false} AlignedAfterHops(w: Window, table: seq<HopFrame>, m: nat)
    requires |table| > 0 && m >= 3
    ensures Start(w, table) < |table|
    ensures Aligned(Hops(w, table, m), table, Walk(Start(w, table), |table|, m - 3))
  {
    if m == 3 {
      ThreeHopsAlign(w, table);
    } else {
      AlignedAfterHops(w, table, m - 1);
      AdvanceKeepsAlignment(Hops(w, table, m - 1), table, Walk(Start(w, table), |table|, m - 4));
    }
  }

  /** Number of entries a read-back of `table` into a buffer of `capacity` frames delivers. */
  function ReadCount(table: seq<HopFrame>, capacity: nat): nat
  {
    if |table| <= capacity then |table| else capacity
  }

  /** The caller's buffer after a read-back: the table's leading entries, then the buffer's own old contents. */
  function ReadBack(buffer: seq<HopFrame>, table: seq<HopFrame>, capacity: nat): seq<HopFrame>
    requires capacity <= |buffer|
  {
    var k := ReadCount(table, capacity);
    table[..k] + buffer[k..]
  }

  /** A read-back never writes past `capacity` and delivers a prefix of the table, as many entries as it reports. */
  lemma ReadBackBounded(buffer: seq<HopFrame>, table: seq<HopFrame>, capacity: nat)
    requires capacity <= |buffer|
    ensures ReadCount(table, capacity) <= capacity && ReadCount(table, capacity) <= |table|
    ensures |ReadBack(buffer, table, capacity)| == |buffer|
    ensures forall i :: 0 <= i < ReadCount(table, capacity) ==> ReadBack(buffer, table, capacity)[i] == table[i]
    ensures forall i :: ReadCount(table, capacity) <= i < |buffer| ==> ReadBack(buffer, table, capacity)[i] == buffer[i]
  {
  }

  /** A buffer with room for the whole table receives exactly the whole table. */
  lemma ReadBackWhole(buffer: seq<HopFrame>, table: seq<HopFrame>, capacity: nat)
    requires |table| <= capacity <= |buffer|
    ensures ReadCount(table, capacity) == |table|
    ensures ReadBack(buffer, table, capacity)[..|table|] == table
  {
  }

  /** True when some channel enabled for frequency hopping is PRIMED (or already RF_ENABLED). */
  predicate HopArmed(channels: seq<Channel>)
  {
    exists i :: 0 <= i < |channels| && channels[i].fhEnabled && channels[i].state in {Primed, RfEnabled}
  }

  /**
    Progress of the last hop-table load: `Staged` when the frames were written
    into the device's staging buffer but the mailbox command that commits them
    failed, `Committed` when the table took them.
   */
  datatype TableLoad = Idle | Staged(table: TableId, count: nat) | Committed(table: TableId, count: nat)

  /** Copy the first `n` frames of `src` into `dst`, leaving the rest of `dst` alone. */
  method CopyFrames(src: array<HopFrame>, dst: array<HopFrame>, n: nat)
    requires n <= src.Length && n <= dst.Length
    requires src != dst
    modifies dst
    ensures dst[..n] == src[..n]
    ensures dst[n..] == old(dst[n..])
  {
    var i := 0;
    while i < n
      invariant 0 <= i <= n
      invariant forall k :: 0 <= k < i ==> dst[k] == src[k]
      invariant forall k :: i <= k < dst.Length ==> dst[k] == old(dst[k])
    {
      dst[i] := src[i];
      i := i + 1;
    }
  }

  class FhDevice {
    /** Hop table A in ARM memory (64 slots, the first `lenA` in use). */
    const tableA: array<HopFrame>
    /** Hop table B in ARM memory (64 slots, the first `lenB` in use). */
    const tableB: array<HopFrame>
    /** ARM memory the host writes table frames into directly, before the mailbox command that loads them. */
    const staging: array<HopFrame>
    var lenA: nat
    var lenB: nat
    var load: TableLoad
    /** The table that drives hopping. */
    var active: TableId
    /** The applied FH configuration. */
    var config: FhCfg
    var window: Window

    ghost predicate Valid()
      reads this
    {
      && tableA.Length == MaxHopTableSize
      && tableB.Length == MaxHopTableSize
      && staging.Length == MaxHopTableSize
      && lenA <= MaxHopTableSize
      && lenB <= MaxHopTableSize
      && tableA != tableB && tableA != staging && tableB != staging
    }

    /** True when `a` is a host buffer, not device memory. */
    predicate HostBuffer(a: array<HopFrame>)
    {
      a != tableA && a != tableB && a != staging
    }

    function Memory(t: TableId): array<HopFrame>
    {
      if t == TableA then tableA else tableB
    }

    function Length(t: TableId): nat
      reads this
    {
      if t == TableA then lenA else lenB
    }

    /** The frames table `t` currently holds. */
    function Table(t: TableId): seq<HopFrame>
      reads this, tableA, tableB
      requires Valid()
    {
      Memory(t)[..Length(t)]
    }

    /** The device after initialization: both tables empty, table A active, the window holding `initialFrame`. */
    constructor (initialConfig: FhCfg, initialFrame: HopFrame)
      ensures Valid()
      ensures fresh(tableA) && fresh(tableB) && fresh(staging)
      ensures Table(TableA) == [] && Table(TableB) == []
      ensures active == TableA && config == initialConfig && load == Idle
      ensures window == Window(initialFrame, initialFrame, initialFrame, 0)
    {
      tableA := new HopFrame[MaxHopTableSize];
      tableB := new HopFrame[MaxHopTableSize];
      staging := new HopFrame[MaxHopTableSize];
      lenA, lenB := 0, 0;
      load := Idle;
      active := TableA;
      config := initialConfig;
      window := Window(initialFrame, initialFrame, initialFrame, 0);
    }

    /** adi_adrv9001_fh_Configure: applies `fhConfig`, only while every channel is in STANDBY. */
    method Configure(fhConfig: FhCfg, channels: seq<Channel>, transport: ActionCode) returns (action: ActionCode)
      requires Valid()
      modifies this`config
      ensures Valid()
      ensures action == (if AllStandby(channels) then transport else CheckParam)
      ensures config == (if action == NoAction then fhConfig else old(config))
    {
      if !AllStandby(channels) {
        return CheckParam;
      }
      action := transport;
      if action == NoAction {
        config := fhConfig;
      }
    }

    /** adi_adrv9001_fh_Configuration_Inspect: reports the applied configuration. */
    method ConfigurationInspect(transport: ActionCode) returns (action: ActionCode, fhConfig: FhCfg)
      ensures action == transport
      ensures action == NoAction ==> fhConfig == config
    {
      action := transport;
      fhConfig := if action == NoAction then config else FhCfg([]);
    }

    /**
      adi_adrv9001_fh_HopTable_Configure: a size above 64 is refused; otherwise
      the frames are written into the staging buffer (`bulkWrite`) and a
      mailbox command (`mailbox`) makes the ARM load them into table `tableId`.
      The other table, the active selection and the window are never touched.
     */
    method HopTableConfigure(tableId: TableId, hopTable: array<HopFrame>, hopTableSize: u32,
                             bulkWrite: ActionCode, mailbox: ActionCode) returns (action: ActionCode)
      requires Valid() && HostBuffer(hopTable)
      requires hopTableSize as int <= MaxHopTableSize ==> hopTableSize as int <= hopTable.Length
      modifies this`lenA, this`lenB, this`load, staging, Memory(tableId)
      ensures Valid()
      ensures action == (if hopTableSize as int > MaxHopTableSize then CheckParam
                         else if bulkWrite != NoAction then bulkWrite
                         else mailbox)
      ensures Table(tableId.Other()) == old(Table(tableId.Other()))
      ensures active == old(active) && window == old(window) && config == old(config)
      ensures action == NoAction ==> Table(tableId) == hopTable[..hopTableSize] && load == Committed(tableId, hopTableSize as nat)
      ensures action != NoAction ==> Table(tableId) == old(Table(tableId))
      ensures hopTableSize as int > MaxHopTableSize || bulkWrite != NoAction ==>
                load == old(load) && staging[..] == old(staging[..])
      ensures hopTableSize as int <= MaxHopTableSize && bulkWrite == NoAction ==>
                staging[..hopTableSize] == hopTable[..hopTableSize]
      ensures hopTableSize as int <= MaxHopTableSize && bulkWrite == NoAction && mailbox != NoAction ==>
                load == Staged(tableId, hopTableSize as nat)
    {
      if hopTableSize as int > MaxHopTableSize {
        return CheckParam;
      }
      if bulkWrite != NoAction {
        return bulkWrite;
      }
      var n := hopTableSize as nat;
      CopyFrames(hopTable, staging, n);
      if mailbox != NoAction {
        load := Staged(tableId, n);
        return mailbox;
      }
      CopyFrames(staging, Memory(tableId), n);
      if tableId == TableA {
        lenA := n;
      } else {
        lenB := n;
      }
      load := Committed(tableId, n);
      action := NoAction;
      assert Table(tableId) == staging[..n];
    }

    /**
      adi_adrv9001_fh_HopTable_Inspect: a mailbox command (`mailbox`) has the
      ARM stage table `tableId`, and a direct read (`bulkRead`) copies at most
      `hopTableSize` of its frames into the caller's array. `wantCount` is false
      when the caller passes a null `numEntriesRead`.
     */
    method HopTableInspect(tableId: TableId, hopTable: array<HopFrame>, hopTableSize: u32, wantCount: bool,
                           mailbox: ActionCode, bulkRead: ActionCode)
      returns (action: ActionCode, numEntriesRead: Option<u32>)
      requires Valid() && HostBuffer(hopTable)
      requires hopTableSize as int <= hopTable.Length
      modifies hopTable
      ensures action == (if mailbox != NoAction then mailbox else bulkRead)
      ensures action == NoAction ==> hopTable[..] == ReadBack(old(hopTable[..]), Table(tableId), hopTableSize as nat)
      ensures action != NoAction ==> hopTable[..] == old(hopTable[..])
      ensures numEntriesRead == if wantCount && action == NoAction
                                then Some(ReadCount(Table(tableId), hopTableSize as nat) as u32)
                                else None
    {
      numEntriesRead := None;
      if mailbox != NoAction {
        return mailbox, None;
      }
      if bulkRead != NoAction {
        return bulkRead, None;
      }
      var n := if Length(tableId) <= hopTableSize as nat then Length(tableId) else hopTableSize as nat;
      ghost var table := Table(tableId);
      assert n == ReadCount(table, hopTableSize as nat);
      CopyFrames(Memory(tableId), hopTable, n);
      assert Table(tableId) == table;  // the host buffer is not device memory
      assert hopTable[..] == hopTable[..n] + hopTable[n..];
      assert hopTable[..] == ReadBack(old(hopTable[..]), table, hopTableSize as nat);
      action := NoAction;
      if wantCount {
        numEntriesRead := Some(n as u32);
      }
    }

    /**
      adi_adrv9001_fh_HopTable_Set: makes `tableId` the table that drives
      hopping. A real switch takes effect for the frames that enter the window
      from then on, starting at the new table's first frame; selecting the
      table that is already active changes nothing.
     */
    method HopTableSet(tableId: TableId, transport: ActionCode) returns (action: ActionCode)
      requires Valid()
      modifies this`active, this`window
      ensures Valid()
      ensures action == transport
      ensures action == NoAction ==> active == tableId
      ensures action == NoAction && old(active) != tableId ==> window == old(window).(nextIndex := 0)
      ensures action != NoAction || old(active) == tableId ==> active == old(active) && window == old(window)
    {
      action := transport;
      if action == NoAction && active != tableId {
        active := tableId;
        window := window.(nextIndex := 0);
      }
    }

    /** adi_adrv9001_fh_HopTable_Get: reports the table in use. */
    method HopTableGet(transport: ActionCode) returns (action: ActionCode, tableId: TableId)
      ensures action == transport
      ensures action == NoAction ==> tableId == active
    {
      action := transport;
      tableId := if action == NoAction then active else TableA;
    }

    /** adi_adrv9001_fh_FrameInfo_Inspect: reports one slot of the lookahead window, changing nothing. */
    method FrameInfoInspect(frameIndex: FrameIndex, transport: ActionCode) returns (action: ActionCode, hopFrame: HopFrame)
      ensures action == transport
      ensures action == NoAction ==> hopFrame == window.Slot(frameIndex)
    {
      action := transport;
      hopFrame := if action == NoAction then window.Slot(frameIndex) else HopFrame([]);
    }

    /**
      adi_adrv9001_fh_Hop: the hop signal, one register write (`transport`).
      The device acts on it only when some channel enabled for frequency
      hopping is PRIMED or RF_ENABLED (and the active table has frames);
      otherwise the call has no effect and, unlike the other functions,
      reports no recovery action for the unmet precondition.
     */
    method Hop(channels: seq<Channel>, transport: ActionCode) returns (action: ActionCode)
      requires Valid()
      modifies this`window
      ensures Valid()
      ensures action == transport
      ensures !HopArmed(channels) ==> window == old(window)
      ensures window == if transport == NoAction && HopArmed(channels) && Length(active) > 0
                        then Advance(old(window), Table(active))
                        else old(window)
    {
      action := transport;
      if transport == NoAction && HopArmed(channels) && Length(active) > 0 {
        window := Advance(window, Table(active));
      }
    }
  }

  /** Loading a table and reading it back into any buffer with room for it yields exactly the frames loaded, and their number. */
  method LoadThenReadBack(dev: FhDevice, tableId: TableId, frames: array<HopFrame>, n: u32,
                          buffer: array<HopFrame>, capacity: u32)
    returns (numEntriesRead: Option<u32>)
    requires dev.Valid() && dev.HostBuffer(frames) && dev.HostBuffer(buffer) && frames != buffer
    requires n as int <= MaxHopTableSize && n as int <= frames.Length
    requires n <= capacity && capacity as int <= buffer.Length
    modifies dev`lenA, dev`lenB, dev`load, dev.staging, dev.Memory(tableId), buffer
    ensures dev.Valid()
    ensures buffer[..n] == frames[..n]
    ensures numEntriesRead == Some(n)
  {
    var a := dev.HopTableConfigure(tableId, frames, n, NoAction, NoAction);
    a, numEntriesRead := dev.HopTableInspect(tableId, buffer, capacity, true, NoAction, NoAction);
    ReadBackWhole(old(buffer[..]), frames[..n], capacity as nat);
  }

  /** A configuration refused because some channel is not in STANDBY leaves the applied one in place for Inspect to report. */
  method RejectedConfigureThenInspect(dev: FhDevice, fhConfig: FhCfg, channels: seq<Channel>)
    returns (action: ActionCode, got: FhCfg)
    requires !AllStandby(channels)
    requires dev.Valid()
    modifies dev`config
    ensures action == CheckParam
    ensures got == old(dev.config)
  {
    action := dev.Configure(fhConfig, channels, NoAction);
    var a;
    a, got := dev.ConfigurationInspect(NoAction);
  }

  /** Selecting a table and asking which table is in use gives back that table. */
  method SetThenGet(dev: FhDevice, tableId: TableId) returns (got: TableId)
    requires dev.Valid()
    modifies dev`active, dev`window
    ensures got == tableId
  {
    var a := dev.HopTableSet(tableId, NoAction);
    a, got := dev.HopTableGet(NoAction);
  }

  /**
    End to end: load table A with three frames, select A, arm a channel and
    hop three times; the window then shows f0, f1, f2, and one more hop shows
    f1, f2 and, wrapping around, f0.
   */
  method ThreeFrameScenario(f0: HopFrame, f1: HopFrame, f2: HopFrame, cfg: FhCfg, initial: HopFrame)
    returns (current: HopFrame, upcoming: HopFrame, next: HopFrame)
    ensures current == f1 && upcoming == f2 && next == f0
  {
    var dev := new FhDevice(cfg, initial);
    var frames := new HopFrame[3];
    frames[0], frames[1], frames[2] := f0, f1, f2;
    var a := dev.HopTableConfigure(TableA, frames, 3, NoAction, NoAction);
    a := dev.HopTableSet(TableA, NoAction);
    var channels := [Channel(Primed, true)];
    assert channels[0].fhEnabled && channels[0].state in {Primed, RfEnabled};
    assert dev.Table(TableA) == [f0, f1, f2];
    ghost var table := [f0, f1, f2];
    ghost var w0 := dev.window;
    a := dev.Hop(channels, NoAction);
    assert dev.window == Hops(w0, table, 1);
    a := dev.Hop(channels, NoAction);
    assert dev.window == Hops(w0, table, 2);
    a := dev.Hop(channels, NoAction);
    assert dev.window == Hops(w0, table, 3);
    ThreeHopsAlign(w0, [f0, f1, f2]);
    a := dev.Hop(channels, NoAction);
    a, current := dev.FrameInfoInspect(Current, NoAction);
    a, upcoming := dev.FrameInfoInspect(Upcoming, NoAction);
    a, next := dev.FrameInfoInspect(Next, NoAction);
  }
}
