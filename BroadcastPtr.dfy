/** `BroadcastPtr<Key, T>`: a single-writer / multi-reader replication cell.

    The writer, identified by holding a value of the marker type `Key`, edits
    the master cell directly.  Readers only ever see the slave cell, which is
    brought back into line with the master after every edit that reports a
    change, by one of two strategies: COPY (deep-copy the master into the
    slave) or DOUBLING (replay the same edit on the slave, and copy if the
    replay reports no change).

    The first half of the module states each operation as a function on the
    pair of cells; the class `BroadcastPtr` at the end is the object the
    source defines, whose methods are proved to follow those functions. */
module Broadcast {
  import opened Wrappers
  import opened Edits

  /** How the slave is brought back into line after a successful edit. */
  datatype SyncType = Copy | Doubling

  /** The two owning pointers of the engine. */
  datatype Cells<T> = Cells(master: Option<T>, slave: Option<T>) {

    /** The engine's invariant: neither pointer is ever null. */
    ghost predicate Valid() {
      master.Some? && slave.Some?
    }

    /** Readers see exactly what the writer sees. */
    ghost predicate Synced() {
      slave == master
    }
  }

  // ---------------------------------------------------------------------
  // The operations, as functions of the cells before the call
  // ---------------------------------------------------------------------

  /** Construction.  When an initialiser is given, the master is whatever it
      produces and the slave a copy of it (null if it produced null); if the
      master is still null after that, both cells fall back to `zero`, the
      value `T()` default-constructs. */
  function Init<T>(initFunc: Option<() -> Option<T>>, zero: T): (c: Cells<T>)
    ensures c.Valid() && c.Synced()
    ensures initFunc.Some? && initFunc.value().Some? ==> c.master == initFunc.value()
    ensures initFunc.None? || initFunc.value().None? ==> c.master == Some(zero)
  {
    var first :=
      if initFunc.Some? then
        var m := initFunc.value();
        Cells(m, if m.Some? then Some(m.value) else None)
      else Cells(None, None);
    if first.master.None? then Cells(Some(zero), Some(zero)) else first
  }

  /** `_CopyMasterToSlave`: the slave is replaced by a fresh copy of the
      master (by null when the master is null); the master is not touched. */
  function CopiedToSlave<T>(c: Cells<T>): (r: Cells<T>)
    ensures r.master == c.master && r.Synced()
    ensures c.master.Some? ==> r.Valid()
  {
    var copy := if c.master.Some? then Some(c.master.value) else None;
    c.(slave := copy)
  }

  /** `Set(key, data)`: assign into the master, then copy it to the slave. */
  function AfterSet<T>(c: Cells<T>, data: T): (r: Cells<T>)
    requires c.Valid()
    ensures r.Valid() && r.Synced()
    ensures r.master == Some(data)
  {
    CopiedToSlave(c.(master := Some(data)))
  }

  /** `Set(key, f, syncType)`: run the edit on the master; only when it
      reports a change is the slave brought into line, by the chosen strategy.
      The result is the flag `Set` returns and the cells afterwards. */
  function AfterSetWith<T>(c: Cells<T>, f: Edit<T>, syncType: SyncType): (res: (bool, Cells<T>))
    requires c.Valid()
    ensures res.1.Valid()
    // the master always holds what the edit wrote, whatever it reported
    ensures res.1.master == Some(f(c.master.value).value)
    // `Set` returns exactly what the edit reported on the master
    ensures res.0 == f(c.master.value).changed
    // no change reported: the slave is not touched
    ensures !res.0 ==> res.1.slave == c.slave
    // COPY: the slave ends equal to the new master
    ensures res.0 && syncType == Copy ==> res.1.Synced()
    // DOUBLING: the replayed edit's result if it reports a change, else a copy of the master
    ensures res.0 && syncType == Doubling && f(c.slave.value).changed ==>
              res.1.slave == Some(f(c.slave.value).value)
    ensures res.0 && syncType == Doubling && !f(c.slave.value).changed ==> res.1.Synced()
  {
    var edited := f(c.master.value);
    var afterMaster := c.(master := Some(edited.value));
    if !edited.changed then
      (false, afterMaster)
    else if syncType == Copy then
      (true, CopiedToSlave(afterMaster))
    else
      var replay := f(c.slave.value);
      var afterSlave := afterMaster.(slave := Some(replay.value));
      (true, if replay.changed then afterSlave else CopiedToSlave(afterSlave))
  }

  // ---------------------------------------------------------------------
  // Properties that relate several calls or both strategies
  // ---------------------------------------------------------------------

  /** From a synced start, a deterministic edit leaves the same cells under
      COPY and under DOUBLING: the replay on an equal slave computes what the
      master computed. */
  lemma StrategiesAgree<T>(c: Cells<T>, f: Edit<T>)
    requires c.Valid() && c.Synced()
    ensures AfterSetWith(c, f, Copy) == AfterSetWith(c, f, Doubling)
  {
  }

  /** DOUBLING does not repair a slave that has already drifted when the
      replay still reports a change: with master 0, slave 5 and the edit
      "add one, report a change", `Set` returns true with master 1, slave 6. */
  lemma DoublingKeepsDrift()
    ensures var f: Edit<int> := x => Edited(true, x + 1);
            AfterSetWith(Cells(Some(0), Some(5)), f, Doubling) == (true, Cells(Some(1), Some(6)))
  {
  }

  /** One call of the writer: `Set(key, data)` or `Set(key, f, syncType)`. */
  datatype Write<!T> = Assign(data: T) | Apply(f: Edit<T>, syncType: SyncType)

  /** Whether a write's closure, if it has one, is `Honest`. */
  ghost predicate HonestWrite<T(!new)>(w: Write<T>) {
    w.Apply? ==> Honest(w.f)
  }

  /** The cells after one write. */
  function Step<T>(c: Cells<T>, w: Write<T>): (r: Cells<T>)
    requires c.Valid()
    ensures r.Valid()
  {
    match w
    case Assign(data) => AfterSet(c, data)
    case Apply(f, syncType) => AfterSetWith(c, f, syncType).1
  }

  /** The cells after a serial sequence of writes by the one writer. */
  function Run<T>(c: Cells<T>, ws: seq<Write<T>>): (r: Cells<T>)
    requires c.Valid()
    ensures r.Valid()
    decreases |ws|
  {
    if ws == [] then c else Run(Step(c, ws[0]), ws[1..])
  }

  /** A single honest write keeps readers in line with the writer, whatever
      the strategy. */
  lemma HonestStepStaysSynced<T(!new)>(c: Cells<T>, w: Write<T>)
    requires c.Valid() && c.Synced() && HonestWrite(w)
    ensures Step(c, w).Synced()
  {
  }

  /** No lost updates: starting synced, after any serial sequence of honest
      writes, with either strategy, the slave readers copy equals the master. */
  lemma {:induction false} HonestRunStaysSynced<T(!new)>(c: Cells<T>, ws: seq<Write<T>>)
    requires c.Valid() && c.Synced()
    requires forall w <- ws :: HonestWrite(w)
    ensures Run(c, ws).Synced()
    decreases |ws|
  {
    if ws != [] {
      HonestStepStaysSynced(c, ws[0]);
      HonestRunStaysSynced(Step(c, ws[0]), ws[1..]);
    }
  }

  /** A run that ends with an assignment, or with an edit that reports a
      change under COPY, leaves the slave equal to the master, whatever the
      writes before it did. */
  lemma {:induction false} RunEndingInCopyIsSynced<T>(c: Cells<T>, ws: seq<Write<T>>)
    requires c.Valid() && ws != []
    requires var last := ws[|ws| - 1];
             last.Assign? || (last.syncType == Copy && last.f(Run(c, ws[..|ws| - 1]).master.value).changed)
    ensures Run(c, ws).Synced()
    decreases |ws|
  {
    RunSplit(c, ws[..|ws| - 1], ws[|ws| - 1]);
    assert ws[..|ws| - 1] + [ws[|ws| - 1]] == ws;
  }

  /** Running writes then one more write is stepping from the run. */
  lemma {:induction false} RunSplit<T>(c: Cells<T>, ws: seq<Write<T>>, w: Write<T>)
    requires c.Valid()
    ensures Run(c, ws + [w]) == Step(Run(c, ws), w)
    decreases |ws|
  {
    if ws == [] {
      assert [] + [w] == [w];
    } else {
      assert (ws + [w])[1..] == ws[1..] + [w];
      RunSplit(Step(c, ws[0]), ws[1..], w);
    }
  }

  // ---------------------------------------------------------------------
  // The engine object
  // ---------------------------------------------------------------------

  /** The writer presents a value of `Key` to every mutating call; the engine
      never looks at it. */
  class BroadcastPtr<Key, T> {
    var master: Option<T>
    var slave: Option<T>
    /** The value `T()` default-constructs. */
    const zero: T

    function View(): (v: Cells<T>)
      reads this
    {
      Cells(master, slave)
    }

    ghost predicate Valid()
      reads this
    {
      View().Valid()
    }

    constructor (initFunc: Option<() -> Option<T>>, zero: T)
      ensures Valid()
      ensures View() == Init(initFunc, zero) && this.zero == zero
    {
      this.zero := zero;
      master := None;
      slave := None;
      new;
      if initFunc.Some? {
        master := initFunc.value();
        slave := if master.Some? then Some(master.value) else None;
      }
      if master.None? {
        master := Some(zero);
        slave := Some(master.value);
      }
    }

    /** `Get(key)`: the writer's direct view of the master. */
    function Get(key: Key): (r: T)
      reads this
      requires master.Some?
      ensures master == Some(r)
    {
      master.value
    }

    /** `GetCopy`: a copy of the slave, or `T()` should the slave be null. */
    method GetCopy() returns (r: T)
      ensures slave.Some? ==> slave == Some(r)
      ensures slave.None? ==> r == zero
    {
      r := slave.GetOr(zero);
    }

    /** `RunReadOnlyTask`: the callback is run on the slave, in place.  A
        callback is pure here, so what it observes is its result. */
    method RunReadOnlyTask<R>(task: T -> R) returns (r: R)
      requires slave.Some?
      ensures r == task(slave.value)
    {
      r := task(slave.value);
    }

    /** `_CopyMasterToSlave`. */
    method CopyMasterToSlave(key: Key)
      modifies this
      ensures View() == CopiedToSlave(old(View()))
    {
      var tempPtr := if master.Some? then Some(master.value) else None;
      slave := tempPtr;
    }

    /** `Set(key, data)`. */
    method Set(key: Key, data: T)
      requires Valid()
      modifies this
      ensures Valid()
      ensures View() == AfterSet(old(View()), data)
    {
      master := Some(data);
      CopyMasterToSlave(key);
    }

    /** `Set(key, f, syncType)`, with COPY as the default strategy: the edit runs on the master; if it reports a
        change the slave is synchronised by `syncType`, falling back to a copy
        when a DOUBLING replay reports no change. */
    method SetWith(key: Key, f: Edit<T>, syncType: SyncType := Copy) returns (changed: bool)
      requires Valid()
      modifies this
      ensures Valid()
      ensures (changed, View()) == AfterSetWith(old(View()), f, syncType)
    {
      var edited := f(master.value);
      master := Some(edited.value);
      if edited.changed {
        if syncType == Copy {
          CopyMasterToSlave(key);
          return true;
        }
        var replay := f(slave.value);
        slave := Some(replay.value);
        if !replay.changed {
          CopyMasterToSlave(key);
        }
        return true;
      } else {
        return false;
      }
    }
  }

  /** The marker type of the one writer in `CounterScenario`. */
  datatype Writer = Writer

  /** An engine over an integer initialised to 0; the writer applies, three
      times under COPY, the edit "0 becomes 1, anything else becomes 2,
      report a change", and a reader copies the value after each call. */
  method CounterScenario() returns (snapshots: seq<int>)
    ensures snapshots == [1, 2, 2]
  {
    var ptr := new BroadcastPtr<Writer, int>(Some(() => Some(0)), 0);
    var bump: Edit<int> := x => Edited(true, if x == 0 then 1 else 2);
    var changed := ptr.SetWith(Writer, bump);
    var first := ptr.GetCopy();
    changed := ptr.SetWith(Writer, bump, Copy);
    var second := ptr.GetCopy();
    changed := ptr.SetWith(Writer, bump, Copy);
    var third := ptr.GetCopy();
    snapshots := [first, second, third];
  }
}
