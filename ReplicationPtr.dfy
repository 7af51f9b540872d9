/** `ReplicationPtr_ContextKey<T>`: the earlier engine, whose write
    capability is, by convention, an engaged `optional` that `Attach` returns
    once, at run time.  Any caller can construct a `ContextKey`, so this does
    not restrict who may write.

    Both cells start null.  The first `Attach` fills the master from the
    caller's factory and copies it to the slave; every later `Attach` is a
    no-op that hands out nothing.  `Set` by closure always replays the edit on
    the slave (the DOUBLING strategy of `BroadcastPtr`) and falls back to a
    full copy when the replay reports no change.

    As in `Broadcast`, each operation is first a function of the state before
    the call; the class `ReplicationPtr` follows those functions. */
module Replication {
  import opened Wrappers
  import opened Edits
  import Broadcast

  /** The write capability by convention; it carries nothing, is never
      inspected, and anyone can construct one.
      `Some(ContextKey)` from `Attach` stands for the engaged optional that
      `Attach` returns, whatever the pointer inside it holds. */
  datatype ContextKey = ContextKey

  /** The two owning pointers and the one-shot flag of `Attach`. */
  datatype State<T> = State(master: Option<T>, slave: Option<T>, attached: bool) {

    /** Nothing is allocated before `Attach`, and the slave is null exactly
        when the master is. */
    ghost predicate Valid() {
      (!attached ==> master.None? && slave.None?) &&
      (master.Some? <==> slave.Some?)
    }

    /** The cells, without the flag. */
    function Cells(): (c: Broadcast.Cells<T>) {
      Broadcast.Cells(master, slave)
    }
  }

  // ---------------------------------------------------------------------
  // The operations, as functions of the state before the call
  // ---------------------------------------------------------------------

  /** Construction: both cells null, the flag clear. */
  function Initial<T>(): (s: State<T>)
    ensures s.Valid() && !s.attached
    ensures s.master.None? && s.slave.None?
  {
    State(None, None, false)
  }

  /** `_Sync`: the slave is replaced by a copy of the master, or by null
      when the master is null; nothing else changes. */
  function Synced<T>(s: State<T>): (r: State<T>)
    ensures r.master == s.master && r.attached == s.attached
    ensures r.slave == s.master
  {
    var copy := if s.master.Some? then Some(s.master.value) else None;
    s.(slave := copy)
  }

  /** `Attach(func)`: `test_and_set` on the flag; if it was already set,
      nothing is issued and nothing changes.  Otherwise a key is issued, the
      master becomes `func()` when a factory is given (and stays null
      otherwise), and the slave is synchronised with it. */
  function AfterAttach<T>(s: State<T>, func: Option<() -> Option<T>>): (res: (Option<ContextKey>, State<T>))
    requires s.Valid()
    ensures res.1.Valid() && res.1.attached
    ensures res.0.Some? <==> !s.attached
    ensures s.attached ==> res.1 == s
    ensures !s.attached && func.Some? ==> res.1.master == func.value()
    ensures !s.attached && func.None? ==> res.1.master.None?
    ensures !s.attached ==> res.1.slave == res.1.master
  {
    if s.attached then
      (None, s)
    else
      var flagged := s.(attached := true);
      var filled := if func.Some? then flagged.(master := func.value()) else flagged;
      (Some(ContextKey), Synced(filled))
  }

  /** `Set(key, data)`: assign into the master (which must exist, since the
      source dereferences it), then synchronise. */
  function AfterSet<T>(s: State<T>, data: T): (r: State<T>)
    requires s.Valid() && s.master.Some?
    ensures r.Valid() && r.attached == s.attached
    ensures r.master == Some(data) && r.slave == Some(data)
  {
    Synced(s.(master := Some(data)))
  }

  /** `Set(key, f)`: run the edit on the master; when it reports a change,
      replay it on the slave, and synchronise if the replay reports none.
      The result is the flag `Set` returns and the state afterwards. */
  function AfterSetWith<T>(s: State<T>, f: Edit<T>): (res: (bool, State<T>))
    requires s.Valid() && s.master.Some?
    ensures res.1.Valid() && res.1.attached == s.attached
    // the master always holds what the edit wrote, whatever it reported
    ensures res.1.master == Some(f(s.master.value).value)
    // `Set` returns exactly what the edit reported on the master
    ensures res.0 == f(s.master.value).changed
    // no change reported: the slave is not touched
    ensures !res.0 ==> res.1.slave == s.slave
    // change reported: the replayed edit's result, or a copy of the master
    ensures res.0 && f(s.slave.value).changed ==> res.1.slave == Some(f(s.slave.value).value)
    ensures res.0 && !f(s.slave.value).changed ==> res.1.slave == res.1.master
  {
    var edited := f(s.master.value);
    var afterMaster := s.(master := Some(edited.value));
    if !edited.changed then
      (false, afterMaster)
    else
      var replay := f(s.slave.value);
      var afterSlave := afterMaster.(slave := Some(replay.value));
      (true, if replay.changed then afterSlave else Synced(afterSlave))
  }

  // ---------------------------------------------------------------------
  // Properties
  // ---------------------------------------------------------------------

  /** The keys handed out, and the state left, by a series of `Attach`
      calls, one per factory in `funcs`. */
  function AttachAll<T>(s: State<T>, funcs: seq<Option<() -> Option<T>>>): (res: (seq<Option<ContextKey>>, State<T>))
    requires s.Valid()
    ensures |res.0| == |funcs| && res.1.Valid()
    decreases |funcs|
  {
    if funcs == [] then
      ([], s)
    else
      var first := AfterAttach(s, funcs[0]);
      var rest := AttachAll(first.1, funcs[1..]);
      ([first.0] + rest.0, rest.1)
  }

  /** Once attached, no further `Attach` issues a key or changes anything. */
  lemma {:induction false} AttachedStaysPut<T>(s: State<T>, funcs: seq<Option<() -> Option<T>>>)
    requires s.Valid() && s.attached
    ensures forall k <- AttachAll(s, funcs).0 :: k.None?
    ensures AttachAll(s, funcs).1 == s
    decreases |funcs|
  {
    if funcs != [] {
      AttachedStaysPut(s, funcs[1..]);
    }
  }

  /** A key is issued at most once: from a fresh engine, a series of
      `Attach` calls issues a key on the first call only, and leaves the
      state that first call established. */
  lemma AttachAtMostOnce<T>(funcs: seq<Option<() -> Option<T>>>)
    requires funcs != []
    ensures var keys := AttachAll(Initial<T>(), funcs).0;
            keys[0].Some? && forall i | 1 <= i < |keys| :: keys[i].None?
    ensures AttachAll(Initial<T>(), funcs).1 == AfterAttach(Initial<T>(), funcs[0]).1
  {
    var first := AfterAttach(Initial<T>(), funcs[0]);
    AttachedStaysPut(first.1, funcs[1..]);
    var keys := AttachAll(Initial<T>(), funcs).0;
    forall i | 1 <= i < |keys| ensures keys[i].None? {
      assert keys[i] in AttachAll(first.1, funcs[1..]).0;
    }
  }

  /** `_Sync` is `BroadcastPtr`'s `_CopyMasterToSlave`. */
  lemma SyncIsCopyMasterToSlave<T>(s: State<T>)
    ensures Synced(s).Cells() == Broadcast.CopiedToSlave(s.Cells())
  {
  }

  /** `Set(key, f)` is `BroadcastPtr`'s `Set(key, f, DOUBLING)`: same result,
      same cells afterwards. */
  lemma SetWithIsDoubling<T>(s: State<T>, f: Edit<T>)
    requires s.Valid() && s.master.Some?
    ensures AfterSetWith(s, f).0 == Broadcast.AfterSetWith(s.Cells(), f, Broadcast.Doubling).0
    ensures AfterSetWith(s, f).1.Cells() == Broadcast.AfterSetWith(s.Cells(), f, Broadcast.Doubling).1
  {
  }

  /** An honest edit on a synced engine leaves it synced, although only the
      replay, never a copy, updates the slave when the edit reports a change. */
  lemma HonestSetWithStaysSynced<T(!new)>(s: State<T>, f: Edit<T>)
    requires s.Valid() && s.master.Some? && s.slave == s.master && Honest(f)
    ensures AfterSetWith(s, f).1.slave == AfterSetWith(s, f).1.master
  {
  }

  // ---------------------------------------------------------------------
  // The engine object
  // ---------------------------------------------------------------------

  class ReplicationPtr<T> {
    var master: Option<T>
    var slave: Option<T>
    /** `m_doOnceFlag`, set by the first `Attach`. */
    var doOnceFlag: bool

    function View(): (v: State<T>)
      reads this
    {
      State(master, slave, doOnceFlag)
    }

    ghost predicate Valid()
      reads this
    {
      View().Valid()
    }

    constructor ()
      ensures Valid() && View() == Initial()
    {
      master := None;
      slave := None;
      doOnceFlag := false;
    }

    /** `Attach(func)`: the key, the first time only. */
    method Attach(func: Option<() -> Option<T>>) returns (key: Option<ContextKey>)
      requires Valid()
      modifies this
      ensures Valid()
      ensures (key, View()) == AfterAttach(old(View()), func)
    {
      var wasSet := doOnceFlag;
      doOnceFlag := true;
      if wasSet {
        return None;
      }
      key := Some(ContextKey);
      if func.Some? {
        master := func.value();
      }
      Sync(key.value);
    }

    /** `Get(key)`: the writer's direct view of the master. */
    function GetByKey(key: ContextKey): (r: T)
      reads this
      requires master.Some?
      ensures master == Some(r)
    {
      master.value
    }

    /** `Get()`: a copy of the slave, read under the shared lock. */
    method Get() returns (r: T)
      requires slave.Some?
      ensures slave == Some(r)
    {
      r := slave.value;
    }

    /** `Set(key, data)`. */
    method Set(key: ContextKey, data: T)
      requires Valid() && master.Some?
      modifies this
      ensures Valid()
      ensures View() == AfterSet(old(View()), data)
    {
      master := Some(data);
      Sync(key);
    }

    /** `Set(key, f)`. */
    method SetWith(key: ContextKey, f: Edit<T>) returns (changed: bool)
      requires Valid() && master.Some?
      modifies this
      ensures Valid()
      ensures (changed, View()) == AfterSetWith(old(View()), f)
    {
      var edited := f(master.value);
      master := Some(edited.value);
      if edited.changed {
        var replay := f(slave.value);
        slave := Some(replay.value);
        if !replay.changed {
          Sync(key);
        }
        return true;
      } else {
        return false;
      }
    }

    /** `_Sync`. */
    method Sync(key: ContextKey)
      modifies this
      ensures View() == Synced(old(View()))
    {
      var tempPtr := if master.Some? then Some(master.value) else None;
      slave := tempPtr;
    }
  }

  /** Two `Attach` calls on one engine: only the first issues a key, and the
      second leaves the master the first one established. */
  method AttachTwice<T>(first: Option<() -> Option<T>>, second: Option<() -> Option<T>>)
    returns (key1: Option<ContextKey>, key2: Option<ContextKey>, master1: Option<T>, master2: Option<T>)
    ensures key1.Some? && key2.None?
    ensures master2 == master1
    ensures master1 == (if first.Some? then first.value() else None)
  {
    var ptr := new ReplicationPtr<T>();
    key1 := ptr.Attach(first);
    master1 := ptr.master;
    key2 := ptr.Attach(second);
    master2 := ptr.master;
  }
}
