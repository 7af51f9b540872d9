# BroadcastPtr / ReplicationPtr: a single-writer replication cell in Dafny

This project models the sequential behaviour of the two live engines of the
WonSY concurrency headers. In both, one writer edits a **master** value
directly. Readers use a **slave** copy, which is brought back into line with
the master after every edit that reports a change.

- `BroadcastPtr<Key, T>` (module `Broadcast`, file `BroadcastPtr.dfy`).
  The writer is whoever holds a value of the marker type `Key`. Both cells
  always exist. `Set` by closure synchronises the slave by COPY (deep-copy the
  master) or by DOUBLING (replay the edit on the slave, and copy when the
  replay reports no change).
- `ReplicationPtr_ContextKey<T>` (module `Replication`, class `ReplicationPtr`,
  file `ReplicationPtr.dfy`). Both cells start null. A one-shot `Attach`
  returns an engaged `optional` (the write capability by convention) at
  most once. `Set` by closure always uses the replay-then-copy strategy.

Each engine is modelled twice:

- as functions of the state before a call (`AfterSet`, `AfterSetWith`,
  `AfterAttach`, ...), whose contracts state what the source promises;
- as a class with the source's fields (`master`, `slave`, `doOnceFlag`),
  whose methods change those fields as the source does and are proved to
  follow the functions.

A pointer is an `Option<T>` (`None` is null). Copy-construction of `T` is
value identity. `T()` is the value `zero` given to the `BroadcastPtr`
constructor. An edit closure `bool(T&)` is a pure function
`T -> Edited<T>`: the flag it reports, and the value it leaves. Replaying it
on the slave applies the same function to the slave's value. An initialiser
`T*()` that may be empty is an `Option<() -> Option<T>>`.

The inductive lemmas state the engines' guarantees over whole runs:

- `Broadcast.HonestRunStaysSynced`: no update is lost. For any serial
  sequence of writes whose closures are honest, the slave ends equal to the
  master, under either strategy. A closure is honest when "no change"
  really means it left the value alone.
- `Replication.AttachAtMostOnce`: a key is issued by the first `Attach` only,
  and later calls change nothing.

## Model

| member | source | states |
|---|---|---|
| `Broadcast.Init` | BroadcastPtr/WonSY_BroadcastPtr.h:48-67 | both cells non-null and equal; master is the initialiser's value when it gives a non-null one, otherwise `T()` |
| `Broadcast.BroadcastPtr.constructor` | BroadcastPtr/WonSY_BroadcastPtr.h:48-67 | the constructed cells are `Init(initFunc, zero)`, so the object starts valid and synced |
| `Broadcast.CopiedToSlave` | BroadcastPtr/WonSY_BroadcastPtr.h:140-150 | master untouched, slave equal to the master afterwards; a non-null master leaves both cells non-null |
| `Broadcast.BroadcastPtr.CopyMasterToSlave` | BroadcastPtr/WonSY_BroadcastPtr.h:140-150 | the object's cells become `CopiedToSlave` of the old cells |
| `Broadcast.AfterSet` | BroadcastPtr/WonSY_BroadcastPtr.h:97-101 | from valid cells, `Set(key, data)` leaves master == data and slave == data |
| `Broadcast.BroadcastPtr.Set` | BroadcastPtr/WonSY_BroadcastPtr.h:97-101 | keeps the object valid; its cells become `AfterSet(old cells, data)` |
| `Broadcast.AfterSetWith` | BroadcastPtr/WonSY_BroadcastPtr.h:103-134 | returns what the edit reported on the master; master always holds what the edit wrote; on `false` the slave is untouched; on `true` under COPY slave == master; under DOUBLING the slave is the replay's value if the replay reports a change, else a copy of the master; both cells stay non-null |
| `Broadcast.BroadcastPtr.SetWith` | BroadcastPtr/WonSY_BroadcastPtr.h:103-134 | keeps the object valid; its result and new cells are `AfterSetWith(old cells, f, syncType)` |
| `Broadcast.BroadcastPtr.Get` | BroadcastPtr/WonSY_BroadcastPtr.h:78-81 | returns the master's value and reads only |
| `Broadcast.BroadcastPtr.GetCopy` | BroadcastPtr/WonSY_BroadcastPtr.h:83-89 | returns the slave's value, or `T()` when the slave is null; changes nothing |
| `Broadcast.BroadcastPtr.RunReadOnlyTask` | BroadcastPtr/WonSY_BroadcastPtr.h:91-95 | the callback is applied to the slave's value; changes nothing |
| `Broadcast.StrategiesAgree` | BroadcastPtr/WonSY_BroadcastPtr.h:34-38 | from synced cells, COPY and DOUBLING give the same result and the same cells for any deterministic edit |
| `Broadcast.DoublingKeepsDrift` | BroadcastPtr/WonSY_BroadcastPtr.h:117-128 | DOUBLING does not repair a slave that has drifted when the replay still reports a change (master 0, slave 5, "+1" gives master 1, slave 6, result true) |
| `Broadcast.Step` | BroadcastPtr/WonSY_BroadcastPtr.h:97-134 | either `Set` overload keeps both cells non-null |
| `Broadcast.Run` | BroadcastPtr/WonSY_BroadcastPtr.h:97-134 | any serial sequence of writes keeps both cells non-null |
| `Broadcast.HonestStepStaysSynced` | BroadcastPtr/WonSY_BroadcastPtr.h:103-134 | one honest write keeps synced cells synced, under either strategy |
| `Broadcast.HonestRunStaysSynced` | BroadcastPtr/WonSY_BroadcastPtr.h:97-134 | from synced cells, any serial sequence of honest writes ends synced (no lost updates) |
| `Broadcast.RunEndingInCopyIsSynced` | BroadcastPtr/WonSY_BroadcastPtr.h:97-116 | whatever came before, a run ending in `Set(key, data)`, or in a COPY edit that reports a change, ends with slave == master |
| `Broadcast.CounterScenario` | BroadcastPtr/WonSY_BroadcastPtr.h:103-116 | integer engine at 0, edit "0 becomes 1, else 2, report true" three times under COPY: the reader copies 1, 2, 2 |
| `Replication.Initial` | ReplicationPtr/WonSY_ReplicationPtr.h:246-251 | before `Attach` both cells are null and the flag is clear |
| `Replication.ReplicationPtr.constructor` | ReplicationPtr/WonSY_ReplicationPtr.h:246-251 | the new object's state is `Initial()` |
| `Replication.Synced` | ReplicationPtr/WonSY_ReplicationPtr.h:330-340 | `_Sync` with a null master makes the slave null; otherwise the slave becomes equal to the master; master and flag untouched |
| `Replication.ReplicationPtr.Sync` | ReplicationPtr/WonSY_ReplicationPtr.h:330-340 | the object's state becomes `Synced(old state)` |
| `Replication.AfterAttach` | ReplicationPtr/WonSY_ReplicationPtr.h:262-282 | a key is issued exactly when the flag was clear; with the flag set nothing changes; otherwise the master is `func()` when a factory is given and stays null when not, and the slave equals the master; the flag ends set |
| `Replication.ReplicationPtr.Attach` | ReplicationPtr/WonSY_ReplicationPtr.h:262-282 | keeps the object valid; its key and new state are `AfterAttach(old state, func)` |
| `Replication.AfterSet` | ReplicationPtr/WonSY_ReplicationPtr.h:295-300 | needs a non-null master; leaves master == data and slave == data, flag untouched |
| `Replication.ReplicationPtr.Set` | ReplicationPtr/WonSY_ReplicationPtr.h:295-300 | keeps the object valid; its new state is `AfterSet(old state, data)` |
| `Replication.AfterSetWith` | ReplicationPtr/WonSY_ReplicationPtr.h:302-324 | needs a non-null master; returns what the edit reported on the master; master holds what the edit wrote; on `false` the slave is untouched; on `true` the slave is the replay's value if the replay reports a change, else equal to the master |
| `Replication.ReplicationPtr.SetWith` | ReplicationPtr/WonSY_ReplicationPtr.h:302-324 | keeps the object valid; its result and new state are `AfterSetWith(old state, f)` |
| `Replication.ReplicationPtr.GetByKey` | ReplicationPtr/WonSY_ReplicationPtr.h:284-287 | needs a non-null master; returns its value and reads only |
| `Replication.ReplicationPtr.Get` | ReplicationPtr/WonSY_ReplicationPtr.h:289-293 | needs a non-null slave; returns its value and changes nothing |
| `Replication.AttachAll` | ReplicationPtr/WonSY_ReplicationPtr.h:262-282 | a series of `Attach` calls gives one answer per call and keeps the state valid |
| `Replication.AttachedStaysPut` | ReplicationPtr/WonSY_ReplicationPtr.h:267-270 | once attached, any further `Attach` calls issue nothing and change nothing |
| `Replication.AttachAtMostOnce` | ReplicationPtr/WonSY_ReplicationPtr.h:262-282 | from a fresh engine only the first `Attach` issues a key, and the final state is the one the first call established |
| `Replication.AttachTwice` | ReplicationPtr/WonSY_ReplicationPtr.h:262-282 | on one object, the first of two `Attach` calls issues a key and the second does not; the master after both is what the first factory gave |
| `Replication.SyncIsCopyMasterToSlave` | ReplicationPtr/WonSY_ReplicationPtr.h:330-340 | `_Sync` acts on the cells exactly as `BroadcastPtr::_CopyMasterToSlave` |
| `Replication.SetWithIsDoubling` | ReplicationPtr/WonSY_ReplicationPtr.h:302-324 | `Set(key, f)` gives the same result and cells as `BroadcastPtr`'s `Set(key, f, DOUBLING)` |
| `Replication.HonestSetWithStaysSynced` | ReplicationPtr/WonSY_ReplicationPtr.h:302-324 | an honest edit on a synced engine leaves it synced |

## Left out

- Replication.Initial: the one-shot flag is assumed clear at construction. The constructor never initialises `m_doOnceFlag`; a default-constructed `std::atomic_flag` is clear only from C++20 on, and under C++17 its state is unspecified, in which case even the first `Attach` would issue nothing.
- Replication.AfterAttach: `Some(ContextKey)` models only that the returned `optional` is engaged. The `unique_ptr<ContextKey>` that `emplace()` puts in it is null, and `Attach` (and every caller that uses the key `Attach` returned) dereferences that null pointer to bind the key reference; this is harmless in practice only because no operation looks at the key. The evident intent is `emplace(std::make_unique<ContextKey>())`. The model does not represent the pointer inside the key. In the source `ContextKey` has a public default constructor, so anyone can construct one, and issuing the optional at most once does not restrict who can call `Get(key)` or `Set(key, ...)`; the model's `ContextKey` can likewise be constructed by anyone, and writes made before `Attach` are excluded only by the non-null master those operations require.
- The `std::shared_mutex` on the slave and its shared and exclusive lock scopes. Every operation is treated as atomic. Thread interleaving, and the guarantee that readers never see a torn value, are not modelled.
- Destructors, and the raw `new`/`delete`/`std::swap` of the owning pointers. Only the resulting cell contents are modelled. Freeing the old slave after unlocking is a performance concern.
- The atomicity of `atomic_flag::test_and_set`. It is modelled as a sequential read of a `bool` field, then a set.
- `ReplicationPtr_ThreadId` in both headers. In `WonSY_BroadcastPtr.h` it is compiled out. In `WonSY_ReplicationPtr.h` it depends on thread identity and `std::call_once`.
- `WonSY_ReplicationPtr.cpp`: a demonstration made of threads, sleeps and console output.
- Closures with side effects outside the value, and closures that call back into the engine. Edits, initialisers and read callbacks are pure, deterministic functions here.
- `Broadcast.BroadcastPtr.RunReadOnlyTask`: the source's callback returns `void` and acts only through side effects. The model returns what the callback computes from the slave instead.
- The context key's value is never inspected by the source. `Key` is an unconstrained type parameter and `ContextKey` a one-value datatype. Moving or dropping the key is not modelled.
