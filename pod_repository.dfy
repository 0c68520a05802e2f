/** The record store (`PodRepository`): the Pod, PodEnv and PodPort tables, keyed by each
    row's own `id`, and the status of the last transaction. `DeletePodByID` is modelled
    statement by statement; the other operations only as the store's contract. */
module PodRepository {

  import opened Wrappers
  import opened Remote
  import opened PodModel

  /** The status of the transaction `DeletePodByID` opens. */
  datatype TxStatus = NoTx | Active | RolledBack | Committed | CommitFailed

  datatype Tables = Tables(pods: map<int, Pod>, podEnvs: map<int, PodEnv>, podPorts: map<int, PodPort>)

  /** The three deletes of `DeletePodByID`, in the order they are issued. Each filters on
      `id = i` and is issued on the database handle, not on the transaction. */
  function DeleteCalls(i: int): (calls: seq<Call>) {
    [DbDelete(PodTable, i, OnDB), DbDelete(PodEnvTable, i, OnDB), DbDelete(PodPortTable, i, OnDB)]
  }

  /** The tables once the row keyed `i` is gone from `table`. */
  function Removed(t: Tables, table: Table, i: int): (t': Tables) {
    match table
    case PodTable => t.(pods := t.pods - {i})
    case PodEnvTable => t.(podEnvs := t.podEnvs - {i})
    case PodPortTable => t.(podPorts := t.podPorts - {i})
  }

  /** What one call of `DeletePodByID` does: the calls it makes, the error it returns,
      the tables and the transaction status it leaves. */
  datatype DeleteOutcome = DeleteOutcome(trace: seq<Call>, err: Option<Error>, tables: Tables, tx: TxStatus)

  /** `DeletePodByID(i)` from tables `t` and transaction status `tx`. Every delete that
      succeeded has removed the row keyed `i` from its table; those rows stay removed
      after a rollback, since the deletes did not run on the transaction. */
  function DeleteSpec(t: Tables, tx: TxStatus, i: int, fault: Call -> Option<Error>): (o: DeleteOutcome) {
    var d := DeleteCalls(i);
    if fault(TxBegin).Some? then
      DeleteOutcome([TxBegin], fault(TxBegin), t, tx)
    else if fault(d[0]).Some? then
      DeleteOutcome([TxBegin, d[0], TxRollback], fault(d[0]), t, RolledBack)
    else if fault(d[1]).Some? then
      DeleteOutcome([TxBegin, d[0], d[1], TxRollback], fault(d[1]), t.(pods := t.pods - {i}), RolledBack)
    else if fault(d[2]).Some? then
      DeleteOutcome([TxBegin, d[0], d[1], d[2], TxRollback], fault(d[2]),
        t.(pods := t.pods - {i}, podEnvs := t.podEnvs - {i}), RolledBack)
    else
      DeleteOutcome([TxBegin, d[0], d[1], d[2], TxCommit], fault(TxCommit),
        Tables(t.pods - {i}, t.podEnvs - {i}, t.podPorts - {i}),
        if fault(TxCommit).Some? then CommitFailed else Committed)
  }

  /** A failing Begin is returned as it is, and nothing is deleted. */
  lemma BeginFailureDeletesNothing(t: Tables, tx: TxStatus, i: int, fault: Call -> Option<Error>)
    requires fault(TxBegin).Some?
    ensures var o := DeleteSpec(t, tx, i, fault);
      o.trace == [TxBegin] && o.err == fault(TxBegin) && o.tables == t && o.tx == tx
  {
  }

  /** Every delete in the trace sits at the position of its table in the fixed order
      Pod, PodEnv, PodPort, right after Begin; all of them filter on `id = i` and run
      on the database handle. */
  lemma DeletesInFixedOrder(t: Tables, tx: TxStatus, i: int, fault: Call -> Option<Error>)
    ensures var tr := DeleteSpec(t, tx, i, fault).trace;
      && tr[0] == TxBegin
      && forall j :: 0 <= j < |tr| && tr[j].DbDelete? ==>
           1 <= j <= 3 && tr[j] == DeleteCalls(i)[j - 1] && tr[j].id == i && tr[j].conn == OnDB
  {
  }

  /** After the first failing delete `n`, Rollback is called, that delete's error is
      returned, no later delete is issued and Commit is not called. */
  lemma FirstFailureRollsBack(t: Tables, tx: TxStatus, i: int, fault: Call -> Option<Error>, n: nat)
    requires fault(TxBegin).None?
    requires n < 3
    requires forall k :: 0 <= k < n ==> fault(DeleteCalls(i)[k]).None?
    requires fault(DeleteCalls(i)[n]).Some?
    ensures var o := DeleteSpec(t, tx, i, fault);
      && o.trace == [TxBegin] + DeleteCalls(i)[..n + 1] + [TxRollback]
      && o.err == fault(DeleteCalls(i)[n])
      && o.tx == RolledBack
      && (forall k :: n < k < 3 ==> DeleteCalls(i)[k] !in o.trace)
      && TxCommit !in o.trace
  {
    var d := DeleteCalls(i);
    var tr := DeleteSpec(t, tx, i, fault).trace;
    if n == 0 {
      assert d[..1] == [d[0]];
    } else if n == 1 {
      assert fault(d[0]).None?;
      assert d[..2] == [d[0], d[1]];
    } else {
      assert fault(d[0]).None? && fault(d[1]).None?;
      assert d[..3] == [d[0], d[1], d[2]];
    }
  }

  /** Commit is called exactly when Begin and all three deletes succeeded, and then its
      error is the result. */
  lemma CommitOnlyAfterAllDeletes(t: Tables, tx: TxStatus, i: int, fault: Call -> Option<Error>)
    ensures var o := DeleteSpec(t, tx, i, fault);
      TxCommit in o.trace <==>
        fault(TxBegin).None? && forall k :: 0 <= k < 3 ==> fault(DeleteCalls(i)[k]).None?
    ensures var o := DeleteSpec(t, tx, i, fault);
      TxCommit in o.trace ==> o.err == fault(TxCommit)
  {
    var d := DeleteCalls(i);
    var o := DeleteSpec(t, tx, i, fault);
    if fault(TxBegin).None? && fault(d[0]).None? && fault(d[1]).None? && fault(d[2]).None? {
      assert o.trace[4] == TxCommit;
    }
  }

  /** Each delete filters on the row's own id: rows keyed by any other id are untouched,
      in all three tables, whatever the outcome. */
  lemma DeleteKeepsOtherIds(t: Tables, tx: TxStatus, i: int, fault: Call -> Option<Error>)
    ensures var t' := DeleteSpec(t, tx, i, fault).tables;
      && t'.pods - {i} == t.pods - {i}
      && t'.podEnvs - {i} == t.podEnvs - {i}
      && t'.podPorts - {i} == t.podPorts - {i}
  {
  }

  /** On success no row keyed `i` is left in any of the three tables. */
  lemma SuccessRemovesAllRows(t: Tables, tx: TxStatus, i: int, fault: Call -> Option<Error>)
    requires DeleteSpec(t, tx, i, fault).err.None?
    ensures var t' := DeleteSpec(t, tx, i, fault).tables;
      i !in t'.pods && i !in t'.podEnvs && i !in t'.podPorts
    ensures DeleteSpec(t, tx, i, fault).tx == Committed
  {
  }

  /** Environment and port rows that belong to pod `i` but carry an id of their own other
      than `i` are not removed, even by a fully successful delete. */
  lemma OwnedRowsWithOtherIdsSurvive(t: Tables, tx: TxStatus, i: int, fault: Call -> Option<Error>)
    ensures var t' := DeleteSpec(t, tx, i, fault).tables;
      && (forall j :: j in t.podEnvs && t.podEnvs[j].podID == i && j != i ==>
            j in t'.podEnvs && t'.podEnvs[j] == t.podEnvs[j])
      && (forall j :: j in t.podPorts && t.podPorts[j].podID == i && j != i ==>
            j in t'.podPorts && t'.podPorts[j] == t.podPorts[j])
  {
  }

  /** When the PodEnv delete fails, the Pod row already deleted stays deleted: one call
      is not all-or-nothing across the three tables. */
  lemma LaterFailureKeepsEarlierDeletes(t: Tables, tx: TxStatus, i: int, fault: Call -> Option<Error>)
    requires fault(TxBegin).None?
    requires fault(DeleteCalls(i)[0]).None? && fault(DeleteCalls(i)[1]).Some?
    ensures var o := DeleteSpec(t, tx, i, fault);
      && o.err.Some?
      && i !in o.tables.pods && o.tables.podEnvs == t.podEnvs && o.tables.podPorts == t.podPorts
  {
  }

  /** Every stored pod exactly once, in some order (the query has no ORDER BY). */
  ghost predicate IsListing(all: seq<Pod>, pods: map<int, Pod>) {
    && (forall k :: 0 <= k < |all| ==> all[k].id in pods && pods[all[k].id] == all[k])
    && (forall id :: id in pods ==> exists k :: 0 <= k < |all| && all[k].id == id)
    && (forall j, k :: 0 <= j < k < |all| ==> all[j].id != all[k].id)
  }

  function FindResult(pods: map<int, Pod>, i: int, fault: Call -> Option<Error>): (r: Result<Pod, Error>) {
    if fault(DbFind(i)).Some? then Err(fault(DbFind(i)).value)
    else if i in pods then Ok(pods[i])
    else Err(RecordNotFound(i))
  }

  class PodRepository {
    var pods: map<int, Pod>
    var podEnvs: map<int, PodEnv>
    var podPorts: map<int, PodPort>
    /** The id the store assigns to the next pod it creates. */
    var nextID: int
    var tx: TxStatus
    const env: Env

    /** Each pod is stored under its own, positive, already assigned id. */
    ghost predicate Valid()
      reads this
    {
      && 0 < nextID
      && forall id :: id in pods ==> pods[id].id == id && 0 < id < nextID
    }

    function State(): (t: Tables)
      reads this
    {
      Tables(pods, podEnvs, podPorts)
    }

    constructor (env: Env)
      ensures Valid() && this.env == env
      ensures pods == map[] && podEnvs == map[] && podPorts == map[] && tx == NoTx
    {
      this.env := env;
      pods, podEnvs, podPorts := map[], map[], map[];
      nextID := 1;
      tx := NoTx;
    }

    /** `FindPodByID`: the pod stored under id `i`, if any. */
    method FindPodByID(i: int) returns (r: Result<Pod, Error>)
      requires Valid()
      modifies env
      ensures env.calls == old(env.calls) + [DbFind(i)]
      ensures r == FindResult(pods, i, env.fault)
      ensures r.Ok? ==> r.value.id == i
    {
      var fault := env.Issue(DbFind(i));
      if fault.Some? {
        return Err(fault.value);
      }
      if i in pods {
        r := Ok(pods[i]);
      } else {
        r := Err(RecordNotFound(i));
      }
    }

    /** `CreatePod`: the store assigns the pod a fresh id and keeps it there. */
    method CreatePod(pod: Pod) returns (err: Option<Error>)
      requires Valid()
      modifies this, env
      ensures Valid()
      ensures env.calls == old(env.calls) + [DbCreate(pod)]
      ensures err == env.fault(DbCreate(pod))
      ensures err.Some? ==> unchanged(this)
      ensures err.None? ==>
        && pods == old(pods)[old(nextID) := pod.(id := old(nextID))]
        && nextID == old(nextID) + 1
        && podEnvs == old(podEnvs) && podPorts == old(podPorts) && tx == old(tx)
    {
      err := env.Issue(DbCreate(pod));
      if err.Some? {
        return;
      }
      pods := pods[nextID := pod.(id := nextID)];
      nextID := nextID + 1;
    }

    /** `UpdatePod`: the record stored under the pod's id is replaced; an id with no
        record updates nothing and is not an error. */
    method UpdatePod(pod: Pod) returns (err: Option<Error>)
      requires Valid()
      modifies this, env
      ensures Valid()
      ensures env.calls == old(env.calls) + [DbUpdate(pod)]
      ensures err == env.fault(DbUpdate(pod))
      ensures err.Some? ==> unchanged(this)
      ensures err.None? ==>
        && pods == (if pod.id in old(pods) then old(pods)[pod.id := pod] else old(pods))
        && nextID == old(nextID) && podEnvs == old(podEnvs) && podPorts == old(podPorts) && tx == old(tx)
    {
      err := env.Issue(DbUpdate(pod));
      if err.Some? {
        return;
      }
      if pod.id in pods {
        pods := pods[pod.id := pod];
      }
    }

    /** `FindAll`: every stored pod once. */
    method FindAll() returns (r: Result<seq<Pod>, Error>)
      requires Valid()
      modifies env
      ensures env.calls == old(env.calls) + [DbFindAll]
      ensures env.fault(DbFindAll).Some? ==> r == Err(env.fault(DbFindAll).value)
      ensures env.fault(DbFindAll).None? ==> r.Ok? && IsListing(r.value, pods)
    {
      var fault := env.Issue(DbFindAll);
      if fault.Some? {
        return Err(fault.value);
      }
      var rest := pods.Keys;
      var all: seq<Pod> := [];
      while rest != {}
        invariant env.calls == old(env.calls) + [DbFindAll]
        invariant rest <= pods.Keys
        invariant forall k :: 0 <= k < |all| ==> all[k].id in pods && pods[all[k].id] == all[k] && all[k].id !in rest
        invariant forall id :: id in pods && id !in rest ==> exists k :: 0 <= k < |all| && all[k].id == id
        invariant forall j, k :: 0 <= j < k < |all| ==> all[j].id != all[k].id
        decreases rest
      {
        if forall x :: x !in rest {
          assert false;
        }
        var id :| id in rest;
        ghost var before := all;
        all := all + [pods[id]];
        forall x | x in pods && x !in rest - {id}
          ensures exists k :: 0 <= k < |all| && all[k].id == x
        {
          if x == id {
            assert all[|before|].id == x;
          } else {
            var k :| 0 <= k < |before| && before[k].id == x;
            assert all[k].id == x;
          }
        }
        rest := rest - {id};
      }
      r := Ok(all);
    }

    /** `tx.Rollback()`; its own error is discarded. */
    method Rollback()
      modifies this, env
      ensures env.calls == old(env.calls) + [TxRollback]
      ensures tx == RolledBack
      ensures pods == old(pods) && podEnvs == old(podEnvs) && podPorts == old(podPorts) && nextID == old(nextID)
    {
      var ignored := env.Issue(TxRollback);
      tx := RolledBack;
    }

    /** One of the three deletes of `DeletePodByID`: `DELETE FROM table WHERE id = i` on
        the database handle; when it fails, the transaction is rolled back. */
    method DeleteRows(table: Table, i: int) returns (err: Option<Error>)
      requires Valid()
      modifies this, env
      ensures Valid()
      ensures err == env.fault(DbDelete(table, i, OnDB))
      ensures err.Some? ==>
        env.calls == old(env.calls) + [DbDelete(table, i, OnDB), TxRollback] && State() == old(State()) && tx == RolledBack
      ensures err.None? ==>
        env.calls == old(env.calls) + [DbDelete(table, i, OnDB)] && State() == Removed(old(State()), table, i) && tx == old(tx)
      ensures nextID == old(nextID)
    {
      err := env.Issue(DbDelete(table, i, OnDB));
      if err.Some? {
        Rollback();
        return;
      }
      match table
      case PodTable => pods := pods - {i};
      case PodEnvTable => podEnvs := podEnvs - {i};
      case PodPortTable => podPorts := podPorts - {i};
    }

    /** `DeletePodByID`: Begin, three ordered deletes each of which may fail and roll
        back, then Commit. */
    method DeletePodByID(i: int) returns (err: Option<Error>)
      requires Valid()
      modifies this, env
      ensures Valid()
      ensures var o := DeleteSpec(old(State()), old(tx), i, env.fault);
        env.calls == old(env.calls) + o.trace && err == o.err && State() == o.tables && tx == o.tx
      ensures nextID == old(nextID)
    {
      ghost var calls0, t0 := env.calls, State();
      err := env.Issue(TxBegin);
      if err.Some? {
        return;
      }
      tx := Active;
      err := DeleteRows(PodTable, i);
      if err.Some? {
        return;
      }
      err := DeleteRows(PodEnvTable, i);
      if err.Some? {
        assert env.calls == calls0 + [TxBegin, DeleteCalls(i)[0], DeleteCalls(i)[1], TxRollback];
        return;
      }
      err := DeleteRows(PodPortTable, i);
      if err.Some? {
        assert env.calls == calls0 + [TxBegin, DeleteCalls(i)[0], DeleteCalls(i)[1], DeleteCalls(i)[2], TxRollback];
        return;
      }
      err := env.Issue(TxCommit);
      tx := if err.Some? then CommitFailed else Committed;
      assert env.calls == calls0 + [TxBegin, DeleteCalls(i)[0], DeleteCalls(i)[1], DeleteCalls(i)[2], TxCommit];
    }
  }
}
