/** The frontend's quorum delete: a delete job pushes the delete to every replica of
    every target tablet, each tablet keeps the set of replicas that acknowledged it,
    the job state is derived from those sets by a majority rule, and the handler
    commits or aborts the job's transaction on the strength of that state. */
module DeleteQuorum {
  import opened Wrappers

  type ReplicaId = int
  type TxnId = int

  /** Push-completion state of a delete job (DeleteState). */
  datatype DeleteState = Pending | QuorumFinished | Finished | Cancelled

  /** How far one tablet is. */
  datatype TabletProgress = Insufficient | Quorum | Full

  /** The replicas a tablet has at job creation: the expected acknowledgements. */
  datatype TabletTarget = TabletTarget(partitionId: int, tabletId: int, replicas: set<ReplicaId>)

  datatype FailReason = BeginRejected | TimeoutQuorumNotReached | CommitFailed

  /** What `process` reports: success (the informational QueryStateException, which says
      whether the transaction is visible yet) or one failure (a DdlException). */
  datatype Outcome = Committed(transactionId: TxnId, visibilityPending: bool) | Failed(reason: FailReason)

  /** The calls the handler makes on the transaction ledger once a transaction is begun. */
  datatype LedgerCall = Commit(transactionId: TxnId) | Abort(transactionId: TxnId)

  /** Quorum of n replicas: n / 2 + 1. */
  function Majority(n: nat): nat {
    n / 2 + 1
  }

  /** Full once every expected replica acknowledged, quorum once a majority did. */
  function Classify(expected: nat, finished: nat): (r: TabletProgress)
    ensures r == Full <==> finished >= expected
    ensures r != Insufficient <==> finished >= expected || 2 * finished > expected
  {
    if finished >= expected then Full
    else if finished >= Majority(expected) then Quorum
    else Insufficient
  }

  function ProgressRank(p: TabletProgress): nat {
    match p
    case Insufficient => 0
    case Quorum => 1
    case Full => 2
  }

  /** The order PENDING <= QUORUM_FINISHED <= FINISHED in which acknowledgements advance a job. */
  function Rank(s: DeleteState): nat {
    match s
    case Pending => 0
    case QuorumFinished => 1
    case Finished => 2
    case Cancelled => 0
  }

  /** The job state derived from every tablet's progress: the least advanced tablet decides. */
  function AggregateState(ps: seq<TabletProgress>): (r: DeleteState)
    ensures r != Cancelled
    ensures forall i :: 0 <= i < |ps| ==> Rank(r) <= ProgressRank(ps[i])
  {
    if ps == [] then Finished
    else
      var rest := AggregateState(ps[1..]);
      assert forall i :: 1 <= i < |ps| ==> ps[i] == ps[1..][i - 1];
      match ps[0]
      case Insufficient => Pending
      case Quorum => if rest == Pending then Pending else QuorumFinished
      case Full => rest
  }

  /** PENDING iff some tablet lacks a quorum, FINISHED iff every tablet is full,
      QUORUM_FINISHED otherwise; never CANCELLED. */
  lemma {:induction false} AggregateStateSpec(ps: seq<TabletProgress>)
    ensures AggregateState(ps) != Cancelled
    ensures AggregateState(ps) == Pending <==> exists i :: 0 <= i < |ps| && ps[i] == Insufficient
    ensures AggregateState(ps) == Finished <==> forall i :: 0 <= i < |ps| ==> ps[i] == Full
  {
    if ps != [] {
      var tail := ps[1..];
      AggregateStateSpec(tail);
      assert forall i :: 1 <= i < |ps| ==> ps[i] == tail[i - 1];
      if exists i :: 0 <= i < |tail| && tail[i] == Insufficient {
        var i :| 0 <= i < |tail| && tail[i] == Insufficient;
        assert ps[i + 1] == Insufficient;
      }
    }
  }

  /** The state a job over `targets` reaches once `acks` have been acknowledged. */
  function PushState(targets: seq<TabletTarget>, acks: seq<set<ReplicaId>>): DeleteState
    requires |acks| == |targets|
  {
    AggregateState(seq(|targets|, i requires 0 <= i < |targets| => Classify(|targets[i].replicas|, |acks[i]|)))
  }

  lemma SubsetCardinality<T>(a: set<T>, b: set<T>)
    requires a <= b
    ensures |a| <= |b|
  {
    assert b == a + (b - a);
  }

  /** A tablet with at least one replica reaches quorum exactly when more than half acknowledged. */
  lemma QuorumMeansMoreThanHalf(expected: nat, finished: nat)
    requires 0 < expected && finished <= expected
    ensures Classify(expected, finished) != Insufficient <==> 2 * finished > expected
    ensures Classify(expected, finished) == Full <==> finished == expected
  {
  }

  /** Three replicas: quorum at two acknowledgements, full at three. */
  lemma ThreeReplicas()
    ensures Classify(3, 0) == Insufficient && Classify(3, 1) == Insufficient
    ensures Classify(3, 2) == Quorum && Classify(3, 3) == Full
  {
  }

  /** One replica: quorum and full coincide at the first acknowledgement. */
  lemma OneReplica()
    ensures Classify(1, 0) == Insufficient && Classify(1, 1) == Full
    ensures forall f: nat :: Classify(1, f) != Quorum
  {
  }

  /** Every tablet at least as far along gives a job at least as far along. */
  lemma {:induction false} AggregateMonotone(ps: seq<TabletProgress>, qs: seq<TabletProgress>)
    requires |ps| == |qs|
    requires forall i :: 0 <= i < |ps| ==> ProgressRank(ps[i]) <= ProgressRank(qs[i])
    ensures Rank(AggregateState(ps)) <= Rank(AggregateState(qs))
  {
    if ps != [] {
      AggregateMonotone(ps[1..], qs[1..]);
      AggregateStateSpec(ps[1..]);
      AggregateStateSpec(qs[1..]);
    }
  }

  /** Acknowledgements only accumulate, so the job state never regresses. */
  lemma AcksMonotone(targets: seq<TabletTarget>, before: seq<set<ReplicaId>>, after: seq<set<ReplicaId>>)
    requires |before| == |targets| && |after| == |targets|
    requires forall i :: 0 <= i < |targets| ==> before[i] <= after[i]
    ensures Rank(PushState(targets, before)) <= Rank(PushState(targets, after))
  {
    var ps := seq(|targets|, i requires 0 <= i < |targets| => Classify(|targets[i].replicas|, |before[i]|));
    var qs := seq(|targets|, i requires 0 <= i < |targets| => Classify(|targets[i].replicas|, |after[i]|));
    forall i | 0 <= i < |targets|
      ensures ProgressRank(ps[i]) <= ProgressRank(qs[i])
    {
      SubsetCardinality(before[i], after[i]);
    }
    AggregateMonotone(ps, qs);
  }

  /** Once every replica of every tablet acknowledged, the job is FINISHED. */
  lemma AllAckedIsFinished(targets: seq<TabletTarget>, acks: seq<set<ReplicaId>>)
    requires |acks| == |targets|
    requires forall i :: 0 <= i < |targets| ==> acks[i] == targets[i].replicas
    ensures PushState(targets, acks) == Finished
  {
    AggregateStateSpec(seq(|targets|, i requires 0 <= i < |targets| => Classify(|targets[i].replicas|, |acks[i]|)));
  }

  /** Per-tablet record of the replicas that acknowledged the delete push. */
  class TabletDeleteInfo {
    const partitionId: int
    const tabletId: int
    /** The tablet's replicas when the job was created. */
    const replicas: set<ReplicaId>
    var finishedReplicas: set<ReplicaId>

    ghost predicate Valid()
      reads this
    {
      finishedReplicas <= replicas
    }

    constructor (partitionId: int, tabletId: int, replicas: set<ReplicaId>)
      ensures Valid()
      ensures this.partitionId == partitionId && this.tabletId == tabletId && this.replicas == replicas
      ensures finishedReplicas == {}
    {
      this.partitionId := partitionId;
      this.tabletId := tabletId;
      this.replicas := replicas;
      finishedReplicas := {};
    }

    /** getFinishedReplicas().addAll(acked): a union, so reporting a replica twice changes nothing. */
    method AddFinishedReplicas(acked: set<ReplicaId>)
      requires Valid() && acked <= replicas
      modifies this`finishedReplicas
      ensures Valid()
      ensures finishedReplicas == old(finishedReplicas) + acked
      ensures acked <= old(finishedReplicas) ==> finishedReplicas == old(finishedReplicas)
      ensures |old(finishedReplicas)| <= |finishedReplicas| <= |replicas|
    {
      finishedReplicas := finishedReplicas + acked;
      SubsetCardinality(old(finishedReplicas), finishedReplicas);
      SubsetCardinality(finishedReplicas, replicas);
    }

    /** The number of distinct replicas that acknowledged, never more than the tablet has. */
    function FinishedCount(): (n: nat)
      reads this
      requires Valid()
      ensures n <= |replicas|
    {
      SubsetCardinality(finishedReplicas, replicas);
      |finishedReplicas|
    }

    function Target(): TabletTarget {
      TabletTarget(partitionId, tabletId, replicas)
    }
  }

  /** One delete operation: its transaction and the trackers of its target tablets. */
  class DeleteJob {
    const transactionId: TxnId
    const tablets: seq<TabletDeleteInfo>
    var cancelled: bool

    ghost predicate Valid()
      reads tablets
    {
      && (forall i :: 0 <= i < |tablets| ==> tablets[i].Valid())
      && (forall i, j :: 0 <= i < j < |tablets| ==> tablets[i] != tablets[j])
    }

    /** The target tablets and their replicas, fixed when the job was created. */
    function Targets(): seq<TabletTarget> {
      seq(|tablets|, i requires 0 <= i < |tablets| => tablets[i].Target())
    }

    /** Each tablet's acknowledged replicas. */
    function Acked(): seq<set<ReplicaId>>
      reads tablets
    {
      seq(|tablets|, i requires 0 <= i < |tablets| reads tablets => tablets[i].finishedReplicas)
    }

    /** One empty tracker per target tablet. */
    constructor (transactionId: TxnId, targets: seq<TabletTarget>)
      ensures this.transactionId == transactionId && !cancelled && Valid()
      ensures Targets() == targets
      ensures forall i :: 0 <= i < |tablets| ==> fresh(tablets[i]) && tablets[i].finishedReplicas == {}
    {
      var ts: seq<TabletDeleteInfo> := [];
      var i := 0;
      while i < |targets|
        invariant 0 <= i <= |targets| && |ts| == i
        invariant forall k :: 0 <= k < i ==> fresh(ts[k]) && ts[k].Valid()
        invariant forall k, l :: 0 <= k < l < i ==> ts[k] != ts[l]
        invariant forall k :: 0 <= k < i ==> ts[k].Target() == targets[k] && ts[k].finishedReplicas == {}
      {
        var info := new TabletDeleteInfo(targets[i].partitionId, targets[i].tabletId, targets[i].replicas);
        ts := ts + [info];
        i := i + 1;
      }
      this.transactionId := transactionId;
      this.tablets := ts;
      cancelled := false;
    }

    /** The state, recomputed from the trackers on every read; a cancelled job stays CANCELLED. */
    function GetState(): (s: DeleteState)
      reads this, tablets
      ensures s == Cancelled <==> cancelled
    {
      if cancelled then Cancelled else PushState(Targets(), Acked())
    }

    /** The acknowledgements the replicas report while the handler waits, one set per tablet. */
    method RecordAcks(acks: seq<set<ReplicaId>>)
      requires Valid() && |acks| == |tablets|
      requires forall i :: 0 <= i < |tablets| ==> acks[i] <= tablets[i].replicas
      modifies tablets
      ensures Valid()
      ensures forall i :: 0 <= i < |tablets| ==> Acked()[i] == old(Acked())[i] + acks[i]
    {
      var i := 0;
      while i < |tablets|
        invariant 0 <= i <= |tablets| && Valid()
        invariant forall k :: 0 <= k < |tablets| ==>
                    tablets[k].finishedReplicas == old(tablets[k].finishedReplicas) + (if k < i then acks[k] else {})
      {
        tablets[i].AddFinishedReplicas(acks[i]);
        i := i + 1;
      }
    }

    method Cancel()
      modifies this`cancelled
      ensures cancelled && GetState() == Cancelled
    {
      cancelled := true;
    }
  }

  class DeleteHandler {
    /** Registry of delete jobs by transaction id; a job stays after it ends. */
    var idToDeleteJob: map<TxnId, DeleteJob>
    /** Commits and aborts issued to the transaction ledger, in order. */
    var ledgerCalls: seq<LedgerCall>

    constructor ()
      ensures idToDeleteJob == map[] && ledgerCalls == []
    {
      idToDeleteJob := map[];
      ledgerCalls := [];
    }

    /** Mark the job CANCELLED and abort its transaction. */
    method CancelJob(job: DeleteJob)
      modifies this`ledgerCalls, job`cancelled
      ensures job.GetState() == Cancelled
      ensures job.Acked() == old(job.Acked()) && (old(job.Valid()) ==> job.Valid())
      ensures ledgerCalls == old(ledgerCalls) + [Abort(job.transactionId)]
    {
      job.Cancel();
      ledgerCalls := ledgerCalls + [Abort(job.transactionId)];
    }

    /** Commit the transaction; if the ledger rejects the commit, abort it and fail. */
    method CommitJob(job: DeleteJob, commitAccepted: bool, published: bool) returns (outcome: Outcome)
      modifies this`ledgerCalls
      ensures job.GetState() == old(job.GetState()) && job.Acked() == old(job.Acked())
      ensures old(job.Valid()) ==> job.Valid()
      ensures var txn := job.transactionId;
              && outcome == (if commitAccepted then Committed(txn, !published) else Failed(CommitFailed))
              && ledgerCalls == old(ledgerCalls) + [Commit(txn)] + (if commitAccepted then [] else [Abort(txn)])
    {
      var txn := job.transactionId;
      ledgerCalls := ledgerCalls + [Commit(txn)];
      if commitAccepted {
        outcome := Committed(txn, !published);
      } else {
        ledgerCalls := ledgerCalls + [Abort(txn)];
        outcome := Failed(CommitFailed);
      }
    }

    /** Run one delete over `targets`. The ledger's answer to begin, the acknowledgements that
        arrived before the wait ended, whether the wait saw them all, and the ledger's answers
        to commit and publish are inputs. */
    method Process(targets: seq<TabletTarget>, begin: Option<TxnId>, acks: seq<set<ReplicaId>>,
                   waitCompleted: bool, commitAccepted: bool, published: bool)
      returns (outcome: Outcome)
      requires |acks| == |targets|
      requires forall i :: 0 <= i < |targets| ==> acks[i] <= targets[i].replicas
      requires waitCompleted ==> forall i :: 0 <= i < |targets| ==> acks[i] == targets[i].replicas
      requires begin.Some? ==> begin.value !in idToDeleteJob
      modifies this
      ensures begin.None? ==>
                && outcome == Failed(BeginRejected)
                && idToDeleteJob == old(idToDeleteJob) && ledgerCalls == old(ledgerCalls)
      ensures begin.Some? ==>
                && idToDeleteJob.Keys == old(idToDeleteJob).Keys + {begin.value}
                && (forall t :: t in old(idToDeleteJob) ==> idToDeleteJob[t] == old(idToDeleteJob)[t])
      ensures begin.Some? ==>
                var txn := begin.value;
                var job := idToDeleteJob[txn];
                var pushed := PushState(targets, acks);
                && fresh(job) && job.transactionId == txn && job.Valid()
                && job.Targets() == targets && job.Acked() == acks
                && (pushed == Pending ==>
                      && outcome == Failed(TimeoutQuorumNotReached)
                      && job.GetState() == Cancelled
                      && ledgerCalls == old(ledgerCalls) + [Abort(txn)])
                && (pushed != Pending ==>
                      && job.GetState() == pushed
                      && outcome == (if commitAccepted then Committed(txn, !published) else Failed(CommitFailed))
                      && ledgerCalls == old(ledgerCalls) + [Commit(txn)] + (if commitAccepted then [] else [Abort(txn)]))
    {
      if begin.None? {
        return Failed(BeginRejected);
      }
      var txn := begin.value;
      var job := new DeleteJob(txn, targets);
      idToDeleteJob := idToDeleteJob[txn := job];
      ghost var before := job.Acked();
      assert forall i :: 0 <= i < |before| ==> before[i] == {};
      job.RecordAcks(acks);
      assert forall i :: 0 <= i < |acks| ==> job.Acked()[i] == before[i] + acks[i] == acks[i];
      assert job.Acked() == acks;

      if !waitCompleted && job.GetState() == Pending {
        CancelJob(job);
        outcome := Failed(TimeoutQuorumNotReached);
      } else {
        if waitCompleted {
          AllAckedIsFinished(targets, acks);
        }
        outcome := CommitJob(job, commitAccepted, published);
      }
    }
  }

  /** The tablet of the unit tests: partition 40000, tablet 60000, replicas 70000, 70001 and 70002. */
  function TestTablet(): TabletTarget {
    TabletTarget(40000, 60000, {70000, 70001, 70002})
  }

  /** A one-tablet job is exactly as far along as its tablet. */
  lemma OneTabletState(t: TabletTarget, acked: set<ReplicaId>)
    ensures PushState([t], [acked]) == match Classify(|t.replicas|, |acked|)
                                       case Insufficient => Pending
                                       case Quorum => QuorumFinished
                                       case Full => Finished
  {
    var p := Classify(|t.replicas|, |acked|);
    assert seq(1, i requires 0 <= i < 1 => Classify(|[t][i].replicas|, |[acked][i]|)) == [p];
    assert [p][1..] == [];
    assert AggregateState([p][1..]) == Finished;
    assert PushState([t], [acked]) == AggregateState([p]);
  }

  /** A fresh handler, one process call on the test tablet; what the test then reads back. */
  method RunTestDelete(txn: TxnId, acked: set<ReplicaId>, waitCompleted: bool, commitAccepted: bool, published: bool)
    returns (jobs: nat, state: DeleteState, outcome: Outcome, calls: seq<LedgerCall>)
    requires acked <= TestTablet().replicas
    requires waitCompleted ==> acked == TestTablet().replicas
    ensures jobs == 1
    ensures var pushed := PushState([TestTablet()], [acked]);
            && (pushed == Pending ==> state == Cancelled && outcome == Failed(TimeoutQuorumNotReached) && calls == [Abort(txn)])
            && (pushed != Pending ==>
                  && state == pushed
                  && outcome == (if commitAccepted then Committed(txn, !published) else Failed(CommitFailed))
                  && calls == [Commit(txn)] + (if commitAccepted then [] else [Abort(txn)]))
  {
    var handler := new DeleteHandler();
    outcome := handler.Process([TestTablet()], Some(txn), [acked], waitCompleted, commitAccepted, published);
    jobs := |handler.idToDeleteJob|;
    state := handler.idToDeleteJob[txn].GetState();
    calls := handler.ledgerCalls;
  }

  /** testUnQuorumTimeout: no backend is alive, so no replica acknowledges; the job is cancelled,
      the transaction aborted and process fails. */
  method UnQuorumTimeout(txn: TxnId) returns (jobs: nat, state: DeleteState, outcome: Outcome, calls: seq<LedgerCall>)
    ensures jobs == 1 && state == Cancelled
    ensures outcome == Failed(TimeoutQuorumNotReached) && calls == [Abort(txn)]
  {
    OneTabletState(TestTablet(), {});
    jobs, state, outcome, calls := RunTestDelete(txn, {}, false, true, true);
  }

  /** testQuorumTimeout: two of the three replicas acknowledge before the wait times out. */
  method QuorumTimeout(txn: TxnId) returns (jobs: nat, state: DeleteState, outcome: Outcome, calls: seq<LedgerCall>)
    ensures jobs == 1 && state == QuorumFinished
    ensures outcome == Committed(txn, false) && calls == [Commit(txn)]
  {
    assert |{70000, 70001}| == 2;
    OneTabletState(TestTablet(), {70000, 70001});
    jobs, state, outcome, calls := RunTestDelete(txn, {70000, 70001}, false, true, true);
  }

  /** testNormalTimeout: all three replicas acknowledge and the ledger reports the transaction
      visible; whatever the wait returned, the job is FINISHED and the delete commits. */
  method FullyAcknowledged(txn: TxnId, waitCompleted: bool)
    returns (jobs: nat, state: DeleteState, outcome: Outcome, calls: seq<LedgerCall>)
    ensures jobs == 1 && state == Finished
    ensures outcome == Committed(txn, false) && calls == [Commit(txn)]
  {
    OneTabletState(TestTablet(), TestTablet().replicas);
    jobs, state, outcome, calls := RunTestDelete(txn, TestTablet().replicas, waitCompleted, true, true);
  }

  /** testCommitFail: all replicas acknowledge but the ledger rejects the commit; process fails,
      the transaction is aborted, and the registered job still reads FINISHED. */
  method CommitFail(txn: TxnId) returns (jobs: nat, state: DeleteState, outcome: Outcome, calls: seq<LedgerCall>)
    ensures jobs == 1 && state == Finished
    ensures outcome == Failed(CommitFailed) && calls == [Commit(txn), Abort(txn)]
  {
    OneTabletState(TestTablet(), TestTablet().replicas);
    jobs, state, outcome, calls := RunTestDelete(txn, TestTablet().replicas, false, false, true);
  }

  /** testPublishFail, and testNormal, which has the same setup: the commit succeeds but
      publishing does not finish, so process reports success with visibility still pending. */
  method PublishFail(txn: TxnId) returns (jobs: nat, state: DeleteState, outcome: Outcome, calls: seq<LedgerCall>)
    ensures jobs == 1 && state == Finished
    ensures outcome == Committed(txn, true) && calls == [Commit(txn)]
  {
    OneTabletState(TestTablet(), TestTablet().replicas);
    jobs, state, outcome, calls := RunTestDelete(txn, TestTablet().replicas, false, true, false);
  }
}
