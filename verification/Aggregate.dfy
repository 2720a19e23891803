/** The aggregate status of one batch: the loop of internal/webui/handler.go
    (computeStatus) and the query of internal/storage/queue.go agree. */
module Aggregate {
  import opened Models
  import opened Tables

  function CountSuccesses(sts: seq<DeliveryStatus>): nat {
    if sts == [] then 0
    else CountSuccesses(sts[..|sts| - 1]) + (if sts[|sts| - 1] == Success then 1 else 0)
  }

  function StatusOf(sts: seq<DeliveryStatus>): EmailStatus {
    if sts == [] then Dropped
    else if CountSuccesses(sts) == |sts| then Delivered
    else if CountSuccesses(sts) > 0 then PartialFailure
    else AllFailed
  }

  /** computeStatus. */
  method ComputeStatus(results: seq<DeliveryResult>) returns (st: EmailStatus)
    ensures st == StatusOf(seq(|results|, i requires 0 <= i < |results| => results[i].status))
  {
    ghost var sts := seq(|results|, i requires 0 <= i < |results| => results[i].status);
    if |results| == 0 {
      return Dropped;
    }
    var successes := 0;
    for i := 0 to |results|
      invariant successes == CountSuccesses(sts[..i])
    {
      assert sts[..i + 1][..i] == sts[..i];
      if results[i].status == Success {
        successes := successes + 1;
      }
    }
    assert sts[..|sts|] == sts;
    if successes == |results| {
      st := Delivered;
    } else if successes > 0 {
      st := PartialFailure;
    } else {
      st := AllFailed;
    }
  }

  lemma {:induction false} CountsMean(sts: seq<DeliveryStatus>)
    ensures CountSuccesses(sts) <= |sts|
    ensures CountSuccesses(sts) == |sts| <==> forall i :: 0 <= i < |sts| ==> sts[i] == Success
    ensures CountSuccesses(sts) > 0 <==> exists i :: 0 <= i < |sts| && sts[i] == Success
  {
    if sts != [] {
      var init := sts[..|sts| - 1];
      CountsMean(init);
      assert forall i :: 0 <= i < |init| ==> init[i] == sts[i];
    }
  }

  /** No results: dropped. All successes: delivered. Some: partial. None: failed. */
  lemma StatusMeans(sts: seq<DeliveryStatus>)
    ensures var good, bad := exists i :: 0 <= i < |sts| && sts[i] == Success, exists i :: 0 <= i < |sts| && sts[i] != Success;
      StatusOf(sts) == if good && bad then PartialFailure else if good then Delivered else if bad then AllFailed else Dropped
  {
    CountsMean(sts);
    assert sts != [] ==> sts[0] == Success || sts[0] != Success;
  }

  ghost predicate Distinct(ids: seq<DeliveryId>) {
    forall i, j :: 0 <= i < j < |ids| ==> ids[i] != ids[j]
  }

  ghost predicate Stored(db: Db, ids: seq<DeliveryId>) {
    forall i :: 0 <= i < |ids| ==> ids[i] in db.deliveries
  }

  function Statuses(db: Db, ids: seq<DeliveryId>): (sts: seq<DeliveryStatus>)
    requires Stored(db, ids)
    ensures |sts| == |ids|
  {
    seq(|ids|, i requires 0 <= i < |ids| => db.deliveries[ids[i]].status)
  }

  function SetOf(ids: seq<DeliveryId>): set<DeliveryId> {
    set id | id in ids
  }

  lemma SplitLast(db: Db, ids: seq<DeliveryId>)
    requires Distinct(ids) && Stored(db, ids) && ids != []
    ensures var init, last := ids[..|ids| - 1], ids[|ids| - 1];
      && Distinct(init) && Stored(db, init)
      && SetOf(ids) == SetOf(init) + {last} && last !in SetOf(init)
      && CountSuccesses(Statuses(db, ids))
         == CountSuccesses(Statuses(db, init)) + (if db.deliveries[last].status == Success then 1 else 0)
  {
    var init, last := ids[..|ids| - 1], ids[|ids| - 1];
    assert ids == init + [last];
    assert Stored(db, init);
    assert Statuses(db, ids)[..|ids| - 1] == Statuses(db, init);
  }

  lemma OneMoreRow(db: Db, rows: set<DeliveryId>, last: DeliveryId)
    requires last !in rows && last in db.deliveries
    ensures |Successes(db, rows + {last})| == |Successes(db, rows)| + (if db.deliveries[last].status == Success then 1 else 0)
  {
    if db.deliveries[last].status == Success {
      assert Successes(db, rows + {last}) == Successes(db, rows) + {last};
    } else {
      assert Successes(db, rows + {last}) == Successes(db, rows);
    }
  }

  /** SUM and COUNT over a set of rows are the loop's counts over any listing of it. */
  lemma {:induction false} CountsAgree(db: Db, ids: seq<DeliveryId>)
    requires Distinct(ids) && Stored(db, ids)
    ensures |SetOf(ids)| == |ids|
    ensures |Successes(db, SetOf(ids))| == CountSuccesses(Statuses(db, ids))
  {
    if ids != [] {
      SplitLast(db, ids);
      CountsAgree(db, ids[..|ids| - 1]);
      OneMoreRow(db, SetOf(ids[..|ids| - 1]), ids[|ids| - 1]);
    } else {
      assert Successes(db, SetOf(ids)) == {};
    }
  }

  /** The query and the loop give the same status exactly when the batch is not
      empty: for no rows the query says failed and the loop says dropped. */
  lemma QueryMatchesLoop(db: Db, ids: seq<DeliveryId>)
    requires Distinct(ids) && Stored(db, ids)
    ensures SqlStatus(db, SetOf(ids)) == StatusOf(Statuses(db, ids)) <==> ids != []
  {
    CountsAgree(db, ids);
    if ids != [] {
      assert ids[0] in SetOf(ids);
    }
  }
}
