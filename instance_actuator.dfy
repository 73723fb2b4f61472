/** The per-instance `start_ec2_instance`/`stop_ec2_instance` of the two
    older lambdas (the same code in both): one EC2 call per id, and the id
    appended in place to the caller's `failed_instances` list when that call
    raises; nothing is ever raised to the caller. Also the calls and the
    failure list a loop over such ids produces. */
module InstanceActuator {
  import opened Effects

  /** `start_ec2_instance` (`a == Start`) and `stop_ec2_instance`
      (`a == Stop`). */
  method ActuateInstance(cloud: Cloud, a: Action, id: string, failed: IdList)
    modifies cloud, failed
    ensures cloud.log == old(cloud.log) + [ActionCall(a, [id])]
    ensures failed.items == old(failed.items) + (if cloud.faults(|old(cloud.log)|).Some? then [id] else [])
  {
    var r := cloud.Invoke(ActionCall(a, [id]));
    if r.Err? {
      failed.Append(id);
    }
  }

  /** The call at log position `n + k` raises. */
  predicate CallFailed(faults: Faults, n: nat, k: nat)
  {
    faults(n + k).Some?
  }

  /** The calls of a loop acting on each id in turn. */
  function LoopCalls(a: Action, ids: seq<string>): seq<Call>
  {
    if |ids| == 0 then [] else LoopCalls(a, ids[..|ids| - 1]) + [ActionCall(a, [ids[|ids| - 1]])]
  }

  /** The failure list such a loop leaves, its calls starting at log
      position `n`. */
  function FailedIds(ids: seq<string>, faults: Faults, n: nat): seq<string>
  {
    if |ids| == 0 then []
    else
      var k := |ids| - 1;
      FailedIds(ids[..k], faults, n) + (if CallFailed(faults, n, k) then [ids[k]] else [])
  }

  /** One more id adds its own call, and its id when that call raises. */
  lemma LoopStep(a: Action, ids: seq<string>, i: nat, faults: Faults, n: nat)
    requires i < |ids|
    ensures LoopCalls(a, ids[..i + 1]) == LoopCalls(a, ids[..i]) + [ActionCall(a, [ids[i]])]
    ensures FailedIds(ids[..i + 1], faults, n) == FailedIds(ids[..i], faults, n) + (if CallFailed(faults, n, i) then [ids[i]] else [])
  {
    assert ids[..i + 1][..i] == ids[..i];
  }

  /** The loop makes as many calls as there are ids. */
  lemma {:induction false} LoopCallsLength(a: Action, ids: seq<string>)
    ensures |LoopCalls(a, ids)| == |ids|
    decreases |ids|
  {
    if |ids| > 0 {
      LoopCallsLength(a, ids[..|ids| - 1]);
    }
  }

  /** One EC2 call per id, in list order, each carrying just that id. */
  lemma {:induction false} OneCallPerId(a: Action, ids: seq<string>)
    ensures |LoopCalls(a, ids)| == |ids|
    ensures forall k :: 0 <= k < |ids| ==> LoopCalls(a, ids)[k] == ActionCall(a, [ids[k]])
    decreases |ids|
  {
    LoopCallsLength(a, ids);
    if |ids| > 0 {
      var m := |ids| - 1;
      OneCallPerId(a, ids[..m]);
      forall k | 0 <= k < |ids| ensures LoopCalls(a, ids)[k] == ActionCall(a, [ids[k]]) {
        if k < m {
          assert ids[..m][k] == ids[k];
        }
      }
    }
  }

  /** `idx` lists, for each id of `out`, the position in `ids` of the failed
      call it comes from: positions strictly increase, and every failed
      position is listed. */
  ghost predicate PicksFailed(ids: seq<string>, out: seq<string>, idx: seq<nat>, faults: Faults, n: nat)
  {
    |idx| == |out| &&
    (forall j :: 0 <= j < |idx| ==> idx[j] < |ids| && ids[idx[j]] == out[j] && CallFailed(faults, n, idx[j])) &&
    (forall j, k :: 0 <= j < k < |idx| ==> idx[j] < idx[k]) &&
    (forall k :: 0 <= k < |ids| && CallFailed(faults, n, k) ==> k in idx)
  }

  lemma PicksFailedExtend(ids: seq<string>, out: seq<string>, idx: seq<nat>, faults: Faults, n: nat, x: string)
    requires PicksFailed(ids, out, idx, faults, n)
    ensures CallFailed(faults, n, |ids|) ==> PicksFailed(ids + [x], out + [x], idx + [|ids|], faults, n)
    ensures !CallFailed(faults, n, |ids|) ==> PicksFailed(ids + [x], out, idx, faults, n)
  {
    var ids2 := ids + [x];
    forall k | 0 <= k < |ids| ensures ids2[k] == ids[k] { }
  }

  /** The failure list is exactly the subsequence of the ids whose call
      raised, in list order: the witness `idx` gives their positions. */
  lemma {:induction false} FailedOrder(ids: seq<string>, faults: Faults, n: nat) returns (idx: seq<nat>)
    ensures PicksFailed(ids, FailedIds(ids, faults, n), idx, faults, n)
    decreases |ids|
  {
    if |ids| == 0 {
      idx := [];
    } else {
      var m := |ids| - 1;
      var ids' := ids[..m];
      var idx' := FailedOrder(ids', faults, n);
      PicksFailedExtend(ids', FailedIds(ids', faults, n), idx', faults, n, ids[m]);
      assert ids' + [ids[m]] == ids;
      idx := if CallFailed(faults, n, m) then idx' + [m] else idx';
    }
  }

  /** The failure list is empty exactly when none of the loop's calls
      raised. */
  lemma {:induction false} FailedEmptyIff(ids: seq<string>, faults: Faults, n: nat)
    ensures FailedIds(ids, faults, n) == [] <==> NoFaultIn(faults, n, n + |ids|)
    decreases |ids|
  {
    if |ids| > 0 {
      var m := |ids| - 1;
      FailedEmptyIff(ids[..m], faults, n);
      if NoFaultIn(faults, n, n + |ids|) {
        assert NoFaultIn(faults, n, n + m);
        assert faults(n + m).None?;
      }
      if FailedIds(ids, faults, n) == [] {
        assert !CallFailed(faults, n, m);
        assert NoFaultIn(faults, n, n + m);
        NoFaultExtend(faults, n, n + m);
      }
    }
  }
}
