/**
 What the swarm actions leave in the service map, service by service.

 `SwarmActions` states each action's new state as `Run` of the calls it makes; the lemmas
 here read those runs off per (app, process) pair: which image a service ends up with, or
 that it is gone, or that it is exactly as before.
 */
module SwarmProperties {
  import opened GoStrings
  import opened SwarmActions

  /** A list of process names without repetitions. */
  ghost predicate Distinct(ps: seq<string>)
  {
    forall i, j :: 0 <= i < |ps| && 0 <= j < |ps| && i != j ==> ps[i] != ps[j]
  }

  lemma StrictlySortedDistinct(ps: seq<string>)
    requires StrictlySorted(ps)
    ensures Distinct(ps)
  {
    forall i, j | 0 <= i < |ps| && 0 <= j < |ps| && i != j ensures ps[i] != ps[j] {
      if i < j {
        LessIrreflexive(ps[i]);
      } else {
        LessIrreflexive(ps[j]);
      }
    }
  }

  /** The deploy order never names a process twice. */
  lemma DeployOrderDistinct(args: PipelineArgs)
    ensures Distinct(DeployOrder(args))
  {
    SortedKeysStrictlySorted(args.newImgData.processes.Keys);
    StrictlySortedDistinct(DeployOrder(args));
  }

  // ---------------------------------------------------------------------------
  // Runs, one service at a time
  // ---------------------------------------------------------------------------

  lemma EffectAgree(m1: Services, m2: Services, failing: set<Call>, c: Call, id: ServiceId)
    requires AgreeAt(m1, m2, id)
    ensures AgreeAt(Effect(m1, failing, c), Effect(m2, failing, c), id)
  {
  }

  /** Calls that do not touch a service leave it as it was. */
  lemma {:induction false} RunUntouched(s: Services, failing: set<Call>, cs: seq<Call>, id: ServiceId)
    requires forall i :: 0 <= i < |cs| ==> !Touches(cs[i], id)
    ensures AgreeAt(Run(s, failing, cs), s, id)
    decreases |cs|
  {
    if cs != [] {
      RunUntouched(s, failing, cs[..|cs| - 1], id);
    }
  }

  /** A service touched by exactly one call of a run ends up as that call alone leaves it. */
  lemma RunSingleTouch(s: Services, failing: set<Call>, cs: seq<Call>, j: nat, id: ServiceId)
    requires j < |cs| && Touches(cs[j], id)
    requires forall i :: 0 <= i < |cs| && i != j ==> !Touches(cs[i], id)
    ensures AgreeAt(Run(s, failing, cs), Effect(s, failing, cs[j]), id)
  {
    var pre, post := cs[..j], cs[j + 1..];
    assert cs == (pre + [cs[j]]) + post;
    RunAppend(s, failing, pre + [cs[j]], post);
    RunSnoc(s, failing, pre, cs[j]);
    assert forall i :: 0 <= i < |pre| ==> pre[i] == cs[i];
    RunUntouched(s, failing, pre, id);
    EffectAgree(Run(s, failing, pre), s, failing, cs[j], id);
    assert forall i :: 0 <= i < |post| ==> post[i] == cs[j + 1 + i];
    RunUntouched(Run(s, failing, pre + [cs[j]]), failing, post, id);
  }

  // ---------------------------------------------------------------------------
  // rollbackAddedProcesses
  // ---------------------------------------------------------------------------

  /** Each rolled-back process runs the current image if the current image defines it and is
      removed otherwise; a process whose restore or remove fails keeps what it had. */
  lemma RollbackAt(args: PipelineArgs, failing: set<Call>, s: Services, ps: seq<string>, i: nat)
    requires Distinct(ps) && i < |ps|
    ensures var id := ServiceId(args.app, ps[i]);
            var r := Run(s, failing, RollbackCalls(args, ps));
            && (RollbackCall(args, ps[i]) in failing ==> AgreeAt(r, s, id))
            && (RollbackCall(args, ps[i]) !in failing && ps[i] in args.currentImgData.processes ==>
                  id in r && r[id] == args.currentImage)
            && (RollbackCall(args, ps[i]) !in failing && ps[i] !in args.currentImgData.processes ==>
                  id !in r)
  {
    var id := ServiceId(args.app, ps[i]);
    var rb := RollbackCalls(args, ps);
    forall j | 0 <= j < |rb| && j != i ensures !Touches(rb[j], id) {
      assert Touches(rb[j], ServiceId(args.app, ps[j]));
    }
    RunSingleTouch(s, failing, rb, i, id);
  }

  /** A rollback leaves alone every service not in its list. */
  lemma RollbackElsewhere(args: PipelineArgs, failing: set<Call>, s: Services, ps: seq<string>, id: ServiceId)
    requires id.app != args.app || id.process !in ps
    ensures AgreeAt(Run(s, failing, RollbackCalls(args, ps)), s, id)
  {
    var rb := RollbackCalls(args, ps);
    forall j | 0 <= j < |rb| ensures !Touches(rb[j], id) {
      assert Touches(rb[j], ServiceId(args.app, ps[j]));
    }
    RunUntouched(s, failing, rb, id);
  }

  // ---------------------------------------------------------------------------
  // update-services Forward
  // ---------------------------------------------------------------------------

  /** On success every process of the new image runs the new image, and no other service
      changes. */
  lemma ForwardSuccessState(args: PipelineArgs, failing: set<Call>, s: Services)
    requires DeployedCount(args, failing) == |DeployOrder(args)|
    ensures var r := Run(s, failing, ForwardCalls(args, failing));
            forall p :: p in args.newImgData.processes ==>
              ServiceId(args.app, p) in r && r[ServiceId(args.app, p)] == args.newImage
    ensures forall id: ServiceId :: id.app != args.app || id.process !in args.newImgData.processes ==>
              AgreeAt(Run(s, failing, ForwardCalls(args, failing)), s, id)
  {
    var order := DeployOrder(args);
    var deploys := DeployCalls(args.app, order, args.newImage);
    assert ForwardCalls(args, failing) == deploys;
    DeployOrderDistinct(args);
    forall p | p in args.newImgData.processes
      ensures ServiceId(args.app, p) in Run(s, failing, deploys)
      ensures Run(s, failing, deploys)[ServiceId(args.app, p)] == args.newImage
    {
      var i :| 0 <= i < |order| && order[i] == p;
      forall j | 0 <= j < |deploys| && j != i ensures !Touches(deploys[j], ServiceId(args.app, p)) {
      }
      RunSingleTouch(s, failing, deploys, i, ServiceId(args.app, p));
    }
    forall id: ServiceId | id.app != args.app || id.process !in args.newImgData.processes
      ensures AgreeAt(Run(s, failing, deploys), s, id)
    {
      forall j | 0 <= j < |deploys| ensures !Touches(deploys[j], id) {
        assert order[j] in args.newImgData.processes;
      }
      RunUntouched(s, failing, deploys, id);
    }
  }

  /** After a failing deploy: every process deployed before it is rolled back (current image
      if the current image defines it, removed otherwise, unchanged from the new image if the
      rollback call itself fails); the failing process and every process sorted after it
      are exactly as before, and so is every other service. */
  lemma ForwardFailureState(args: PipelineArgs, failing: set<Call>, s: Services)
    requires DeployedCount(args, failing) < |DeployOrder(args)|
    ensures var order := DeployOrder(args);
            var r := Run(s, failing, ForwardCalls(args, failing));
            forall i :: 0 <= i < DeployedCount(args, failing) ==>
              var id := ServiceId(args.app, order[i]);
              && (RollbackCall(args, order[i]) in failing ==> id in r && r[id] == args.newImage)
              && (RollbackCall(args, order[i]) !in failing && order[i] in args.currentImgData.processes ==>
                    id in r && r[id] == args.currentImage)
              && (RollbackCall(args, order[i]) !in failing && order[i] !in args.currentImgData.processes ==>
                    id !in r)
    ensures var order := DeployOrder(args);
            forall i :: DeployedCount(args, failing) <= i < |order| ==>
              AgreeAt(Run(s, failing, ForwardCalls(args, failing)), s, ServiceId(args.app, order[i]))
    ensures forall id: ServiceId :: id.app != args.app || id.process !in args.newImgData.processes ==>
              AgreeAt(Run(s, failing, ForwardCalls(args, failing)), s, id)
  {
    var order := DeployOrder(args);
    var r := Run(s, failing, ForwardCalls(args, failing));
    forall i | 0 <= i < DeployedCount(args, failing)
      ensures var id := ServiceId(args.app, order[i]);
              && (RollbackCall(args, order[i]) in failing ==> id in r && r[id] == args.newImage)
              && (RollbackCall(args, order[i]) !in failing && order[i] in args.currentImgData.processes ==>
                    id in r && r[id] == args.currentImage)
              && (RollbackCall(args, order[i]) !in failing && order[i] !in args.currentImgData.processes ==>
                    id !in r)
    {
      FailureRolledBack(args, failing, s, i);
    }
    forall i | DeployedCount(args, failing) <= i < |order| ensures AgreeAt(r, s, ServiceId(args.app, order[i])) {
      FailureNotReached(args, failing, s, i);
    }
    forall id: ServiceId | id.app != args.app || id.process !in args.newImgData.processes
      ensures AgreeAt(r, s, id)
    {
      FailureElsewhere(args, failing, s, id);
    }
  }

  /** The failure path as two runs: the deploys up to the failing one, then the rollback. */
  lemma FailureSplit(args: PipelineArgs, failing: set<Call>, s: Services)
    requires DeployedCount(args, failing) < |DeployOrder(args)|
    ensures var order := DeployOrder(args);
            var k := DeployedCount(args, failing);
            var head := DeployCalls(args.app, order, args.newImage)[..k + 1];
            Run(s, failing, ForwardCalls(args, failing))
              == Run(Run(s, failing, head), failing, RollbackCalls(args, order[..k]))
  {
    var order := DeployOrder(args);
    var k := DeployedCount(args, failing);
    var head := DeployCalls(args.app, order, args.newImage)[..k + 1];
    assert ForwardCalls(args, failing) == head + RollbackCalls(args, order[..k]);
    RunAppend(s, failing, head, RollbackCalls(args, order[..k]));
  }

  lemma FailureRolledBack(args: PipelineArgs, failing: set<Call>, s: Services, i: nat)
    requires i < DeployedCount(args, failing) < |DeployOrder(args)|
    ensures var order := DeployOrder(args);
            var r := Run(s, failing, ForwardCalls(args, failing));
            var id := ServiceId(args.app, order[i]);
            && (RollbackCall(args, order[i]) in failing ==> id in r && r[id] == args.newImage)
            && (RollbackCall(args, order[i]) !in failing && order[i] in args.currentImgData.processes ==>
                  id in r && r[id] == args.currentImage)
            && (RollbackCall(args, order[i]) !in failing && order[i] !in args.currentImgData.processes ==>
                  id !in r)
  {
    var order := DeployOrder(args);
    var k := DeployedCount(args, failing);
    FailureSplit(args, failing, s);
    DeployOrderDistinct(args);
    assert DeployCalls(args.app, order, args.newImage)[i] !in failing;
    RolledBackOn(args, failing, s, order, k, i);
  }

  /** A process deployed before the failing one ends up as its rollback leaves it. */
  lemma RolledBackOn(args: PipelineArgs, failing: set<Call>, s: Services, order: seq<string>, k: nat, i: nat)
    requires Distinct(order) && i < k < |order|
    requires DeployCall(args.app, order[i], args.newImage) !in failing
    ensures var head := DeployCalls(args.app, order, args.newImage)[..k + 1];
            var r := Run(Run(s, failing, head), failing, RollbackCalls(args, order[..k]));
            var id := ServiceId(args.app, order[i]);
            && (RollbackCall(args, order[i]) in failing ==> id in r && r[id] == args.newImage)
            && (RollbackCall(args, order[i]) !in failing && order[i] in args.currentImgData.processes ==>
                  id in r && r[id] == args.currentImage)
            && (RollbackCall(args, order[i]) !in failing && order[i] !in args.currentImgData.processes ==>
                  id !in r)
  {
    var head := DeployCalls(args.app, order, args.newImage)[..k + 1];
    var id := ServiceId(args.app, order[i]);
    assert Distinct(order[..k]);
    forall j | 0 <= j < |head| && j != i ensures !Touches(head[j], id) {
      assert head[j] == DeployCall(args.app, order[j], args.newImage);
    }
    RunSingleTouch(s, failing, head, i, id);
    RollbackAt(args, failing, Run(s, failing, head), order[..k], i);
  }

  lemma FailureNotReached(args: PipelineArgs, failing: set<Call>, s: Services, i: nat)
    requires DeployedCount(args, failing) <= i < |DeployOrder(args)|
    ensures AgreeAt(Run(s, failing, ForwardCalls(args, failing)), s, ServiceId(args.app, DeployOrder(args)[i]))
  {
    var order := DeployOrder(args);
    var k := DeployedCount(args, failing);
    FailureSplit(args, failing, s);
    DeployOrderDistinct(args);
    assert DeployCalls(args.app, order, args.newImage)[k] in failing;
    NotReachedOn(args, failing, s, order, k, i);
  }

  /** A process at or after the failing deploy keeps what it had. */
  lemma NotReachedOn(args: PipelineArgs, failing: set<Call>, s: Services, order: seq<string>, k: nat, i: nat)
    requires Distinct(order) && k <= i < |order|
    requires DeployCall(args.app, order[k], args.newImage) in failing
    ensures var head := DeployCalls(args.app, order, args.newImage)[..k + 1];
            AgreeAt(Run(Run(s, failing, head), failing, RollbackCalls(args, order[..k])), s, ServiceId(args.app, order[i]))
  {
    var head := DeployCalls(args.app, order, args.newImage)[..k + 1];
    var id := ServiceId(args.app, order[i]);
    assert id.process !in order[..k];
    RollbackElsewhere(args, failing, Run(s, failing, head), order[..k], id);
    if i == k {
      forall j | 0 <= j < |head| && j != k ensures !Touches(head[j], id) {
        assert head[j] == DeployCall(args.app, order[j], args.newImage);
      }
      RunSingleTouch(s, failing, head, k, id);
    } else {
      forall j | 0 <= j < |head| ensures !Touches(head[j], id) {
        assert head[j] == DeployCall(args.app, order[j], args.newImage);
      }
      RunUntouched(s, failing, head, id);
    }
  }

  lemma FailureElsewhere(args: PipelineArgs, failing: set<Call>, s: Services, id: ServiceId)
    requires DeployedCount(args, failing) < |DeployOrder(args)|
    requires id.app != args.app || id.process !in args.newImgData.processes
    ensures AgreeAt(Run(s, failing, ForwardCalls(args, failing)), s, id)
  {
    var order := DeployOrder(args);
    FailureSplit(args, failing, s);
    assert id.app == args.app ==> id.process !in order;
    ElsewhereOn(args, failing, s, order, DeployedCount(args, failing), id);
  }

  /** Deploying a prefix of `order` and rolling back the part before the last deploy does
      not touch a service outside `order`. */
  lemma ElsewhereOn(args: PipelineArgs, failing: set<Call>, s: Services, order: seq<string>, k: nat, id: ServiceId)
    requires k < |order|
    requires id.app != args.app || id.process !in order
    ensures var head := DeployCalls(args.app, order, args.newImage)[..k + 1];
            AgreeAt(Run(Run(s, failing, head), failing, RollbackCalls(args, order[..k])), s, id)
  {
    var deploys := DeployCalls(args.app, order, args.newImage);
    var head := deploys[..k + 1];
    forall j | 0 <= j < |head| ensures !Touches(head[j], id) {
      assert head[j] == DeployCall(args.app, order[j], args.newImage);
    }
    RunUntouched(s, failing, head, id);
    assert id.process in order[..k] ==> id.process in order;
    RollbackElsewhere(args, failing, Run(s, failing, head), order[..k], id);
  }

  /** Forward stops at the first failure: no call it makes touches a process sorted after
      the failing one, and every deploy it makes uses the new image on a process of the new
      image, in ascending order of process name. */
  lemma ForwardStopsAtFailure(args: PipelineArgs, failing: set<Call>)
    requires DeployedCount(args, failing) < |DeployOrder(args)|
    ensures var order := DeployOrder(args);
            var cs := ForwardCalls(args, failing);
            forall j, i :: 0 <= j < |cs| && DeployedCount(args, failing) < i < |order| ==>
              !Touches(cs[j], ServiceId(args.app, order[i]))
    ensures var cs := ForwardCalls(args, failing);
            var k := DeployedCount(args, failing);
            && cs[k] in failing
            && forall j :: 0 <= j <= k ==> cs[j] == DeployCall(args.app, DeployOrder(args)[j], args.newImage)
  {
    var order := DeployOrder(args);
    var k := DeployedCount(args, failing);
    var cs := ForwardCalls(args, failing);
    DeployOrderDistinct(args);
    forall j, i | 0 <= j < |cs| && k < i < |order|
      ensures !Touches(cs[j], ServiceId(args.app, order[i]))
    {
      if j > k {
        assert cs[j] == RollbackCall(args, order[j - k - 1]);
        assert Touches(cs[j], ServiceId(args.app, order[j - k - 1]));
      }
    }
  }

  // ---------------------------------------------------------------------------
  // remove-old-services Forward
  // ---------------------------------------------------------------------------

  /** `remove-old-services` removes each process of the current image that the new image
      dropped, exactly once, and makes no other call. */
  lemma RemoveOldCalls(args: PipelineArgs, order: seq<string>)
    requires multiset(order) == multiset(args.currentImgData.processes.Keys - args.newImgData.processes.Keys)
    ensures var cs := RemoveCalls(args.app, order);
            forall j :: 0 <= j < |cs| ==>
              cs[j].RemoveCall? && cs[j].app == args.app
              && cs[j].process in args.currentImgData.processes
              && cs[j].process !in args.newImgData.processes
    ensures forall p :: p in args.currentImgData.processes && p !in args.newImgData.processes ==>
              multiset(order)[p] == 1
  {
    var cs := RemoveCalls(args.app, order);
    forall j | 0 <= j < |cs|
      ensures cs[j].process in args.currentImgData.processes && cs[j].process !in args.newImgData.processes
    {
      assert order[j] in multiset(order);
    }
  }

  /** After `remove-old-services`: a process the new image defines is untouched, a dropped
      process is gone unless its removal failed, and other apps' services are untouched. */
  lemma RemoveOldState(args: PipelineArgs, failing: set<Call>, s: Services)
    ensures var r := WithoutRemoved(s, failing, args.app, args.currentImgData.processes.Keys - args.newImgData.processes.Keys);
            && (forall id: ServiceId ::
                  (id.app != args.app || id.process !in args.currentImgData.processes
                   || id.process in args.newImgData.processes) ==> AgreeAt(r, s, id))
            && (forall p :: p in args.currentImgData.processes && p !in args.newImgData.processes ==>
                  if RemoveCall(args.app, p) in failing then AgreeAt(r, s, ServiceId(args.app, p))
                  else ServiceId(args.app, p) !in r)
  {
  }
}
