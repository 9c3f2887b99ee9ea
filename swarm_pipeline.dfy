/**
 The deploy pipeline `update-services` → `update-image-in-db` → `remove-old-services`, run
 by a small driver.

 The action engine that sequences these actions is not part of this model. The driver
 below ASSUMES its usual semantics: actions run in order, each receiving the previous
 result; when a Forward fails, the Backward of every action whose Forward already succeeded
 runs in reverse order (here only `update-services` has one), and the failing Forward's
 error is the pipeline's result.
 */
module SwarmPipeline {
  import opened Options
  import opened GoStrings
  import opened SwarmActions
  import opened SwarmProperties

  /** The app's services are exactly the processes of `data`, each running `image`. */
  ghost predicate RunsImage(s: Services, app: string, image: string, data: ImageMetadata)
  {
    forall p :: (ServiceId(app, p) in s <==> p in data.processes)
                && (ServiceId(app, p) in s ==> s[ServiceId(app, p)] == image)
  }

  /** The processes the new image drops. */
  function Stale(args: PipelineArgs): set<string>
  {
    args.currentImgData.processes.Keys - args.newImgData.processes.Keys
  }

  ghost predicate DeployFails(args: PipelineArgs, failing: set<Call>)
  {
    DeployedCount(args, failing) < |DeployOrder(args)|
  }

  predicate AppendFails(args: PipelineArgs, failing: set<Call>)
  {
    AppendImageCall(args.app, args.newImage) in failing
  }

  /** The calls of one pipeline run; `removed` is the (unordered) removal order. */
  ghost function PipelineCalls(args: PipelineArgs, failing: set<Call>, removed: seq<string>): seq<Call>
  {
    var fc := ForwardCalls(args, failing);
    if DeployFails(args, failing) then fc
    else if AppendFails(args, failing) then
      fc + [AppendImageCall(args.app, args.newImage)] + RollbackCalls(args, DeployOrder(args))
    else fc + [AppendImageCall(args.app, args.newImage)] + RemoveCalls(args.app, removed)
  }

  ghost function PipelineServices(args: PipelineArgs, failing: set<Call>, s: Services): Services
  {
    var s1 := Run(s, failing, ForwardCalls(args, failing));
    if DeployFails(args, failing) then s1
    else if AppendFails(args, failing) then Run(s1, failing, RollbackCalls(args, DeployOrder(args)))
    else WithoutRemoved(s1, failing, args.app, Stale(args))
  }

  ghost function PipelineError(args: PipelineArgs, failing: set<Call>): Option<Error>
  {
    if DeployFails(args, failing) then ForwardOutcome(args, failing).1
    else if AppendFails(args, failing) then Some(Wrapped(AppendFailed(args.app, args.newImage)))
    else None
  }

  ghost function PipelineHistory(args: PipelineArgs, failing: set<Call>, h: map<string, seq<string>>): map<string, seq<string>>
  {
    if DeployFails(args, failing) || AppendFails(args, failing) then h
    else AppendImage(h, args.app, args.newImage)
  }

  /** One run of the pipeline against `sw` (the engine's semantics assumed as above). */
  method DeployPipeline(sw: Swarm, args: PipelineArgs) returns (err: Option<Error>, ghost removed: seq<string>)
    modifies sw
    ensures err == PipelineError(args, sw.failing)
    ensures multiset(removed) == if err.None? then multiset(Stale(args)) else multiset{}
    ensures sw.calls == old(sw.calls) + PipelineCalls(args, sw.failing, removed)
    ensures sw.services == PipelineServices(args, sw.failing, old(sw.services))
    ensures sw.imageHistory == PipelineHistory(args, sw.failing, old(sw.imageHistory))
  {
    ghost var c0, s0, h0 := sw.calls, sw.services, sw.imageHistory;
    var r1, e1 := sw.UpdateServicesForward(args);
    if e1.Some? {
      DeployFailedRun(args, sw.failing, s0, h0, r1, e1);
      return e1, [];
    }
    ForwardSucceeded(args, sw.failing, r1, e1);
    var r2, e2 := sw.UpdateImageInDBForward(args, r1);
    if e2.Some? {
      sw.UpdateServicesBackward(args, r1.names);
      AppendFailedRun(args, sw.failing, s0, h0);
      AppendFailedCalls(args, sw.failing, c0, sw.calls);
      return e2, [];
    }
    var r3, e3, order := sw.RemoveOldServicesForward(args);
    CompletedRun(args, sw.failing, s0, h0);
    CompletedCalls(args, sw.failing, c0, sw.calls, order);
    return e3, order;
  }

  /** A Forward of `update-services` that returns no error has deployed every process. */
  lemma ForwardSucceeded(args: PipelineArgs, failing: set<Call>, r: ActionResult, e: Option<Error>)
    requires (r, e) == ForwardOutcome(args, failing) && e.None?
    ensures !DeployFails(args, failing) && r == Names(DeployOrder(args))
  {
  }

  lemma DeployFailedRun(args: PipelineArgs, failing: set<Call>, s: Services, h: map<string, seq<string>>,
                        r: ActionResult, e: Option<Error>)
    requires (r, e) == ForwardOutcome(args, failing) && e.Some?
    ensures DeployFails(args, failing) && PipelineError(args, failing) == e
    ensures PipelineCalls(args, failing, []) == ForwardCalls(args, failing)
    ensures PipelineServices(args, failing, s) == Run(s, failing, ForwardCalls(args, failing))
    ensures PipelineHistory(args, failing, h) == h
  {
  }

  lemma AppendFailedRun(args: PipelineArgs, failing: set<Call>, s: Services, h: map<string, seq<string>>)
    requires !DeployFails(args, failing) && AppendFails(args, failing)
    ensures PipelineError(args, failing) == Some(Wrapped(AppendFailed(args.app, args.newImage)))
    ensures PipelineServices(args, failing, s)
         == Run(Run(s, failing, ForwardCalls(args, failing)), failing, RollbackCalls(args, DeployOrder(args)))
    ensures PipelineHistory(args, failing, h) == h
  {
  }

  lemma AppendFailedCalls(args: PipelineArgs, failing: set<Call>, c0: seq<Call>, c: seq<Call>)
    requires !DeployFails(args, failing) && AppendFails(args, failing)
    requires c == c0 + ForwardCalls(args, failing) + [AppendImageCall(args.app, args.newImage)] + RollbackCalls(args, DeployOrder(args))
    ensures c == c0 + PipelineCalls(args, failing, [])
  {
    ConcatAssoc(c0, ForwardCalls(args, failing), [AppendImageCall(args.app, args.newImage)], RollbackCalls(args, DeployOrder(args)));
  }

  lemma CompletedRun(args: PipelineArgs, failing: set<Call>, s: Services, h: map<string, seq<string>>)
    requires !DeployFails(args, failing) && !AppendFails(args, failing)
    ensures PipelineError(args, failing) == None
    ensures PipelineServices(args, failing, s)
         == WithoutRemoved(Run(s, failing, ForwardCalls(args, failing)), failing, args.app, Stale(args))
    ensures PipelineHistory(args, failing, h) == AppendImage(h, args.app, args.newImage)
  {
  }

  lemma CompletedCalls(args: PipelineArgs, failing: set<Call>, c0: seq<Call>, c: seq<Call>, removed: seq<string>)
    requires !DeployFails(args, failing) && !AppendFails(args, failing)
    requires c == c0 + ForwardCalls(args, failing) + [AppendImageCall(args.app, args.newImage)] + RemoveCalls(args.app, removed)
    ensures c == c0 + PipelineCalls(args, failing, removed)
  {
    ConcatAssoc(c0, ForwardCalls(args, failing), [AppendImageCall(args.app, args.newImage)], RemoveCalls(args.app, removed));
  }

  lemma ConcatAssoc(a: seq<Call>, b: seq<Call>, c: seq<Call>, d: seq<Call>)
    ensures a + b + c + d == a + (b + (c + d))
  {
  }

  // ---------------------------------------------------------------------------
  // Properties of whole runs
  // ---------------------------------------------------------------------------

  lemma MapsEqual(m1: Services, m2: Services)
    requires forall id: ServiceId :: AgreeAt(m1, m2, id)
    ensures m1 == m2
  {
    forall id | id in m1 ensures id in m2 && m1[id] == m2[id] {
      assert AgreeAt(m1, m2, id);
    }
    forall id | id in m2 ensures id in m1 {
      assert AgreeAt(m1, m2, id);
    }
  }

  /** After a successful run in which no removal of a dropped process fails, the app runs
      exactly the new image's process set, all on the new image; other apps are untouched. */
  lemma SuccessRunsNewImage(args: PipelineArgs, failing: set<Call>, s: Services)
    requires PipelineError(args, failing).None?
    requires RunsImage(s, args.app, args.currentImage, args.currentImgData)
    requires forall p :: p in Stale(args) ==> RemoveCall(args.app, p) !in failing
    ensures RunsImage(PipelineServices(args, failing, s), args.app, args.newImage, args.newImgData)
    ensures forall id: ServiceId :: id.app != args.app ==> AgreeAt(PipelineServices(args, failing, s), s, id)
  {
    var s1 := Run(s, failing, ForwardCalls(args, failing));
    ForwardSuccessState(args, failing, s);
    forall p ensures ServiceId(args.app, p) in s1 <==> p in args.newImgData.processes || p in args.currentImgData.processes {
      if p !in args.newImgData.processes {
        assert AgreeAt(s1, s, ServiceId(args.app, p));
      }
    }
  }

  /** A failing deploy leaves the services exactly as they were, when the app ran the
      current image before and no restore or remove of the rollback fails. */
  lemma FailedDeployRestores(args: PipelineArgs, failing: set<Call>, s: Services)
    requires DeployFails(args, failing)
    requires RunsImage(s, args.app, args.currentImage, args.currentImgData)
    requires forall p :: RollbackCall(args, p) !in failing
    ensures PipelineServices(args, failing, s) == s
  {
    var r := PipelineServices(args, failing, s);
    var order := DeployOrder(args);
    var k := DeployedCount(args, failing);
    ForwardFailureState(args, failing, s);
    forall id: ServiceId ensures AgreeAt(r, s, id) {
      if id.app == args.app && id.process in args.newImgData.processes {
        var i :| 0 <= i < |order| && order[i] == id.process;
        if i < k {
          assert RollbackCall(args, order[i]) !in failing;
        }
      }
    }
    MapsEqual(r, s);
  }

  /** A failing `update-image-in-db` leaves the services exactly as they were (through
      `update-services` Backward), when the app ran the current image before and no
      restore or remove fails. The image history is left unchanged as well. */
  lemma FailedAppendRestores(args: PipelineArgs, failing: set<Call>, s: Services)
    requires !DeployFails(args, failing) && AppendFails(args, failing)
    requires RunsImage(s, args.app, args.currentImage, args.currentImgData)
    requires forall p :: RollbackCall(args, p) !in failing
    ensures PipelineServices(args, failing, s) == s
  {
    var order := DeployOrder(args);
    var s1 := Run(s, failing, ForwardCalls(args, failing));
    var r := PipelineServices(args, failing, s);
    assert r == Run(s1, failing, RollbackCalls(args, order));
    ForwardSuccessState(args, failing, s);
    DeployOrderDistinct(args);
    forall id: ServiceId ensures AgreeAt(r, s, id) {
      if id.app == args.app && id.process in args.newImgData.processes {
        var i :| 0 <= i < |order| && order[i] == id.process;
        RollbackAt(args, failing, s1, order, i);
      } else {
        RollbackElsewhere(args, failing, s1, order, id);
      }
    }
    MapsEqual(r, s);
  }

  /** Rolling back the same list twice leaves the same services as rolling it back once. */
  lemma RollbackIdempotent(args: PipelineArgs, failing: set<Call>, s: Services, ps: seq<string>)
    requires Distinct(ps)
    ensures var once := Run(s, failing, RollbackCalls(args, ps));
            Run(once, failing, RollbackCalls(args, ps)) == once
  {
    var once := Run(s, failing, RollbackCalls(args, ps));
    var twice := Run(once, failing, RollbackCalls(args, ps));
    forall id: ServiceId ensures AgreeAt(twice, once, id) {
      if id.app == args.app && id.process in ps {
        var i :| 0 <= i < |ps| && ps[i] == id.process;
        RollbackAt(args, failing, s, ps, i);
        RollbackAt(args, failing, once, ps, i);
      } else {
        RollbackElsewhere(args, failing, once, ps, id);
      }
    }
    MapsEqual(twice, once);
  }

  // ---------------------------------------------------------------------------
  // Three end-to-end runs
  // ---------------------------------------------------------------------------

  const App := "blog"
  const V1 := "blog:v1"
  const V2 := "blog:v2"

  function Args(newProcs: map<string, string>, curProcs: map<string, string>): PipelineArgs
  {
    PipelineArgs(App, V2, ImageMetadata(newProcs), V1, ImageMetadata(curProcs))
  }

  /** No call fails, so every deploy succeeds. */
  lemma NothingFails(args: PipelineArgs, failing: set<Call>)
    requires forall p :: DeployCall(args.app, p, args.newImage) !in failing
    ensures !DeployFails(args, failing)
  {
  }

  function ArgsA(): PipelineArgs
  {
    Args(map["web" := "run-web", "worker" := "run-worker"], map["web" := "run-web"])
  }

  /** The new image adds `worker` to `web` and no call fails: the run succeeds and
      nothing is to be removed. */
  lemma ScenarioAddProcessOutcome()
    ensures PipelineError(ArgsA(), {}) == None
    ensures Stale(ArgsA()) == {}
  {
    NothingFails(ArgsA(), {});
  }

  /** The new image adds `worker` to `web`: both end up on the new image. */
  lemma ScenarioAddProcessState()
    ensures PipelineServices(ArgsA(), {}, map[ServiceId(App, "web") := V1])
         == map[ServiceId(App, "web") := V2, ServiceId(App, "worker") := V2]
  {
    var s := map[ServiceId(App, "web") := V1];
    var want := map[ServiceId(App, "web") := V2, ServiceId(App, "worker") := V2];
    ScenarioAddProcessOutcome();
    SuccessRunsNewImage(ArgsA(), {}, s);
    var r := PipelineServices(ArgsA(), {}, s);
    forall id: ServiceId ensures AgreeAt(r, want, id) {
      if id.app == App {
        assert ServiceId(App, id.process) == id;
      }
    }
    MapsEqual(r, want);
  }

  function ArgsB(): PipelineArgs
  {
    Args(map["web" := "run-web"], map["web" := "run-web", "worker" := "run-worker"])
  }

  const FailingB: set<Call> := {RemoveCall(App, "worker")}

  /** The new image drops `worker`; even when removing it fails the run succeeds. */
  lemma ScenarioDropProcessOutcome()
    ensures PipelineError(ArgsB(), FailingB) == None
    ensures Stale(ArgsB()) == {"worker"}
  {
    NothingFails(ArgsB(), FailingB);
  }

  /** The new image drops `worker` and removing it fails: `web` is on the new image and
      `worker` is left as it was. */
  lemma ScenarioDropProcessState()
    ensures PipelineServices(ArgsB(), FailingB, map[ServiceId(App, "web") := V1, ServiceId(App, "worker") := V1])
         == map[ServiceId(App, "web") := V2, ServiceId(App, "worker") := V1]
  {
    var s := map[ServiceId(App, "web") := V1, ServiceId(App, "worker") := V1];
    var want := map[ServiceId(App, "web") := V2, ServiceId(App, "worker") := V1];
    ForwardB(s, want);
    ScenarioDropProcessOutcome();
    CompletedRun(ArgsB(), FailingB, s, map[]);
    RemovalsFail(want, FailingB, App, Stale(ArgsB()));
  }

  /** When every removal fails, `remove-old-services` changes nothing. */
  lemma RemovalsFail(m: Services, failing: set<Call>, app: string, ps: set<string>)
    requires forall p :: p in ps ==> RemoveCall(app, p) in failing
    ensures WithoutRemoved(m, failing, app, ps) == m
  {
  }

  /** Forward of the second run moves `web` to the new image. */
  lemma ForwardB(s: Services, want: Services)
    requires s == map[ServiceId(App, "web") := V1, ServiceId(App, "worker") := V1]
    requires want == map[ServiceId(App, "web") := V2, ServiceId(App, "worker") := V1]
    ensures !DeployFails(ArgsB(), FailingB)
    ensures Run(s, FailingB, ForwardCalls(ArgsB(), FailingB)) == want
  {
    NothingFails(ArgsB(), FailingB);
    ForwardSuccessState(ArgsB(), FailingB, s);
    var s1 := Run(s, FailingB, ForwardCalls(ArgsB(), FailingB));
    forall id: ServiceId ensures AgreeAt(s1, want, id) {
      if id.app == App {
        assert ServiceId(App, id.process) == id;
      }
    }
    MapsEqual(s1, want);
  }

  /** The deploy order of processes `web` and `worker`. */
  lemma WebWorkerOrder(args: PipelineArgs)
    requires args.newImgData.processes.Keys == {"web", "worker"}
    ensures DeployOrder(args) == ["web", "worker"]
  {
    var r := ["web", "worker"];
    assert !Less("worker", "web");
    assert multiset(r) == multiset({"web", "worker"});
    SortedIsSortedKeys(r, args.newImgData.processes.Keys);
  }

  /** The args and the failure of the third run. */
  function ArgsC(): PipelineArgs
  {
    Args(map["web" := "run-web", "worker" := "run-worker"], map["web" := "run-web"])
  }

  const FailingC: set<Call> := {DeployCall(App, "worker", V2)}

  /** In the third run `web` deploys and `worker` is the failing deploy. */
  lemma DeployFailsAtWorker()
    ensures DeployOrder(ArgsC()) == ["web", "worker"]
    ensures DeployedCount(ArgsC(), FailingC) == 1
  {
    WebWorkerOrder(ArgsC());
    DeploysC();
    FirstFailureAtWorker(DeployCalls(App, ["web", "worker"], V2));
  }

  lemma DeploysC()
    ensures DeployCalls(App, ["web", "worker"], V2) == [DeployCall(App, "web", V2), DeployCall(App, "worker", V2)]
  {
  }

  lemma FirstFailureAtWorker(deploys: seq<Call>)
    requires deploys == [DeployCall(App, "web", V2), DeployCall(App, "worker", V2)]
    ensures FirstFailure(FailingC, deploys) == 1
  {
    assert deploys[0] !in FailingC;
    assert deploys[1..] == [DeployCall(App, "worker", V2)];
  }

  lemma ForwardCallsC()
    ensures ForwardCalls(ArgsC(), FailingC)
         == [DeployCall(App, "web", V2), DeployCall(App, "worker", V2), DeployCall(App, "web", V1)]
  {
    var args := ArgsC();
    DeployFailsAtWorker();
    var order := DeployOrder(args);
    var deploys := DeployCalls(App, order, V2);
    DeploysC();
    assert deploys[..2] == deploys;
    assert order[..1] == ["web"];
    RollbackWebC();
    assert ForwardCalls(args, FailingC) == deploys[..2] + RollbackCalls(args, order[..1]);
  }

  lemma RollbackWebC()
    ensures RollbackCalls(ArgsC(), ["web"]) == [DeployCall(App, "web", V1)]
  {
    assert RollbackCall(ArgsC(), "web") == DeployCall(App, "web", V1);
  }

  /** Deploying `worker` fails: the run reports that deploy's error, after deploying `web`
      and `worker` with the new image and then `web` again with the current one. */
  lemma ScenarioDeployFailsOutcome()
    ensures PipelineError(ArgsC(), FailingC) == Some(DeployFailed(App, "worker", V2))
    ensures PipelineCalls(ArgsC(), FailingC, [])
         == [DeployCall(App, "web", V2), DeployCall(App, "worker", V2), DeployCall(App, "web", V1)]
  {
    DeployFailsAtWorker();
    ForwardCallsC();
  }

  /** Deploying `worker` fails: `web` is back on the current image, `worker` was never
      created, and the image history is unchanged. */
  lemma ScenarioDeployFailsState(h: map<string, seq<string>>)
    ensures PipelineServices(ArgsC(), FailingC, map[ServiceId(App, "web") := V1]) == map[ServiceId(App, "web") := V1]
    ensures PipelineHistory(ArgsC(), FailingC, h) == h
  {
    var args := ArgsC();
    var s := map[ServiceId(App, "web") := V1];
    DeployFailsAtWorker();
    assert DeployFails(args, FailingC);
    forall p ensures (ServiceId(App, p) in s <==> p in args.currentImgData.processes)
                     && (ServiceId(App, p) in s ==> s[ServiceId(App, p)] == V1) {
    }
    forall p ensures RollbackCall(args, p) !in FailingC {
    }
    FailedDeployRestores(args, FailingC, s);
  }
}
