/**
 The three actions of the swarm deployment pipeline (`update-services`,
 `update-image-in-db`, `remove-old-services`) and the rollback they share.

 The cluster is a `Swarm` object: a map from (app, process) to the image its service runs,
 the image history per app, and a log of every call made against it. Which calls fail is
 fixed up front by the set `failing`; a failed call is logged and changes nothing.
 */
module SwarmActions {
  import opened Options
  import opened GoStrings
  import opened Seqs

  /** One service per (app, process) pair. */
  datatype ServiceId = ServiceId(app: string, process: string)

  type Services = map<ServiceId, string>

  /** The calls the actions make into code outside this model: `deploy`, `removeService`
      and `image.AppendAppImageName`. */
  datatype Call =
    | DeployCall(app: string, process: string, image: string)
    | RemoveCall(app: string, process: string)
    | AppendImageCall(app: string, image: string)

  datatype Error =
    | DeployFailed(app: string, process: string, image: string)
    | RemoveFailed(app: string, process: string)
    | AppendFailed(app: string, image: string)
    | Wrapped(cause: Error)

  /** What an action's Forward hands on as `action.Result`. */
  datatype ActionResult = Nil | Names(names: seq<string>)

  /** An image's metadata: each declared process and its command. */
  datatype ImageMetadata = ImageMetadata(processes: map<string, string>)

  /** `pipelineArgs` without the client handle, which is the `Swarm` object itself. */
  datatype PipelineArgs = PipelineArgs(
    app: string,
    newImage: string,
    newImgData: ImageMetadata,
    currentImage: string,
    currentImgData: ImageMetadata)

  // ---------------------------------------------------------------------------
  // The effect of calls on the service map
  // ---------------------------------------------------------------------------

  predicate Touches(c: Call, id: ServiceId)
  {
    !c.AppendImageCall? && ServiceId(c.app, c.process) == id
  }

  /** A call's effect on the services: deploy sets the image, remove deletes the service
      (absence is not an error), a failing call does nothing. */
  function Effect(s: Services, failing: set<Call>, c: Call): Services
  {
    if c in failing then s
    else match c
      case DeployCall(a, p, img) => s[ServiceId(a, p) := img]
      case RemoveCall(a, p) => s - {ServiceId(a, p)}
      case AppendImageCall(_, _) => s
  }

  /** The services after making the calls `cs` in order. */
  function Run(s: Services, failing: set<Call>, cs: seq<Call>): Services
    decreases |cs|
  {
    if cs == [] then s else Effect(Run(s, failing, cs[..|cs| - 1]), failing, cs[|cs| - 1])
  }

  /** Same entry in both maps: present in both with one value, or absent from both. */
  predicate AgreeAt(m1: Services, m2: Services, id: ServiceId)
  {
    (id in m1 <==> id in m2) && (id in m1 ==> m1[id] == m2[id])
  }

  /** Where the process was deployed, if the call succeeds. */
  function DeployCalls(app: string, ps: seq<string>, image: string): (cs: seq<Call>)
    ensures |cs| == |ps|
    ensures forall i :: 0 <= i < |ps| ==> cs[i] == DeployCall(app, ps[i], image)
  {
    seq(|ps|, i requires 0 <= i < |ps| => DeployCall(app, ps[i], image))
  }

  /** Rolling back one process: redeploy the current image if it defines the process,
      otherwise remove the service. */
  function RollbackCall(args: PipelineArgs, p: string): (c: Call)
    ensures Touches(c, ServiceId(args.app, p))
    ensures p in args.currentImgData.processes <==> c == DeployCall(args.app, p, args.currentImage)
    ensures p !in args.currentImgData.processes <==> c == RemoveCall(args.app, p)
  {
    if p in args.currentImgData.processes then DeployCall(args.app, p, args.currentImage)
    else RemoveCall(args.app, p)
  }

  function RollbackCalls(args: PipelineArgs, ps: seq<string>): (cs: seq<Call>)
    ensures |cs| == |ps|
    ensures forall i :: 0 <= i < |ps| ==> cs[i] == RollbackCall(args, ps[i])
  {
    seq(|ps|, i requires 0 <= i < |ps| => RollbackCall(args, ps[i]))
  }

  /** Index of the first failing call, or `|cs|` when none fails. */
  function FirstFailure(failing: set<Call>, cs: seq<Call>): (k: nat)
    ensures k <= |cs|
    ensures forall i :: 0 <= i < k ==> cs[i] !in failing
    ensures k < |cs| ==> cs[k] in failing
  {
    if cs == [] then 0
    else if cs[0] in failing then 0
    else 1 + FirstFailure(failing, cs[1..])
  }

  /** The history after `image.AppendAppImageName(app, image)` succeeds. */
  function AppendImage(h: map<string, seq<string>>, app: string, image: string): (h': map<string, seq<string>>)
    ensures h'.Keys == h.Keys + {app}
    ensures h'[app] == (if app in h then h[app] else []) + [image]
    ensures forall a :: a in h && a != app ==> h'[a] == h[a]
  {
    h[app := (if app in h then h[app] else []) + [image]]
  }

  /** The order `update-services` deploys in: the new image's process names, ascending. */
  ghost function DeployOrder(args: PipelineArgs): (order: seq<string>)
    ensures forall p :: p in order <==> p in args.newImgData.processes
  {
    SortedKeys(args.newImgData.processes.Keys)
  }

  /** How many of the new image's processes deploy before the first failure. */
  ghost function DeployedCount(args: PipelineArgs, failing: set<Call>): (k: nat)
    ensures k <= |DeployOrder(args)|
  {
    FirstFailure(failing, DeployCalls(args.app, DeployOrder(args), args.newImage))
  }

  /** The calls `update-services` Forward makes: the deploys up to and including the first
      failing one, then, after a failure, the rollback of those that succeeded. */
  ghost function ForwardCalls(args: PipelineArgs, failing: set<Call>): seq<Call>
  {
    var order := DeployOrder(args);
    var deploys := DeployCalls(args.app, order, args.newImage);
    var k := DeployedCount(args, failing);
    if k == |order| then deploys else deploys[..k + 1] + RollbackCalls(args, order[..k])
  }

  /** What `update-services` Forward returns: every name on success, otherwise a nil
      result and the error of the failing deploy. */
  ghost function ForwardOutcome(args: PipelineArgs, failing: set<Call>): (ActionResult, Option<Error>)
  {
    var order := DeployOrder(args);
    var k := DeployedCount(args, failing);
    if k == |order| then (Names(order), None)
    else (Nil, Some(DeployFailed(args.app, order[k], args.newImage)))
  }

  // ---------------------------------------------------------------------------
  // The cluster
  // ---------------------------------------------------------------------------

  class Swarm {
    var services: Services
    var imageHistory: map<string, seq<string>>
    var calls: seq<Call>
    const failing: set<Call>

    constructor (services: Services, imageHistory: map<string, seq<string>>, failing: set<Call>)
      ensures this.services == services && this.imageHistory == imageHistory
      ensures this.failing == failing && calls == []
    {
      this.services := services;
      this.imageHistory := imageHistory;
      this.failing := failing;
      calls := [];
    }

    /** `deploy(client, app, process, image)`. */
    method Deploy(app: string, process: string, image: string) returns (err: Option<Error>)
      modifies this
      ensures calls == old(calls) + [DeployCall(app, process, image)]
      ensures services == Effect(old(services), failing, DeployCall(app, process, image))
      ensures imageHistory == old(imageHistory)
      ensures err == if DeployCall(app, process, image) in failing then Some(DeployFailed(app, process, image)) else None
    {
      var c := DeployCall(app, process, image);
      calls := calls + [c];
      if c in failing {
        err := Some(DeployFailed(app, process, image));
      } else {
        services := services[ServiceId(app, process) := image];
        err := None;
      }
    }

    /** `removeService(client, app, process)`. */
    method RemoveService(app: string, process: string) returns (err: Option<Error>)
      modifies this
      ensures calls == old(calls) + [RemoveCall(app, process)]
      ensures services == Effect(old(services), failing, RemoveCall(app, process))
      ensures imageHistory == old(imageHistory)
      ensures err == if RemoveCall(app, process) in failing then Some(RemoveFailed(app, process)) else None
    {
      var c := RemoveCall(app, process);
      calls := calls + [c];
      if c in failing {
        err := Some(RemoveFailed(app, process));
      } else {
        services := services - {ServiceId(app, process)};
        err := None;
      }
    }

    /** `image.AppendAppImageName(app, image)`. */
    method AppendAppImageName(app: string, image: string) returns (err: Option<Error>)
      modifies this
      ensures calls == old(calls) + [AppendImageCall(app, image)]
      ensures services == old(services)
      ensures imageHistory == if AppendImageCall(app, image) in failing then old(imageHistory)
                              else AppendImage(old(imageHistory), app, image)
      ensures err == if AppendImageCall(app, image) in failing then Some(AppendFailed(app, image)) else None
    {
      var c := AppendImageCall(app, image);
      calls := calls + [c];
      if c in failing {
        err := Some(AppendFailed(app, image));
      } else {
        imageHistory := AppendImage(imageHistory, app, image);
        err := None;
      }
    }

    /** `rollbackAddedProcesses`: restore or remove each listed process in turn; a failing
        restore or remove is only logged, and the remaining processes are still attempted. */
    method RollbackAddedProcesses(args: PipelineArgs, processes: seq<string>)
      modifies this
      ensures calls == old(calls) + RollbackCalls(args, processes)
      ensures services == Run(old(services), failing, RollbackCalls(args, processes))
      ensures imageHistory == old(imageHistory)
    {
      for i := 0 to |processes|
        invariant calls == old(calls) + RollbackCalls(args, processes[..i])
        invariant services == Run(old(services), failing, RollbackCalls(args, processes[..i]))
        invariant imageHistory == old(imageHistory)
      {
        var p := processes[i];
        var err: Option<Error>;
        if p in args.currentImgData.processes {
          err := Deploy(args.app, p, args.currentImage);
        } else {
          err := RemoveService(args.app, p);
        }
        RollbackStep(old(calls), old(services), failing, args, processes, i, calls, services);
      }
      assert processes[..|processes|] == processes;
    }

    /** The deploy loop of `update-services`: deploy `order` one by one with `image`,
        stopping at the first failure; returns the names deployed before it. */
    method DeployInOrder(app: string, order: seq<string>, image: string) returns (deployed: seq<string>, err: Option<Error>)
      modifies this
      ensures var deploys := DeployCalls(app, order, image);
              var k := FirstFailure(failing, deploys);
              && deployed == order[..k]
              && (k == |order| ==> err == None && calls == old(calls) + deploys)
              && (k < |order| ==> err == Some(DeployFailed(app, order[k], image)) && calls == old(calls) + deploys[..k + 1])
              && services == Run(old(services), failing, deploys[..k])
      ensures imageHistory == old(imageHistory)
    {
      ghost var deploys := DeployCalls(app, order, image);
      ghost var k := FirstFailure(failing, deploys);
      deployed := [];
      err := None;
      var i := 0;
      while i < |order|
        invariant 0 <= i <= k
        invariant deployed == order[..i]
        invariant err == None
        invariant calls == old(calls) + deploys[..i]
        invariant services == Run(old(services), failing, deploys[..i])
        invariant imageHistory == old(imageHistory)
      {
        err := Deploy(app, order[i], image);
        DeployStep(old(calls), old(services), failing, deploys, i, calls, services);
        if err.Some? {
          return;
        }
        TakeOneMore(order, i);
        deployed := deployed + [order[i]];
        i := i + 1;
      }
    }

    /** `update-services` Forward: deploy the new image's processes in ascending order,
        stop at the first failure and then roll back what this run deployed. */
    method UpdateServicesForward(args: PipelineArgs) returns (result: ActionResult, err: Option<Error>)
      modifies this
      ensures (result, err) == ForwardOutcome(args, failing)
      ensures calls == old(calls) + ForwardCalls(args, failing)
      ensures services == Run(old(services), failing, ForwardCalls(args, failing))
      ensures imageHistory == old(imageHistory)
    {
      var toDeploy := Enumerate(args.newImgData.processes.Keys);
      var order := SortStrings(toDeploy);
      assert order == DeployOrder(args) by {
        SortedIsSortedKeys(order, args.newImgData.processes.Keys);
      }
      var deployed;
      deployed, err := DeployInOrder(args.app, order, args.newImage);
      ghost var c1, s1 := calls, services;
      if err.Some? {
        RollbackAddedProcesses(args, deployed);
        result := Nil;
        ForwardFailurePost(args, failing, old(calls), old(services), c1, s1, calls, services, deployed);
      } else {
        result := Names(deployed);
        ForwardSuccessPost(args, failing, old(calls), old(services), calls, services, deployed);
      }
    }

    /** `update-services` Backward: the same rollback, over the names Forward returned. */
    method UpdateServicesBackward(args: PipelineArgs, fwResult: seq<string>)
      modifies this
      ensures calls == old(calls) + RollbackCalls(args, fwResult)
      ensures services == Run(old(services), failing, RollbackCalls(args, fwResult))
      ensures imageHistory == old(imageHistory)
    {
      RollbackAddedProcesses(args, fwResult);
    }

    /** `update-image-in-db` Forward: record the new image, pass the previous result on. */
    method UpdateImageInDBForward(args: PipelineArgs, previous: ActionResult) returns (result: ActionResult, err: Option<Error>)
      modifies this
      ensures calls == old(calls) + [AppendImageCall(args.app, args.newImage)]
      ensures services == old(services)
      ensures if AppendImageCall(args.app, args.newImage) in failing then
                && result == Nil && err == Some(Wrapped(AppendFailed(args.app, args.newImage)))
                && imageHistory == old(imageHistory)
              else
                && result == previous && err == None
                && imageHistory == AppendImage(old(imageHistory), args.app, args.newImage)
    {
      var e := AppendAppImageName(args.app, args.newImage);
      if e.Some? {
        return Nil, Some(Wrapped(e.value));
      }
      return previous, None;
    }

    /** `remove-old-services` Forward: remove every process of the current image that the
        new image no longer defines, in map order; failures are logged and ignored. */
    method RemoveOldServicesForward(args: PipelineArgs) returns (result: ActionResult, err: Option<Error>, ghost order: seq<string>)
      modifies this
      ensures result == Nil && err == None
      ensures multiset(order) == multiset(args.currentImgData.processes.Keys - args.newImgData.processes.Keys)
      ensures calls == old(calls) + RemoveCalls(args.app, order)
      ensures services == WithoutRemoved(old(services), failing, args.app, args.currentImgData.processes.Keys - args.newImgData.processes.Keys)
      ensures imageHistory == old(imageHistory)
    {
      var stale := args.currentImgData.processes.Keys - args.newImgData.processes.Keys;
      order := RemoveAll(args.app, stale);
      result, err := Nil, None;
    }

    /** The loop of `remove-old-services`: one `removeService` per name, errors ignored. */
    method RemoveAll(app: string, stale: set<string>) returns (ghost order: seq<string>)
      modifies this
      ensures multiset(order) == multiset(stale)
      ensures calls == old(calls) + RemoveCalls(app, order)
      ensures services == WithoutRemoved(old(services), failing, app, stale)
      ensures imageHistory == old(imageHistory)
    {
      var names := Enumerate(stale);
      for i := 0 to |names|
        invariant calls == old(calls) + RemoveCalls(app, names[..i])
        invariant services == Run(old(services), failing, RemoveCalls(app, names[..i]))
        invariant imageHistory == old(imageHistory)
      {
        var e := RemoveService(app, names[i]);
        RemoveStep(old(calls), old(services), failing, app, names, i, calls, services);
      }
      assert names[..|names|] == names;
      RunRemoveCalls(old(services), failing, app, names);
      ElementsOfPermutation(names, stale);
      order := names;
    }
  }

  /** Ranging over the keys of a Go map (or a `set.Set`): each key once, in an order the
      language leaves unspecified. */
  method Enumerate(keys: set<string>) returns (names: seq<string>)
    ensures multiset(names) == multiset(keys)
  {
    names := [];
    var remaining := keys;
    ghost var done: set<string> := {};
    while remaining != {}
      invariant remaining <= keys && done == keys - remaining
      invariant multiset(names) == multiset(done)
      decreases remaining
    {
      var p :| p in remaining;
      MultisetAddFresh(done, p);
      names := names + [p];
      remaining := remaining - {p};
      done := done + {p};
    }
  }

  function RemoveCalls(app: string, ps: seq<string>): (cs: seq<Call>)
    ensures |cs| == |ps|
    ensures forall i :: 0 <= i < |ps| ==> cs[i] == RemoveCall(app, ps[i])
  {
    if ps == [] then [] else RemoveCalls(app, ps[..|ps| - 1]) + [RemoveCall(app, ps[|ps| - 1])]
  }

  /** Whether removing process `p` of `app` deletes its service: it does unless the call fails. */
  predicate RemovedBy(failing: set<Call>, app: string, ps: set<string>, id: ServiceId)
  {
    id.app == app && id.process in ps && RemoveCall(app, id.process) !in failing
  }

  /** The services left after removing the processes `ps` of `app`, whatever the order. */
  function WithoutRemoved(m: Services, failing: set<Call>, app: string, ps: set<string>): (r: Services)
    ensures forall id :: id in r <==> id in m && !RemovedBy(failing, app, ps, id)
    ensures forall id :: id in r ==> r[id] == m[id]
  {
    map id | id in m && !RemovedBy(failing, app, ps, id) :: m[id]
  }

  // ---------------------------------------------------------------------------
  // Properties of Run
  // ---------------------------------------------------------------------------

  /** Removing a list of processes, in any order, deletes exactly the services whose
      removal does not fail. */
  lemma {:induction false} RunRemoveCalls(s: Services, failing: set<Call>, app: string, order: seq<string>)
    ensures Run(s, failing, RemoveCalls(app, order)) == WithoutRemoved(s, failing, app, Elements(order))
    decreases |order|
  {
    if order == [] {
      assert Elements(order) == {};
    } else {
      var n := |order| - 1;
      var p := order[n];
      var init := order[..n];
      assert order == init + [p];
      assert Elements(order) == Elements(init) + {p};
      RunRemoveCalls(s, failing, app, init);
      RemoveCallsSnoc(app, init, p);
      RunSnoc(s, failing, RemoveCalls(app, init), RemoveCall(app, p));
      RemovedIdsStep(s, failing, app, Elements(init), p);
    }
  }

  /** The set of elements of a sequence. */
  function Elements(xs: seq<string>): (r: set<string>)
    ensures forall x :: x in r <==> x in xs
  {
    set x | x in xs
  }

  lemma ElementsOfPermutation(xs: seq<string>, keys: set<string>)
    requires multiset(xs) == multiset(keys)
    ensures Elements(xs) == keys
  {
    forall x | x in keys ensures x in xs { assert x in multiset(keys); }
    forall x | x in xs ensures x in keys { assert x in multiset(xs); }
  }

  lemma RemoveCallsSnoc(app: string, ps: seq<string>, p: string)
    ensures RemoveCalls(app, ps + [p]) == RemoveCalls(app, ps) + [RemoveCall(app, p)]
  {
    assert (ps + [p])[..|ps|] == ps;
  }

  lemma MultisetAddFresh(s: set<string>, p: string)
    requires p !in s
    ensures multiset(s + {p}) == multiset(s) + multiset{p}
  {
  }

  /** The failure path of `update-services` Forward meets its specification. */
  lemma ForwardFailurePost(args: PipelineArgs, failing: set<Call>, c0: seq<Call>, s0: Services,
                           c1: seq<Call>, s1: Services, c2: seq<Call>, s2: Services, deployed: seq<string>)
    requires var order := DeployOrder(args);
             var deploys := DeployCalls(args.app, order, args.newImage);
             var k := FirstFailure(failing, deploys);
             && k < |order| && deployed == order[..k]
             && c1 == c0 + deploys[..k + 1] && s1 == Run(s0, failing, deploys[..k])
             && c2 == c1 + RollbackCalls(args, deployed) && s2 == Run(s1, failing, RollbackCalls(args, deployed))
    ensures c2 == c0 + ForwardCalls(args, failing)
    ensures s2 == Run(s0, failing, ForwardCalls(args, failing))
    ensures ForwardOutcome(args, failing)
         == (Nil, Some(DeployFailed(args.app, DeployOrder(args)[DeployedCount(args, failing)], args.newImage)))
  {
    var order := DeployOrder(args);
    var deploys := DeployCalls(args.app, order, args.newImage);
    var k := DeployedCount(args, failing);
    var rb := RollbackCalls(args, deployed);
    assert ForwardCalls(args, failing) == deploys[..k + 1] + rb;
    FailedThenRolledBack(s0, failing, deploys, k, rb, c0, c1, s1, c2, s2);
  }

  /** The failing deploy changes nothing, so rolling back after it runs the whole list. */
  lemma FailedThenRolledBack(s0: Services, failing: set<Call>, deploys: seq<Call>, k: nat, rb: seq<Call>,
                             c0: seq<Call>, c1: seq<Call>, s1: Services, c2: seq<Call>, s2: Services)
    requires k < |deploys| && deploys[k] in failing
    requires c1 == c0 + deploys[..k + 1] && s1 == Run(s0, failing, deploys[..k])
    requires c2 == c1 + rb && s2 == Run(s1, failing, rb)
    ensures c2 == c0 + (deploys[..k + 1] + rb)
    ensures s2 == Run(s0, failing, deploys[..k + 1] + rb)
  {
    RunAppend(s0, failing, deploys[..k + 1], rb);
    TakeOneMore(deploys, k);
    RunSnoc(s0, failing, deploys[..k], deploys[k]);
  }

  /** The success path of `update-services` Forward meets its specification. */
  lemma ForwardSuccessPost(args: PipelineArgs, failing: set<Call>, c0: seq<Call>, s0: Services,
                           c1: seq<Call>, s1: Services, deployed: seq<string>)
    requires var order := DeployOrder(args);
             var deploys := DeployCalls(args.app, order, args.newImage);
             var k := FirstFailure(failing, deploys);
             && k == |order| && deployed == order[..k]
             && c1 == c0 + deploys && s1 == Run(s0, failing, deploys[..k])
    ensures c1 == c0 + ForwardCalls(args, failing)
    ensures s1 == Run(s0, failing, ForwardCalls(args, failing))
    ensures ForwardOutcome(args, failing) == (Names(deployed), None)
  {
    var order := DeployOrder(args);
    var deploys := DeployCalls(args.app, order, args.newImage);
    assert order[..|order|] == order;
    assert deploys[..|deploys|] == deploys;
  }

  /** One deploy of the loop: the prefix of calls grows by it, and a failing deploy is the
      first failure. */
  lemma DeployStep(c0: seq<Call>, s0: Services, failing: set<Call>, deploys: seq<Call>, i: nat,
                   c1: seq<Call>, s1: Services)
    requires i < |deploys| && i <= FirstFailure(failing, deploys)
    requires c1 == c0 + deploys[..i] + [deploys[i]]
    requires s1 == Effect(Run(s0, failing, deploys[..i]), failing, deploys[i])
    ensures c1 == c0 + deploys[..i + 1]
    ensures deploys[i] in failing ==> i == FirstFailure(failing, deploys) && s1 == Run(s0, failing, deploys[..i])
    ensures deploys[i] !in failing ==> i < FirstFailure(failing, deploys) && s1 == Run(s0, failing, deploys[..i + 1])
  {
    TakeOneMore(deploys, i);
    RunSnoc(s0, failing, deploys[..i], deploys[i]);
  }

  /** One removal of the loop of `remove-old-services`. */
  lemma RemoveStep(c0: seq<Call>, s0: Services, failing: set<Call>, app: string, names: seq<string>, i: nat,
                   c1: seq<Call>, s1: Services)
    requires i < |names|
    requires c1 == c0 + RemoveCalls(app, names[..i]) + [RemoveCall(app, names[i])]
    requires s1 == Effect(Run(s0, failing, RemoveCalls(app, names[..i])), failing, RemoveCall(app, names[i]))
    ensures c1 == c0 + RemoveCalls(app, names[..i + 1])
    ensures s1 == Run(s0, failing, RemoveCalls(app, names[..i + 1]))
  {
    TakeOneMore(names, i);
    RemoveCallsSnoc(app, names[..i], names[i]);
    RunSnoc(s0, failing, RemoveCalls(app, names[..i]), RemoveCall(app, names[i]));
  }

  /** One restore or removal of the rollback loop. */
  lemma RollbackStep(c0: seq<Call>, s0: Services, failing: set<Call>, args: PipelineArgs, ps: seq<string>, i: nat,
                     c1: seq<Call>, s1: Services)
    requires i < |ps|
    requires c1 == c0 + RollbackCalls(args, ps[..i]) + [RollbackCall(args, ps[i])]
    requires s1 == Effect(Run(s0, failing, RollbackCalls(args, ps[..i])), failing, RollbackCall(args, ps[i]))
    ensures c1 == c0 + RollbackCalls(args, ps[..i + 1])
    ensures s1 == Run(s0, failing, RollbackCalls(args, ps[..i + 1]))
  {
    TakeOneMore(ps, i);
    assert RollbackCalls(args, ps[..i + 1]) == RollbackCalls(args, ps[..i]) + [RollbackCall(args, ps[i])];
    RunSnoc(s0, failing, RollbackCalls(args, ps[..i]), RollbackCall(args, ps[i]));
  }

  lemma RunSnoc(s: Services, failing: set<Call>, cs: seq<Call>, c: Call)
    ensures Run(s, failing, cs + [c]) == Effect(Run(s, failing, cs), failing, c)
  {
    assert (cs + [c])[..|cs|] == cs;
  }

  /** Removing one more process extends the set of deleted services by that one. */
  lemma RemovedIdsStep(m: Services, failing: set<Call>, app: string, done: set<string>, p: string)
    ensures Effect(WithoutRemoved(m, failing, app, done), failing, RemoveCall(app, p))
         == WithoutRemoved(m, failing, app, done + {p})
  {
  }

  lemma {:induction false} RunAppend(s: Services, failing: set<Call>, a: seq<Call>, b: seq<Call>)
    ensures Run(s, failing, a + b) == Run(Run(s, failing, a), failing, b)
    decreases |b|
  {
    if b == [] {
      assert a + b == a;
    } else {
      assert (a + b)[..|a + b| - 1] == a + b[..|b| - 1];
      assert (a + b)[|a + b| - 1] == b[|b| - 1];
      RunAppend(s, failing, a, b[..|b| - 1]);
    }
  }
}
