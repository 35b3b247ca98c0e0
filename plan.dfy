/** base/ucg_plan.c: discovery, configuration loading, release and
    selection of planner components, over the process heap of module Ucs.
    Every method changes the heap exactly as its function in PlanSpec
    says; what those functions guarantee is proved there. */
module UcgPlan {
  import opened Ucs
  import opened PlanModel
  import opened PlanSpec

  /** ucg_plan_free: frees a non-NULL pointer and hands back the caller's
      pointer variable, now NULL, so that a second call is a no-op. */
  method PlanFree(heap: Heap<Block>, p: Ptr) returns (cleared: Ptr)
    modifies heap
    ensures cleared == Null
    ensures heap.mem == Release(old(heap.mem), p)
    ensures p.Null? ==> heap.mem == old(heap.mem)
  {
    if p != Null {
      heap.Free(p);
    }
    cleared := Null;
  }

  /** ucg_plan_config_read: allocates a zeroed bundle, fills its options
      from the environment under `envPrefix` and `cfgPrefix`, records the
      table and a copy of the prefix. On any failure the bundle is freed
      and no bundle is handed out. */
  method ConfigRead(heap: Heap<Block>, configTable: nat, configSize: nat, envPrefix: string,
                    cfgPrefix: string, reply: ConfigReply)
    returns (status: Status, bundle: Ptr)
    modifies heap
    ensures var r := ConfigReadRun(old(heap.mem), configTable, configSize, cfgPrefix, reply);
      heap.mem == r.mem && status == r.status && bundle == r.bundle
  {
    bundle := Null;
    var b := heap.Malloc(reply.callocOk, Bundle(NoTable, Null, configSize));
    if b == Null {
      status := ErrNoMemory;
      return;
    }
    // ucs_config_parser_fill_opts(b->data, configTable, envPrefix, cfgPrefix, 0)
    status := reply.fillStatus;
    if status != Ok {
      b := PlanFree(heap, b);
      return;
    }
    heap.Store(b, Bundle(Table(configTable), Null, configSize));
    var prefix := heap.Malloc(reply.strdupOk, Str(cfgPrefix));
    heap.Store(b, Bundle(Table(configTable), prefix, configSize));
    if prefix == Null {
      status := ErrNoMemory;
      b := PlanFree(heap, b);
      return;
    }
    bundle := b;
    status := Ok;
  }

  /** ucg_plan_read_config: loads `planc`'s configuration under "UCX_"
      and links it to the component; whenever no bundle was obtained it
      reports an invalid parameter and leaves the component alone. */
  method ReadConfig(heap: Heap<Block>, planc: Component, reply: ConfigReply) returns (status: Status)
    modifies heap, planc
    ensures var r := ReadConfigRun(old(heap.mem), planc, reply);
      heap.mem == r.mem && status == r.status &&
      planc.planConfig == (if r.bundle.Null? then old(planc.planConfig) else r.bundle)
  {
    var bundle;
    status, bundle := ConfigRead(heap, planc.configTable, planc.configSize, ENV_PREFIX, planc.cfgPrefix, reply);
    if bundle == Null {
      status := ErrInvalidParam;
    } else {
      planc.planConfig := bundle;
    }
  }

  /** ucs_realloc of a descriptor array to `count` entries. */
  method Realloc(heap: Heap<Block>, p: Ptr, count: nat, choice: ReallocChoice) returns (q: Ptr)
    modifies heap
    ensures heap.mem == ReallocRun(old(heap.mem), p, count, choice).0
    ensures q == ReallocRun(old(heap.mem), p, count, choice).1
  {
    if choice == ReallocFail {
      q := Null;
      return;
    }
    var moved := DescArray(Truncate(OldDescs(heap.mem, p), count), count);
    if p.Addr? && choice == ReallocInPlace {
      heap.Store(p, moved);
      q := p;
    } else {
      q := heap.Malloc(true, moved);
      heap.Free(p);
    }
  }

  /** memcpy of the descriptors of array `src` into array `dst` from
      entry `offset` on. */
  method CopyDescs(heap: Heap<Block>, dst: Ptr, offset: nat, src: Ptr)
    requires dst.Addr?
    modifies heap
    ensures heap.mem == CopyRun(old(heap.mem), dst, offset, src)
  {
    var d, cap := OldDescs(heap.mem, dst), CapOf(heap.mem, dst);
    var added := OldDescs(heap.mem, src);
    heap.Access(src);
    var kept := if offset <= |d| then d[..offset] else d;
    heap.Store(dst, DescArray(kept + added, cap));
  }

  /** The cleanup label `err` of ucg_plan_query, as written. */
  method QueryCleanup(heap: Heap<Block>, tmp: Ptr, planners: Ptr, resources: Ptr)
    modifies heap
    ensures heap.mem == CleanupRun(old(heap.mem), tmp, planners, resources)
  {
    var t := PlanFree(heap, tmp);
    var p := PlanFree(heap, planners);
    var r := PlanFree(heap, resources);
  }

  /** The cleanup label of the corrected ucg_plan_query. */
  method QueryCleanupFixed(heap: Heap<Block>, planners: Ptr, resources: Ptr)
    modifies heap
    ensures heap.mem == FixedCleanupRun(old(heap.mem), planners, resources)
  {
    var p := PlanFree(heap, planners);
    var r := PlanFree(heap, resources);
  }

  /** One iteration of the loop of ucg_plan_query, as written, over
      component `planc` whose foreign calls behave as `step` says, with
      `resources` holding the `nums` descriptors gathered so far. On
      success `grown` is the array the loop carries on with. */
  method QueryStep(heap: Heap<Block>, planc: Component, step: Step, resources: Ptr, nums: nat)
    returns (status: Status, grown: Ptr)
    modifies heap, planc
    ensures var s := StepRun(old(heap.mem), planc, step, resources, nums, false);
      heap.mem == s.mem && status == s.status && grown == s.grown &&
      planc.planConfig == (if status == Ok then s.bundle else old(planc.planConfig))
  {
    ghost var m := heap.mem;
    grown := Null;
    // planc->query(UCG_API_VERSION, &planners, &num_plans); a failure
    // reaches `err` with tmp still holding what the previous iteration
    // assigned to resources
    status := step.query.status;
    if status != Ok {
      StepRunQueryFailed(m, planc, step, resources, nums, false);
      QueryCleanup(heap, resources, Null, resources);
      return;
    }
    var planners := heap.Malloc(true, DescArray(step.query.plans, |step.query.plans|));
    var numPlans := |step.query.plans|;
    var tmp := Realloc(heap, resources, nums + numPlans, step.realloc);
    if tmp == Null {
      status := ErrNoMemory;
      StepRunReallocFailed(m, planc, step, resources, nums, false);
      QueryCleanup(heap, tmp, planners, resources);
      return;
    }
    assert heap.mem == Regrow(m, step, resources, nums).0 && tmp == Regrow(m, step, resources, nums).1;
    StepRunResized(m, planc, step, resources, nums, false);
    status := ReadConfig(heap, planc, step.config);
    if status != Ok {
      QueryCleanup(heap, tmp, planners, resources);
      return;
    }
    grown := tmp;
    CopyDescs(heap, grown, nums, planners);
    planners := PlanFree(heap, planners);
  }

  /** One iteration of the corrected loop, which adopts the resized array
      as soon as realloc succeeds. */
  method QueryStepFixed(heap: Heap<Block>, planc: Component, step: Step, resources: Ptr, nums: nat)
    returns (status: Status, grown: Ptr)
    modifies heap, planc
    ensures var s := StepRun(old(heap.mem), planc, step, resources, nums, true);
      heap.mem == s.mem && status == s.status && grown == s.grown &&
      planc.planConfig == (if status == Ok then s.bundle else old(planc.planConfig))
  {
    ghost var m := heap.mem;
    grown := Null;
    status := step.query.status;
    if status != Ok {
      StepRunQueryFailed(m, planc, step, resources, nums, true);
      QueryCleanupFixed(heap, Null, resources);
      return;
    }
    var planners := heap.Malloc(true, DescArray(step.query.plans, |step.query.plans|));
    var numPlans := |step.query.plans|;
    var tmp := Realloc(heap, resources, nums + numPlans, step.realloc);
    if tmp == Null {
      status := ErrNoMemory;
      StepRunReallocFailed(m, planc, step, resources, nums, true);
      QueryCleanupFixed(heap, planners, resources);
      return;
    }
    var current := tmp;
    assert heap.mem == Regrow(m, step, resources, nums).0 && tmp == Regrow(m, step, resources, nums).1;
    StepRunResized(m, planc, step, resources, nums, true);
    status := ReadConfig(heap, planc, step.config);
    if status != Ok {
      QueryCleanupFixed(heap, planners, current);
      return;
    }
    grown := current;
    CopyDescs(heap, grown, nums, planners);
    planners := PlanFree(heap, planners);
  }

  /** QueryRun over one more component, from the outcome over the first `i`. */
  lemma QueryRunSnoc(m: Mem<Block>, comps: seq<Component>, steps: seq<Step>, i: nat, fixed: bool,
                     mem: Mem<Block>, resources: Ptr, nums: nat, bundles: seq<Ptr>)
    requires |comps| == |steps| && i < |steps|
    requires QueryRun(m, comps[..i], steps[..i], fixed) == QueryOutcome(mem, Ok, resources, nums, bundles)
    ensures var s := StepRun(mem, comps[i], steps[i], resources, nums, fixed);
      QueryRun(m, comps[..i + 1], steps[..i + 1], fixed) ==
        if s.status != Ok then QueryOutcome(s.mem, s.status, resources, nums, bundles)
        else QueryOutcome(s.mem, Ok, s.grown, nums + |steps[i].query.plans|, bundles + [s.bundle])
  {
    assert comps[..i + 1][..i] == comps[..i] && steps[..i + 1][..i] == steps[..i];
  }

  /** ucg_plan_query, as written. Component `comps[i]`'s foreign calls
      behave as `steps[i]` says. The heap, the status and the
      out-parameters are those QueryRun describes, and each component's
      configuration pointer is the bundle discovery loaded for it, if any. */
  method Query(heap: Heap<Block>, comps: seq<Component>, steps: seq<Step>)
    returns (status: Status, out: Option<DescList>)
    requires |steps| == |comps| && Distinct(comps)
    modifies heap, comps
    ensures var r := QueryRun(old(heap.mem), comps, steps, false);
      heap.mem == r.mem && status == r.status &&
      out == (if status == Ok then Some(DescList(r.resources, r.nums)) else None)
    ensures var r := QueryRun(old(heap.mem), comps, steps, false);
      forall j :: 0 <= j < |r.bundles| && j < |comps| ==> comps[j].planConfig == r.bundles[j]
    ensures var r := QueryRun(old(heap.mem), comps, steps, false);
      forall j :: |r.bundles| <= j < |comps| ==> comps[j].planConfig == old(comps[j].planConfig)
  {
    ghost var m0 := heap.mem;
    ghost var bundles: seq<Ptr> := [];
    var resources := Null;
    var nums: nat := 0;
    var i := 0;
    while i < |comps|
      invariant 0 <= i <= |comps|
      invariant |bundles| == i
      invariant QueryRun(m0, comps[..i], steps[..i], false) == QueryOutcome(heap.mem, Ok, resources, nums, bundles)
      invariant forall j :: 0 <= j < i ==> comps[j].planConfig == bundles[j]
      invariant forall j :: i <= j < |comps| ==> comps[j].planConfig == old(comps[j].planConfig)
    {
      QueryRunSnoc(m0, comps, steps, i, false, heap.mem, resources, nums, bundles);
      var grown;
      label Before:
      status, grown := QueryStep(heap, comps[i], steps[i], resources, nums);
      forall j | 0 <= j < |comps| && j != i
        ensures comps[j].planConfig == old@Before(comps[j].planConfig)
      {
        assert comps[j] != comps[i];
      }
      if status != Ok {
        out := None;
        assert QueryRun(m0, comps[..i + 1], steps[..i + 1], false).mem == heap.mem;
        QueryRunStops(m0, comps, steps, i + 1, false);
        return;
      }
      resources := grown;
      nums := nums + |steps[i].query.plans|;
      bundles := bundles + [comps[i].planConfig];
      i := i + 1;
    }
    assert comps[..i] == comps && steps[..i] == steps;
    status := Ok;
    out := Some(DescList(resources, nums));
  }

  /** ucg_plan_query with the corrected cleanup: the same as Query except
      that no block is ever freed twice (QueryRunSpec with `fixed`). */
  method QueryFixed(heap: Heap<Block>, comps: seq<Component>, steps: seq<Step>)
    returns (status: Status, out: Option<DescList>)
    requires |steps| == |comps| && Distinct(comps)
    modifies heap, comps
    ensures var r := QueryRun(old(heap.mem), comps, steps, true);
      heap.mem == r.mem && status == r.status &&
      out == (if status == Ok then Some(DescList(r.resources, r.nums)) else None)
    ensures var r := QueryRun(old(heap.mem), comps, steps, true);
      forall j :: 0 <= j < |r.bundles| && j < |comps| ==> comps[j].planConfig == r.bundles[j]
    ensures var r := QueryRun(old(heap.mem), comps, steps, true);
      forall j :: |r.bundles| <= j < |comps| ==> comps[j].planConfig == old(comps[j].planConfig)
  {
    ghost var m0 := heap.mem;
    ghost var bundles: seq<Ptr> := [];
    var resources := Null;
    var nums: nat := 0;
    var i := 0;
    while i < |comps|
      invariant 0 <= i <= |comps|
      invariant |bundles| == i
      invariant QueryRun(m0, comps[..i], steps[..i], true) == QueryOutcome(heap.mem, Ok, resources, nums, bundles)
      invariant forall j :: 0 <= j < i ==> comps[j].planConfig == bundles[j]
      invariant forall j :: i <= j < |comps| ==> comps[j].planConfig == old(comps[j].planConfig)
    {
      QueryRunSnoc(m0, comps, steps, i, true, heap.mem, resources, nums, bundles);
      var grown;
      label Before:
      status, grown := QueryStepFixed(heap, comps[i], steps[i], resources, nums);
      forall j | 0 <= j < |comps| && j != i
        ensures comps[j].planConfig == old@Before(comps[j].planConfig)
      {
        assert comps[j] != comps[i];
      }
      if status != Ok {
        out := None;
        assert QueryRun(m0, comps[..i + 1], steps[..i + 1], true).mem == heap.mem;
        QueryRunStops(m0, comps, steps, i + 1, true);
        return;
      }
      resources := grown;
      nums := nums + |steps[i].query.plans|;
      bundles := bundles + [comps[i].planConfig];
      i := i + 1;
    }
    assert comps[..i] == comps && steps[..i] == steps;
    status := Ok;
    out := Some(DescList(resources, nums));
  }

  /** The bundles the descriptors' components point to
      (plan_component->plan_config). */
  function ConfigPtrs(descs: seq<PlanDesc>): (ps: seq<Ptr>)
    reads set d | d in descs :: d.component
    ensures |ps| == |descs|
    ensures forall i :: 0 <= i < |descs| ==> ps[i] == descs[i].component.planConfig
  {
    if descs == [] then [] else ConfigPtrs(descs[..|descs| - 1]) + [descs[|descs| - 1].component.planConfig]
  }

  /** After discovery has set every registered component's configuration
      pointer to its bundle, the descriptors of registered components lead
      release to the bundles DescBundles names. */
  lemma ConfigPtrsAreBundles(comps: seq<Component>, bundles: seq<Ptr>, descs: seq<PlanDesc>)
    requires |bundles| == |comps| && forall j :: 0 <= j < |comps| ==> comps[j].planConfig == bundles[j]
    requires forall d :: d in descs ==> d.component in comps
    ensures ConfigPtrs(descs) == DescBundles(comps, bundles, descs)
  {
  }

  /** The body of the loop of ucg_plan_release_list for one descriptor:
      release the options of the bundle `b`, free its prefix copy, then
      the bundle. */
  method ReleaseBundle(heap: Heap<Block>, b: Ptr)
    requires b.Addr?
    modifies heap
    ensures heap.mem == ReleaseBundleRun(old(heap.mem), b)
  {
    var pre := PrefixOf(heap.mem, b);
    // ucs_config_parser_release_opts(bundle->data, bundle->table)
    heap.Access(b);
    // ucg_plan_free(&bundle->table_prefix)
    heap.Access(b);
    if pre != Null {
      var blk := heap.mem.cells[b.id].data;
      heap.Free(pre);
      heap.Store(b, blk.(prefix := Null));
    }
    heap.Free(b);
  }

  /** ucg_plan_release_list: releases the bundle of each of the first
      `count` descriptors of the array `resources`, then the array. The
      descriptors are those the array holds on entry: releasing a bundle
      never writes the array. A NULL array with no descriptors is left
      alone. */
  method ReleaseList(heap: Heap<Block>, resources: Ptr, count: nat)
    requires count <= |OldDescs(heap.mem, resources)|
    requires forall i :: 0 <= i < count ==> OldDescs(heap.mem, resources)[i].component.planConfig.Addr?
    modifies heap
    ensures heap.mem == ReleaseListRun(old(heap.mem), resources, ConfigPtrs(old(OldDescs(heap.mem, resources))[..count]))
    ensures resources.Null? && count == 0 ==> heap.mem == old(heap.mem)
  {
    ghost var m0 := heap.mem;
    var descs := OldDescs(heap.mem, resources);
    ghost var ps := ConfigPtrs(descs[..count]);
    var i := 0;
    while i < count
      invariant i <= count
      invariant heap.mem == ReleaseLoopRun(m0, resources, ps[..i])
    {
      // plan_desc = &resources[i]
      heap.Access(resources);
      var bundle := descs[i].component.planConfig;
      ReleaseBundle(heap, bundle);
      assert ps[..i + 1][..i] == ps[..i];
      i := i + 1;
    }
    assert ps[..count] == ps;
    var cleared := PlanFree(heap, resources);
  }

  /** ucg_plan_single: describes component `planc` alone, its name cut to
      a buffer of `nameMax` (UCG_PLAN_COMPONENT_NAME_MAX) bytes; `mallocOk`
      is the allocator's choice. On failure the out-parameters are not
      written. */
  method PlanSingle(heap: Heap<Block>, planc: Component, nameMax: nat, mallocOk: bool)
    returns (status: Status, out: Option<DescList>)
    modifies heap
    ensures var r := SingleRun(old(heap.mem), planc, nameMax, mallocOk);
      heap.mem == r.mem && status == r.status && out == r.out
  {
    var resource := heap.Malloc(mallocOk, DescArray([PlanDesc(PlanName(planc.name, nameMax), planc)], 1));
    if resource == Null {
      return ErrNoMemory, None;
    }
    status, out := Ok, Some(DescList(resource, 1));
  }
}
