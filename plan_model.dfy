/** The entities of the planner-component registry and the pure
    specification that the registry's operations are proved against. */
module PlanModel {
  import opened Ucs

  /** The environment-variable prefix every component's options are read under. */
  const ENV_PREFIX: string := "UCX_"

  /** ucg_plan_component_t: a registered planner component. `planConfig`
      is the component's loaded configuration; the C code keeps a pointer
      to the bundle's data area and recovers the bundle header with
      ucs_container_of, the model keeps the bundle pointer itself. */
  class Component {
    const name: string
    const cfgPrefix: string
    const configTable: nat   // identity of plan_config_table
    const configSize: nat    // plan_config_size
    var planConfig: Ptr

    constructor (name: string, cfgPrefix: string, configTable: nat, configSize: nat)
      ensures this.name == name && this.cfgPrefix == cfgPrefix
      ensures this.configTable == configTable && this.configSize == configSize
      ensures planConfig == Null
    {
      this.name := name;
      this.cfgPrefix := cfgPrefix;
      this.configTable := configTable;
      this.configSize := configSize;
      planConfig := Null;
    }
  }

  /** ucg_plan_desc_t: a planner descriptor. */
  datatype PlanDesc = PlanDesc(planName: string, component: Component)

  /** The table field of a configuration bundle; calloc leaves it NULL. */
  datatype TableRef = NoTable | Table(id: nat)

  /** What a heap block holds. */
  datatype Block =
    | DescArray(descs: seq<PlanDesc>, cap: nat)          // ucg_plan_desc_t[cap], `descs` its written prefix
    | Bundle(table: TableRef, prefix: Ptr, size: nat)  // ucg_config_bundle_t with `size` bytes of options
    | Str(chars: string)                               // a heap string (ucs_strdup)

  /** The out-parameters (*resources_p, *nums_p) of a successful discovery. */
  datatype DescList = DescList(resources: Ptr, count: nat)

  /** What a component's query callback answers: a status and, on success,
      the descriptors in the array it allocated. */
  datatype QueryReply = QueryReply(status: Status, plans: seq<PlanDesc>)

  /** How ucs_realloc behaves: fail, resize in place, or move the block. */
  datatype ReallocChoice = ReallocFail | ReallocInPlace | ReallocMove

  /** How the three foreign steps of loading one configuration behave:
      the bundle calloc, ucs_config_parser_fill_opts and ucs_strdup. */
  datatype ConfigReply = ConfigReply(callocOk: bool, fillStatus: Status, strdupOk: bool)

  /** Everything the outside world decides during one iteration of discovery. */
  datatype Step = Step(query: QueryReply, realloc: ReallocChoice, config: ConfigReply)

  // ---------------------------------------------------------------------
  // Configuration loading

  predicate ConfigSucceeds(r: ConfigReply) {
    r.callocOk && r.fillStatus == Ok && r.strdupOk
  }

  /** The status ucg_plan_config_read reports. */
  function ConfigReadStatus(r: ConfigReply): (s: Status)
    ensures s == Ok <==> ConfigSucceeds(r)
    ensures !r.callocOk ==> s == ErrNoMemory
    ensures r.callocOk && r.fillStatus != Ok ==> s == r.fillStatus
    ensures r.callocOk && r.fillStatus == Ok && !r.strdupOk ==> s == ErrNoMemory
  {
    if !r.callocOk then ErrNoMemory
    else if r.fillStatus != Ok then r.fillStatus
    else if !r.strdupOk then ErrNoMemory
    else Ok
  }

  /** The status ucg_plan_read_config reports: any failure to obtain a
      bundle becomes an invalid-parameter error, never a memory error. */
  function ReadConfigStatus(r: ConfigReply): (s: Status)
    ensures s == Ok <==> ConfigSucceeds(r)
    ensures s == Ok || s == ErrInvalidParam
  {
    if ConfigReadStatus(r) == Ok then Ok else ErrInvalidParam
  }

  // ---------------------------------------------------------------------
  // Discovery

  /** One iteration of discovery gets through query, realloc and configuration. */
  predicate StepOk(s: Step) {
    s.query.status == Ok && s.realloc != ReallocFail && ConfigSucceeds(s.config)
  }

  /** The status discovery reports when it stops at step `s`. */
  function StepStatus(s: Step): (st: Status)
    ensures st == Ok <==> StepOk(s)
    ensures s.query.status != Ok ==> st == s.query.status
    ensures s.query.status == Ok && s.realloc == ReallocFail ==> st == ErrNoMemory
    ensures s.query.status == Ok && s.realloc != ReallocFail && !ConfigSucceeds(s.config) ==> st == ErrInvalidParam
  {
    if s.query.status != Ok then s.query.status
    else if s.realloc == ReallocFail then ErrNoMemory
    else ReadConfigStatus(s.config)
  }

  /** The index of the first step that fails, or |steps| when none does. */
  function FailAt(steps: seq<Step>): (k: nat)
    ensures k <= |steps|
    ensures forall j :: 0 <= j < k ==> StepOk(steps[j])
    ensures k < |steps| ==> !StepOk(steps[k])
  {
    if steps == [] || !StepOk(steps[0]) then 0 else 1 + FailAt(steps[1..])
  }

  /** Adding one component at the end moves the first failure only when
      every earlier component succeeded. */
  lemma {:induction false} FailAtSnoc(steps: seq<Step>)
    requires steps != []
    ensures var n := |steps| - 1; var k := FailAt(steps[..n]);
      FailAt(steps) == (if k < n then k else if StepOk(steps[n]) then n + 1 else n)
  {
  }

  /** The status of a whole discovery: the first failing component decides it. */
  function QueryStatus(steps: seq<Step>): (s: Status)
    ensures s == Ok <==> forall j :: 0 <= j < |steps| ==> StepOk(steps[j])
    ensures forall k :: 0 <= k < |steps| && !StepOk(steps[k]) && (forall j :: 0 <= j < k ==> StepOk(steps[j]))
                        ==> s == StepStatus(steps[k])
  {
    var k := FailAt(steps);
    if k == |steps| then Ok else StepStatus(steps[k])
  }

  /** The number of descriptors all components report. */
  function Count(steps: seq<Step>): nat {
    if steps == [] then 0 else Count(steps[..|steps| - 1]) + |steps[|steps| - 1].query.plans|
  }

  /** The descriptors of all components, in registration order. */
  function Flatten(steps: seq<Step>): (r: seq<PlanDesc>)
    ensures |r| == Count(steps)
  {
    if steps == [] then [] else Flatten(steps[..|steps| - 1]) + steps[|steps| - 1].query.plans
  }

  /** Descriptor `k` of component `j` sits right after the descriptors of
      the components before `j`. */
  lemma {:induction false} FlattenAt(steps: seq<Step>, j: nat, k: nat)
    requires j < |steps| && k < |steps[j].query.plans|
    ensures Count(steps[..j]) + k < |Flatten(steps)|
    ensures Flatten(steps)[Count(steps[..j]) + k] == steps[j].query.plans[k]
  {
    var n := |steps| - 1;
    var init := steps[..n];
    assert Flatten(steps) == Flatten(init) + steps[n].query.plans;
    if j == n {
      assert steps[..j] == init;
    } else {
      assert init[..j] == steps[..j];
      FlattenAt(init, j, k);
      CountPrefix(init, j + 1);
      assert init[..j + 1][..j] == steps[..j];
      assert Count(steps[..j]) + k < Count(init);
    }
  }

  /** Counting a prefix gives no more than counting the whole. */
  lemma {:induction false} CountPrefix(steps: seq<Step>, j: nat)
    requires j <= |steps|
    ensures Count(steps[..j]) <= Count(steps)
    ensures j > 0 ==> Count(steps[..j - 1]) + |steps[j - 1].query.plans| <= Count(steps)
  {
    if j < |steps| {
      var init := steps[..|steps| - 1];
      assert init[..j] == steps[..j];
      if j > 0 { assert init[..j - 1] == steps[..j - 1]; }
      CountPrefix(init, j);
    } else if j > 0 {
      assert steps[..j] == steps;
      assert steps[..j - 1] == steps[..|steps| - 1];
    }
  }

  /** The error path of ucg_plan_query frees the accumulated buffer twice:
      the failing iteration is not the first one, and it failed after the
      buffer was last aliased or moved (a query failure, or a configuration
      failure after a successful realloc). */
  predicate QueryDoubleFrees(steps: seq<Step>) {
    var k := FailAt(steps);
    1 <= k < |steps| && (steps[k].query.status != Ok || steps[k].realloc != ReallocFail)
  }

  /** Any component after the first whose query fails makes the error path
      free the accumulated buffer twice. */
  lemma LaterQueryFailureDoubleFrees(steps: seq<Step>, k: nat)
    requires 1 <= k < |steps|
    requires forall j :: 0 <= j < k ==> StepOk(steps[j])
    requires steps[k].query.status != Ok
    ensures QueryDoubleFrees(steps)
    ensures QueryStatus(steps) == steps[k].query.status
  {
  }

  /** A concrete registry that shows the double free: the first component
      succeeds, the second one's query fails. */
  lemma DoubleFreeWitness()
    ensures QueryDoubleFrees([
      Step(QueryReply(Ok, []), ReallocInPlace, ConfigReply(true, Ok, true)),
      Step(QueryReply(ErrOther(-1), []), ReallocInPlace, ConfigReply(true, Ok, true))])
  {
  }

  // ---------------------------------------------------------------------
  // Release

  predicate Distinct(comps: seq<Component>) {
    forall i, j :: 0 <= i < j < |comps| ==> comps[i] != comps[j]
  }

  /** No two descriptors name the same component. */
  predicate DistinctComponents(descs: seq<PlanDesc>) {
    forall i, j :: 0 <= i < j < |descs| ==> descs[i].component != descs[j].component
  }

  /** Every component describes only itself. */
  predicate SelfDescribed(comps: seq<Component>, steps: seq<Step>)
    requires |comps| == |steps|
  {
    forall i, k :: 0 <= i < |steps| && 0 <= k < |steps[i].query.plans| ==> steps[i].query.plans[k].component == comps[i]
  }

  /** The components the flattened descriptors name all come from the registry. */
  lemma {:induction false} FlattenComponents(comps: seq<Component>, steps: seq<Step>)
    requires |comps| == |steps| && SelfDescribed(comps, steps)
    ensures forall d :: d in Flatten(steps) ==> d.component in comps
  {
    if steps != [] {
      var n := |steps| - 1;
      assert SelfDescribed(comps[..n], steps[..n]);
      FlattenComponents(comps[..n], steps[..n]);
      forall d | d in Flatten(steps) ensures d.component in comps {
        if d in Flatten(steps[..n]) {
          assert d.component in comps[..n];
        } else {
          assert d in steps[n].query.plans;
          var k :| 0 <= k < |steps[n].query.plans| && steps[n].query.plans[k] == d;
          assert d.component == comps[n];
        }
      }
    }
  }

  /** Both halves of a list that names every component at most once do too. */
  lemma DistinctParts(f: seq<PlanDesc>, p: seq<PlanDesc>)
    requires DistinctComponents(f + p)
    ensures DistinctComponents(f) && DistinctComponents(p)
  {
    forall i, j | 0 <= i < j < |f| ensures f[i].component != f[j].component {
      assert (f + p)[i] == f[i] && (f + p)[j] == f[j];
    }
    forall i, j | 0 <= i < j < |p| ensures p[i].component != p[j].component {
      assert (f + p)[|f| + i] == p[i] && (f + p)[|f| + j] == p[j];
    }
  }

  /** Two descriptors of one component already name it twice. */
  lemma SharedComponent(p: seq<PlanDesc>, c: Component)
    ensures |p| >= 2 && (forall a :: 0 <= a < |p| ==> p[a].component == c) ==> !DistinctComponents(p)
  {
    if |p| >= 2 && (forall a :: 0 <= a < |p| ==> p[a].component == c) {
      assert p[0].component == p[1].component;
    }
  }

  /** When each registered component describes only itself, the flattened
      list names every component at most once exactly when no component
      contributes more than one descriptor. */
  lemma {:induction false} OneDescriptorEach(comps: seq<Component>, steps: seq<Step>)
    requires |comps| == |steps| && Distinct(comps) && SelfDescribed(comps, steps)
    ensures DistinctComponents(Flatten(steps)) <==> forall i :: 0 <= i < |steps| ==> |steps[i].query.plans| <= 1
  {
    if steps != [] {
      var n := |steps| - 1;
      var ci, si := comps[..n], steps[..n];
      assert SelfDescribed(ci, si);
      OneDescriptorEach(ci, si);
      var f, p := Flatten(si), steps[n].query.plans;
      assert Flatten(steps) == f + p;
      if DistinctComponents(f + p) {
        DistinctParts(f, p);
        assert forall a :: 0 <= a < |p| ==> p[a].component == comps[n];
        SharedComponent(p, comps[n]);
        assert |p| <= 1;
        forall i | 0 <= i < |steps| ensures |steps[i].query.plans| <= 1 {
          if i < n { assert si[i] == steps[i]; }
        }
      } else {
        var i, j :| 0 <= i < j < |f + p| && (f + p)[i].component == (f + p)[j].component;
        if j < |f| {
          assert f[i] == (f + p)[i] && f[j] == (f + p)[j];
          var a :| 0 <= a < |si| && |si[a].query.plans| > 1;
          assert |steps[a].query.plans| > 1;
        } else if i < |f| {
          FlattenComponents(ci, si);
          assert false;
        } else {
          assert |p| > 1;
        }
      }
    }
  }

  // ---------------------------------------------------------------------
  // Single-component description and selection

  /** The name ucs_snprintf_zero leaves in a descriptor's name buffer of
      `nameMax` bytes: as much of `name` as fits before the terminating NUL. */
  function PlanName(name: string, nameMax: nat): (r: string)
    ensures r <= name
    ensures nameMax >= 1 ==> |r| < nameMax
    ensures nameMax >= 1 ==> (r == name <==> |name| < nameMax)
  {
    if |name| < nameMax then name else if nameMax == 0 then [] else name[..nameMax - 1]
  }

  /** ucg_plan_select_component: a requested name other than the first
      descriptor's is an invalid parameter; otherwise the first descriptor's
      component is chosen, whatever the other descriptors are. */
  function SelectComponent(planners: seq<PlanDesc>, plannerName: Option<string>): (r: Result<Component, Status>)
    requires |planners| >= 1
    ensures r.Success? <==> plannerName.None? || plannerName.value == planners[0].planName
    ensures r.Success? ==> r.value == planners[0].component
    ensures r.Failure? ==> r.error == ErrInvalidParam
  {
    if plannerName.Some? && plannerName.value != planners[0].planName then Failure(ErrInvalidParam)
    else Success(planners[0].component)
  }

  /** Selection looks at the first descriptor only. */
  lemma SelectFirstOnly(p: seq<PlanDesc>, q: seq<PlanDesc>, plannerName: Option<string>)
    requires |p| >= 1 && |q| >= 1 && p[0] == q[0]
    ensures SelectComponent(p, plannerName) == SelectComponent(q, plannerName)
  {
  }

  /** Asking for a component by its own name, from the descriptor
      ucg_plan_single made for it, succeeds exactly when the name fitted
      in the descriptor's name buffer. */
  lemma SelectSingleByName(c: Component, nameMax: nat)
    requires nameMax >= 1
    ensures SelectComponent([PlanDesc(PlanName(c.name, nameMax), c)], Some(c.name)).Success? <==> |c.name| < nameMax
  {
  }
}
