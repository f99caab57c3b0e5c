/**
  The tool registry `ALL_TOOLS` (tools/__init__.py): nine per-module
  dictionaries from tool name to entry, merged in a fixed order by dictionary
  unpacking, followed by the start-up assertion that the merge holds 44 tools.
*/
module Registry {
  import opened Json
  import opened Strings

  /** A tool's "definition": the declaration advertised to the model. */
  datatype Declaration = Declaration(name: string, description: string, parameters: Json)

  /** A registry entry: its declaration and its "function", applied to a call's keyword arguments. */
  datatype Tool = Tool(definition: Declaration, invoke: map<string, Json> -> Json)

  /** A tool dictionary, keyed by tool name. */
  type Tools = map<string, Tool>

  // ---------------------------------------------------------------------------
  // Dictionary unpacking
  // ---------------------------------------------------------------------------

  /** `{**modules[0], **modules[1], ...}`: a later dictionary overwrites an earlier one on a shared key. */
  function Merge(modules: seq<Tools>): Tools {
    if modules == [] then map[] else Merge(modules[..|modules| - 1]) + modules[|modules| - 1]
  }

  /** Some module supplies the key `k`. */
  ghost predicate Supplied(modules: seq<Tools>, k: string) {
    exists i :: 0 <= i < |modules| && k in modules[i]
  }

  /** The merged key set is the union of the modules' key sets. */
  lemma {:induction false} MergeKeys(modules: seq<Tools>, k: string)
    ensures k in Merge(modules) <==> Supplied(modules, k)
  {
    if modules != [] {
      var init := modules[..|modules| - 1];
      MergeKeys(init, k);
      if Supplied(init, k) {
        var i :| 0 <= i < |init| && k in init[i];
        assert k in modules[i];
      }
      if Supplied(modules, k) && k !in modules[|modules| - 1] {
        var i :| 0 <= i < |modules| && k in modules[i];
        assert k in init[i];
      }
    }
  }

  /** The last module that supplies `k`: the one whose entry the merge keeps. */
  ghost function Provider(modules: seq<Tools>, k: string): (i: nat)
    requires Supplied(modules, k)
    ensures i < |modules| && k in modules[i]
    ensures forall j :: i < j < |modules| ==> k !in modules[j]
  {
    var last := |modules| - 1;
    if k in modules[last] then last
    else
      var init := modules[..last];
      assert Supplied(init, k) by {
        var i :| 0 <= i < |modules| && k in modules[i];
        assert k in init[i];
      }
      Provider(init, k)
  }

  /**
    Every registered entry is, unchanged, the entry of the last module that
    supplies its key: on a duplicate name the module listed later wins.
  */
  lemma {:induction false} MergeValue(modules: seq<Tools>, k: string)
    requires k in Merge(modules)
    ensures Supplied(modules, k)
    ensures Merge(modules)[k] == modules[Provider(modules, k)][k]
  {
    MergeKeys(modules, k);
    var last := |modules| - 1;
    if k !in modules[last] {
      var init := modules[..last];
      MergeKeys(init, k);
      MergeValue(init, k);
    }
  }

  // ---------------------------------------------------------------------------
  // Sizes and uniqueness
  // ---------------------------------------------------------------------------

  /** The sum of the modules' sizes. */
  function TotalSize(modules: seq<Tools>): nat {
    if modules == [] then 0 else TotalSize(modules[..|modules| - 1]) + |modules[|modules| - 1]|
  }

  /** No tool name is supplied by two different modules. */
  ghost predicate PairwiseDisjoint(modules: seq<Tools>) {
    forall i, j :: 0 <= i < j < |modules| ==> modules[i].Keys !! modules[j].Keys
  }

  /** A new module adds no duplicate exactly when it shares no name with any earlier module. */
  lemma MergeDisjointFrom(modules: seq<Tools>, next: Tools)
    ensures Merge(modules).Keys !! next.Keys <==> forall i :: 0 <= i < |modules| ==> modules[i].Keys !! next.Keys
  {
    if !(Merge(modules).Keys !! next.Keys) {
      var k :| k in Merge(modules).Keys && k in next.Keys;
      MergeKeys(modules, k);
      var i :| 0 <= i < |modules| && k in modules[i];
      assert !(modules[i].Keys !! next.Keys);
    }
    forall i | 0 <= i < |modules| && !(modules[i].Keys !! next.Keys)
      ensures !(Merge(modules).Keys !! next.Keys)
    {
      var k :| k in modules[i].Keys && k in next.Keys;
      MergeKeys(modules, k);
    }
  }

  /** Pairwise disjointness of a list is that of its prefix plus that of its last element with the prefix. */
  lemma PairwiseDisjointSnoc(modules: seq<Tools>)
    requires modules != []
    ensures var last := |modules| - 1;
      PairwiseDisjoint(modules) <==>
        PairwiseDisjoint(modules[..last]) &&
        forall i :: 0 <= i < last ==> modules[i].Keys !! modules[last].Keys
  {
    var last := |modules| - 1;
    var init := modules[..last];
    assert forall i :: 0 <= i < |init| ==> init[i] == modules[i];
  }

  /**
    The merge never holds more entries than the modules supply together, and
    holds exactly that many precisely when no name is supplied twice.
  */
  lemma {:induction false} MergeSize(modules: seq<Tools>)
    ensures |Merge(modules)| <= TotalSize(modules)
    ensures |Merge(modules)| == TotalSize(modules) <==> PairwiseDisjoint(modules)
  {
    if modules != [] {
      var last := |modules| - 1;
      var init := modules[..last];
      var m := Merge(init);
      MergeSize(init);
      MergeDisjointFrom(init, modules[last]);
      PairwiseDisjointSnoc(modules);
      assert forall i :: 0 <= i < |init| ==> init[i] == modules[i];
      var both := m.Keys * modules[last].Keys;
      assert Merge(modules).Keys == m.Keys + modules[last].Keys;
      assert |Merge(modules)| + |both| == |m| + |modules[last]|;
      assert both == {} <==> m.Keys !! modules[last].Keys;
    }
  }

  // ---------------------------------------------------------------------------
  // Entry names
  // ---------------------------------------------------------------------------

  /** Every entry's declared name is its dictionary key. */
  ghost predicate NamedByKey(tools: Tools) {
    forall k :: k in tools ==> tools[k].definition.name == k
  }

  /** When every module names its entries by their keys, so does the merge. */
  lemma {:induction false} MergeKeepsNames(modules: seq<Tools>)
    requires forall i :: 0 <= i < |modules| ==> NamedByKey(modules[i])
    ensures NamedByKey(Merge(modules))
  {
    if modules != [] {
      var last := |modules| - 1;
      var init := modules[..last];
      assert forall i :: 0 <= i < |init| ==> init[i] == modules[i];
      MergeKeepsNames(init);
    }
  }

  // ---------------------------------------------------------------------------
  // ALL_TOOLS
  // ---------------------------------------------------------------------------

  /** The nine tool modules, named after the files that define them. */
  datatype ToolModules = ToolModules(
    fileOps: Tools,
    gitOps: Tools,
    codeAnalysis: Tools,
    networkOps: Tools,
    environment: Tools,
    dataProcessing: Tools,
    textUtils: Tools,
    archiveOps: Tools,
    systemMonitoring: Tools)
  {
    /** The order in which `ALL_TOOLS` unpacks them. */
    function InOrder(): seq<Tools> {
      [fileOps, gitOps, codeAnalysis, networkOps, environment,
       dataProcessing, textUtils, archiveOps, systemMonitoring]
    }

    /** The module sizes as shipped: 5 + 10 + 3 + 4 + 6 + 6 + 5 + 3 + 2. */
    predicate HasShippedSizes() {
      && |fileOps| == 5 && |gitOps| == 10 && |codeAnalysis| == 3
      && |networkOps| == 4 && |environment| == 6 && |dataProcessing| == 6
      && |textUtils| == 5 && |archiveOps| == 3 && |systemMonitoring| == 2
    }
  }

  /** The number of tools the start-up assertion expects. */
  const ExpectedToolCount: nat := 44

  /** Importing the registry either yields `ALL_TOOLS` or fails its assertion. */
  datatype Startup = Registered(tools: Tools) | AssertionFailed(message: string)

  /** `ALL_TOOLS` and the size assertion that follows it. */
  function AllTools(modules: ToolModules): (r: Startup)
    ensures r.Registered? <==> |Merge(modules.InOrder())| == ExpectedToolCount
    ensures r.Registered? ==> r.tools == Merge(modules.InOrder())
  {
    var all := Merge(modules.InOrder());
    if |all| == ExpectedToolCount then Registered(all)
    else AssertionFailed("Expected 44 tools, got " + NatToString(|all|))
  }

  lemma TotalSizeStep(modules: seq<Tools>, n: nat)
    requires n < |modules|
    ensures TotalSize(modules[..n + 1]) == TotalSize(modules[..n]) + |modules[n]|
  {
    assert modules[..n + 1][..n] == modules[..n];
  }

  lemma ShippedTotal(modules: ToolModules)
    requires modules.HasShippedSizes()
    ensures TotalSize(modules.InOrder()) == ExpectedToolCount
  {
    var ms := modules.InOrder();
    assert ms[..0] == [];
    TotalSizeStep(ms, 0); TotalSizeStep(ms, 1); TotalSizeStep(ms, 2);
    TotalSizeStep(ms, 3); TotalSizeStep(ms, 4); TotalSizeStep(ms, 5);
    TotalSizeStep(ms, 6); TotalSizeStep(ms, 7); TotalSizeStep(ms, 8);
    assert ms[..9] == ms;
  }

  /**
    With the shipped module sizes, the start-up assertion succeeds exactly
    when no tool name is supplied by two modules.
  */
  lemma StartupAssertionMeansUniqueNames(modules: ToolModules)
    requires modules.HasShippedSizes()
    ensures AllTools(modules).Registered? <==> PairwiseDisjoint(modules.InOrder())
  {
    ShippedTotal(modules);
    MergeSize(modules.InOrder());
  }
}
