/** The queries of `impl File` (src/types.rs): the default package, the main
    flow, filters over the default package's models, descent through the
    hierarchy tree by an id path, and the parent walk that builds such a path. */
module FileQueries {
  import opened Wrappers
  import opened Seqs
  import opened Types
  import Chains

  // ------------------------------------------------------------ packages and the main flow

  predicate HasDefaultPackage(f: File)
  {
    exists i :: 0 <= i < |f.packages| && f.packages[i].isDefaultPackage
  }

  /** `get_default_package`: the first package marked default (the source
      panics when there is none). */
  function GetDefaultPackage(f: File): (r: Package)
    requires HasDefaultPackage(f)
    ensures r.isDefaultPackage
    ensures exists i :: 0 <= i < |f.packages| && f.packages[i] == r &&
                        forall j :: 0 <= j < i ==> !f.packages[j].isDefaultPackage
  {
    var i := FindFirst(f.packages, (p: Package) => p.isDefaultPackage);
    f.packages[i.value]
  }

  function DefaultModels(f: File): seq<Model>
    requires HasDefaultPackage(f)
  {
    GetDefaultPackage(f).models
  }

  predicate IsFlow(h: Hierarchy) { h.kind.Flow? }

  /** `get_main_flow`: the first child of the hierarchy root of kind Flow. */
  function GetMainFlow(f: File): (r: Option<Hierarchy>)
    ensures r.None? <==> f.hierarchy.children.None? ||
                         forall j :: 0 <= j < |f.hierarchy.children.value| ==> !IsFlow(f.hierarchy.children.value[j])
    ensures r.Some? ==> r.value.kind.Flow? &&
                        exists i :: 0 <= i < |f.hierarchy.children.value| && f.hierarchy.children.value[i] == r.value &&
                                    forall j :: 0 <= j < i ==> !IsFlow(f.hierarchy.children.value[j])
  {
    match f.hierarchy.children
    case None => None
    case Some(items) =>
      match FindFirst(items, IsFlow)
      case None => None
      case Some(i) => Some(items[i])
  }

  /** `models.iter().find(|model| model.id() == id)`. */
  function FindModel(models: seq<Model>, id: Id): (r: Option<Model>)
    ensures r.None? <==> forall j :: 0 <= j < |models| ==> ModelId(models[j]) != id
    ensures r.Some? ==> ModelId(r.value) == id &&
                        exists i :: 0 <= i < |models| && models[i] == r.value &&
                                    forall j :: 0 <= j < i ==> ModelId(models[j]) != id
  {
    match FindFirst(models, (m: Model) => ModelId(m) == id)
    case None => None
    case Some(i) => Some(models[i])
  }

  // ------------------------------------------------------------ filters

  /** The filter of `get_models_of_type`: a decoded model by its variant
      name, a `Custom` model by the kind it was exported with. */
  predicate IsOfKind(m: Model, kind: string)
  {
    if m.Custom? then m.kind == kind else VariantName(m) == kind
  }

  /** `get_models_of_type`: the default package's models of that kind, in order, repeats kept. */
  function GetModelsOfType(f: File, kind: string): (r: seq<Model>)
    requires HasDefaultPackage(f)
    ensures SubsequenceOf(r, DefaultModels(f))
    ensures forall m :: multiset(r)[m] == if IsOfKind(m, kind) then multiset(DefaultModels(f))[m] else 0
  {
    Filter(DefaultModels(f), (m: Model) => IsOfKind(m, kind))
  }

  predicate IsDialogueIn(m: Model, flowId: Id)
  {
    m.Dialogue? && m.parent == flowId
  }

  /** `get_dialogues_in_flow`: the default package's Dialogue models whose parent is `flowId`. */
  function GetDialoguesInFlow(f: File, flowId: Id): (r: seq<Model>)
    requires HasDefaultPackage(f)
    ensures SubsequenceOf(r, DefaultModels(f))
    ensures forall m :: multiset(r)[m] == if IsDialogueIn(m, flowId) then multiset(DefaultModels(f))[m] else 0
  {
    Filter(DefaultModels(f), (m: Model) => IsDialogueIn(m, flowId))
  }

  /** Every Dialogue returned for a flow is also a model of kind "Dialogue". */
  lemma DialoguesInFlowAreDialogues(f: File, flowId: Id)
    requires HasDefaultPackage(f)
    ensures forall m :: m in GetDialoguesInFlow(f, flowId) ==> m in GetModelsOfType(f, "Dialogue")
  {
    var d := GetDialoguesInFlow(f, flowId);
    var t := GetModelsOfType(f, "Dialogue");
    forall m | m in d ensures m in t {
      assert multiset(d)[m] > 0;
      assert VariantName(m) == "Dialogue";
      assert multiset(t)[m] > 0;
    }
  }

  // ------------------------------------------------------------ get_hierarchy

  /** The first child of `node` whose id is `id`; none when `node` has no children. */
  function ChildWithId(node: Hierarchy, id: Id): (r: Option<Hierarchy>)
    ensures r.Some? ==> r.value.id == id && node.children.Some? && r.value in node.children.value
    ensures r.Some? ==> exists i :: 0 <= i < |node.children.value| && node.children.value[i] == r.value &&
                                    forall j :: 0 <= j < i ==> node.children.value[j].id != id
    ensures r.None? <==> node.children.None? ||
                         forall j :: 0 <= j < |node.children.value| ==> node.children.value[j].id != id
  {
    match node.children
    case None => None
    case Some(items) =>
      match FindFirst(items, (c: Hierarchy) => c.id == id)
      case None => None
      case Some(i) => Some(items[i])
  }

  /** The entry reached from `node` by descending, step by step, into the
      child named by each element of `path`. */
  function Descend(node: Hierarchy, path: seq<Id>): Option<Hierarchy>
    decreases |path|
  {
    if |path| == 0 then Some(node)
    else match ChildWithId(node, path[0])
      case None => None
      case Some(child) => Descend(child, path[1..])
  }

  /** A successful descent by a non-empty path ends on an entry with the path's last id. */
  lemma {:induction false} DescendEndsOnLastId(node: Hierarchy, path: seq<Id>)
    requires |path| > 0 && Descend(node, path).Some?
    ensures Descend(node, path).value.id == path[|path| - 1]
    decreases |path|
  {
    var child := ChildWithId(node, path[0]).value;
    if |path| > 1 {
      DescendEndsOnLastId(child, path[1..]);
    }
  }

  /** Descending by `p + q` is descending by `p`, then by `q`. */
  lemma {:induction false} DescendAppend(node: Hierarchy, p: seq<Id>, q: seq<Id>)
    ensures Descend(node, p + q) ==
            match Descend(node, p) case None => None case Some(mid) => Descend(mid, q)
    decreases |p|
  {
    if |p| == 0 {
      assert p + q == q;
    } else {
      assert (p + q)[1..] == p[1..] + q;
      match ChildWithId(node, p[0])
      case None =>
      case Some(child) => DescendAppend(child, p[1..], q);
    }
  }

  /** A failed descent stops at a step whose entry, reached by the steps
      before it, has no children or no child with the next id. */
  lemma {:induction false} DescendFailsAtMissingStep(node: Hierarchy, path: seq<Id>)
    requires Descend(node, path).None?
    ensures exists k :: 0 <= k < |path| && Descend(node, path[..k]).Some? &&
                        ChildWithId(Descend(node, path[..k]).value, path[k]).None?
    decreases |path|
  {
    assert path[..0] == [];
    match ChildWithId(node, path[0])
    case None =>
      assert Descend(node, path[..0]) == Some(node);
    case Some(child) =>
      DescendFailsAtMissingStep(child, path[1..]);
      var k :| 0 <= k < |path[1..]| && Descend(child, path[1..][..k]).Some? &&
               ChildWithId(Descend(child, path[1..][..k]).value, path[1..][k]).None?;
      assert path[..k + 1][1..] == path[1..][..k];
      assert Descend(node, path[..k + 1]) == Descend(child, path[1..][..k]);
  }

  /** `get_hierarchy`: walks down from the hierarchy root, one path element at a time. */
  method GetHierarchy(f: File, path: seq<Id>) returns (r: Option<Hierarchy>)
    ensures r == Descend(f.hierarchy, path)
    ensures path == [] ==> r == Some(f.hierarchy)
    ensures r.Some? && |path| > 0 ==> r.value.id == path[|path| - 1]
  {
    var current := f.hierarchy;
    var i := 0;
    while i < |path|
      invariant 0 <= i <= |path|
      invariant Descend(f.hierarchy, path) == Descend(current, path[i..])
    {
      assert path[i..][1..] == path[i + 1..];
      match ChildWithId(current, path[i])
      case None =>
        return None;
      case Some(child) =>
        current := child;
      i := i + 1;
    }
    assert path[i..] == [];
    r := Some(current);
    if |path| > 0 {
      DescendEndsOnLastId(f.hierarchy, path);
    }
  }

  // ------------------------------------------------------------ get_hierarchy_path_from_model

  /** The parent walk from `cur` stops within `n` lookups: it reaches
      `target`, or looks up an id the default package does not have. */
  predicate ChainEnds(f: File, cur: Id, target: Id, n: nat)
    decreases n
  {
    cur == target ||
    (n > 0 && HasDefaultPackage(f) &&
     match FindModel(DefaultModels(f), cur)
     case None => true
     case Some(m) => ChainEnds(f, ModelParent(m), target, n - 1))
  }

  /** One lookup more than the default package has models: a longer walk
      would revisit a model, and the source's loop would never end. */
  function ChainBound(f: File): nat
  {
    if HasDefaultPackage(f) then |DefaultModels(f)| + 1 else 0
  }

  /** What the source demands of `get_hierarchy_path_from_model`: a default
      package when the walk needs one, and a parent walk that ends. */
  predicate PathWalkTerminates(f: File, model: Model)
  {
    GetMainFlow(f).Some? ==> ChainEnds(f, ModelParent(model), GetMainFlow(f).value.id, ChainBound(f))
  }

  /** The ids from `target` down to `cur`, each the parent of the next. */
  function AncestorPath(f: File, cur: Id, target: Id, n: nat): Result<seq<Id>, Error>
    requires ChainEnds(f, cur, target, n)
    decreases n
  {
    if cur == target then Ok([cur])
    else match FindModel(DefaultModels(f), cur)
      case None => Err(NoModel)
      case Some(m) =>
        match AncestorPath(f, ModelParent(m), target, n - 1)
        case Ok(p) => Ok(p + [cur])
        case Err(e) => Err(e)
  }

  function Extend(r: Result<seq<Id>, Error>, tail: seq<Id>): Result<seq<Id>, Error>
  {
    match r
    case Ok(p) => Ok(p + tail)
    case Err(e) => Err(e)
  }

  /** The root-to-model path `get_hierarchy_path_from_model` returns. */
  function HierarchyPath(f: File, model: Model): Result<seq<Id>, Error>
    requires PathWalkTerminates(f, model)
  {
    match GetMainFlow(f)
    case None => Err(NoMainFlow)
    case Some(flow) => Extend(AncestorPath(f, ModelParent(model), flow.id, ChainBound(f)), [ModelId(model)])
  }

  /** `child` names a model of the default package whose parent is `parent`. */
  predicate ParentLink(f: File, child: Id, parent: Id)
  {
    HasDefaultPackage(f) && FindModel(DefaultModels(f), child).Some? &&
    ModelParent(FindModel(DefaultModels(f), child).value) == parent
  }

  lemma {:induction false} AncestorPathShape(f: File, cur: Id, target: Id, n: nat)
    requires ChainEnds(f, cur, target, n)
    ensures AncestorPath(f, cur, target, n).Err? ==> AncestorPath(f, cur, target, n).error == NoModel
    ensures AncestorPath(f, cur, target, n).Ok? ==>
              var p := AncestorPath(f, cur, target, n).value;
              |p| >= 1 && p[0] == target && p[|p| - 1] == cur &&
              forall k :: 1 <= k < |p| ==> ParentLink(f, p[k], p[k - 1])
    decreases n
  {
    if cur != target {
      match FindModel(DefaultModels(f), cur)
      case None =>
      case Some(m) =>
        AncestorPathShape(f, ModelParent(m), target, n - 1);
        if AncestorPath(f, ModelParent(m), target, n - 1).Ok? {
          var q := AncestorPath(f, ModelParent(m), target, n - 1).value;
          var p := q + [cur];
          assert ParentLink(f, p[|p| - 1], p[|p| - 2]);
          forall k | 1 <= k < |p| ensures ParentLink(f, p[k], p[k - 1]) {
            if k < |q| { assert p[k] == q[k] && p[k - 1] == q[k - 1]; }
          }
        }
    }
  }

  /** A successful path starts at the main flow, ends at the model, has the
      model's parent just before it, and every element is the parent of the
      model the next element names. */
  lemma HierarchyPathShape(f: File, model: Model)
    requires PathWalkTerminates(f, model)
    requires HierarchyPath(f, model).Ok?
    ensures GetMainFlow(f).Some?
    ensures var p := HierarchyPath(f, model).value;
            |p| >= 2 && p[0] == GetMainFlow(f).value.id && p[|p| - 1] == ModelId(model) &&
            p[|p| - 2] == ModelParent(model) &&
            forall k :: 1 <= k < |p| - 1 ==> ParentLink(f, p[k], p[k - 1])
  {
    var flow := GetMainFlow(f).value;
    AncestorPathShape(f, ModelParent(model), flow.id, ChainBound(f));
    var q := AncestorPath(f, ModelParent(model), flow.id, ChainBound(f)).value;
    var p := HierarchyPath(f, model).value;
    assert p == q + [ModelId(model)];
    forall k | 1 <= k < |p| - 1 ensures ParentLink(f, p[k], p[k - 1]) {
      assert p[k] == q[k] && p[k - 1] == q[k - 1];
    }
  }

  /** The path fails with NoMainFlow exactly when there is no main flow, and
      otherwise only with NoModel. */
  lemma HierarchyPathErrors(f: File, model: Model)
    requires PathWalkTerminates(f, model)
    ensures HierarchyPath(f, model) == Err(NoMainFlow) <==> GetMainFlow(f).None?
    ensures HierarchyPath(f, model).Err? ==>
              HierarchyPath(f, model).error in {NoMainFlow, NoModel}
  {
    if GetMainFlow(f).Some? {
      AncestorPathShape(f, ModelParent(model), GetMainFlow(f).value.id, ChainBound(f));
    }
  }

  /** `get_hierarchy_path_from_model`: pushes the model's id and parent, walks
      up parent by parent until the main flow's id, then reverses the list. */
  method GetHierarchyPathFromModel(f: File, model: Model) returns (r: Result<seq<Id>, Error>)
    requires PathWalkTerminates(f, model)
    ensures r == HierarchyPath(f, model)
  {
    var mainFlow := GetMainFlow(f);
    if mainFlow.None? {
      return Err(NoMainFlow);
    }
    var mainId := mainFlow.value.id;
    var path := [ModelId(model), ModelParent(model)];
    var cursor := ModelParent(model);
    ghost var fuel := ChainBound(f);
    ghost var middle: seq<Id> := [];
    ghost var whole := AncestorPath(f, ModelParent(model), mainId, fuel);
    assert whole == Extend(whole, []) by {
      if whole.Ok? { assert whole.value + [] == whole.value; }
    }
    while cursor != mainId
      invariant ChainEnds(f, cursor, mainId, fuel)
      invariant path == [ModelId(model)] + middle + [cursor]
      invariant whole == Extend(AncestorPath(f, cursor, mainId, fuel), Reverse(middle))
      decreases fuel
    {
      var found := FindModel(DefaultModels(f), cursor);
      WalkStep(f, cursor, mainId, fuel);
      if found.None? {
        return Err(NoModel);
      }
      var parent := ModelParent(found.value);
      ExtendStep(AncestorPath(f, parent, mainId, fuel - 1), cursor, middle);
      PushStep(ModelId(model), middle, cursor, parent);
      path := path + [parent];
      middle := middle + [cursor];
      cursor := parent;
      fuel := fuel - 1;
    }
    assert AncestorPath(f, cursor, mainId, fuel) == Ok([mainId]);
    ReverseAround(ModelId(model), middle, cursor);
    r := Ok(Reverse(path));
  }

  lemma ExtendStep(r: Result<seq<Id>, Error>, x: Id, middle: seq<Id>)
    ensures Extend(Extend(r, [x]), Reverse(middle)) == Extend(r, Reverse(middle + [x]))
  {
    ReverseAppend(middle, [x]);
    assert Reverse([x]) == [x];
    if r.Ok? {
      assert r.value + [x] + Reverse(middle) == r.value + ([x] + Reverse(middle));
    }
  }

  lemma ReverseAround(a: Id, middle: seq<Id>, b: Id)
    ensures Reverse([a] + middle + [b]) == [b] + Reverse(middle) + [a]
  {
    ReverseAppend([a] + middle, [b]);
    ReverseAppend([a], middle);
    assert Reverse([a]) == [a] && Reverse([b]) == [b];
  }

  /** One lookup of the parent walk, as AncestorPath takes it. */
  lemma WalkStep(f: File, cur: Id, target: Id, n: nat)
    requires ChainEnds(f, cur, target, n) && cur != target
    ensures n > 0 && HasDefaultPackage(f)
    ensures FindModel(DefaultModels(f), cur).None? ==> AncestorPath(f, cur, target, n) == Err(NoModel)
    ensures FindModel(DefaultModels(f), cur).Some? ==>
              var parent := ModelParent(FindModel(DefaultModels(f), cur).value);
              ChainEnds(f, parent, target, n - 1) &&
              AncestorPath(f, cur, target, n) == Extend(AncestorPath(f, parent, target, n - 1), [cur])
  {
  }

  lemma PushStep(first: Id, middle: seq<Id>, cursor: Id, parent: Id)
    ensures [first] + middle + [cursor] + [parent] == [first] + (middle + [cursor]) + [parent]
  {
  }

  // ------------------------------------------------------------ the bound on the parent walk

  /** One turn of the source's loop: from `c`, unless it is `target`, on to
      the parent of the model with id `c`; None when the loop stops there. */
  function ParentOf(f: File, target: Id, c: Id): (r: Option<Id>)
    ensures r.Some? <==> c != target && HasDefaultPackage(f) && FindModel(DefaultModels(f), c).Some?
    ensures r.Some? ==> r.value == ModelParent(FindModel(DefaultModels(f), c).value)
  {
    if c == target || !HasDefaultPackage(f) then None
    else match FindModel(DefaultModels(f), c)
      case None => None
      case Some(m) => Some(ModelParent(m))
  }

  /** ParentOf as a step to repeat. */
  function ParentStep(f: File, target: Id): Id -> Option<Id>
  {
    c => ParentOf(f, target, c)
  }

  /** The walk from `cur` is still going after `n` lookups: it has taken them
      all and has not reached `target`. */
  predicate Walking(f: File, cur: Id, target: Id, n: nat)
  {
    var w := Chains.Iterate(ParentStep(f, target), cur, n);
    w.Some? && w.value != target
  }

  /** ChainEnds is the walk coming to a stop, as the loop takes it. */
  lemma {:induction false} ChainEndsIffStopped(f: File, cur: Id, target: Id, n: nat)
    requires HasDefaultPackage(f)
    ensures ChainEnds(f, cur, target, n) <==> !Walking(f, cur, target, n)
    decreases n
  {
    if n > 0 {
      var next := ParentOf(f, target, cur);
      ChainEndsStep(f, cur, target, n);
      WalkingStep(f, cur, target, n);
      if next.Some? {
        ChainEndsIffStopped(f, next.value, target, n - 1);
      }
    }
  }

  /** Walking unfolded once, in terms of ParentOf. */
  lemma WalkingStep(f: File, cur: Id, target: Id, n: nat)
    requires n > 0
    ensures Walking(f, cur, target, n) <==>
            ParentOf(f, target, cur).Some? && Walking(f, ParentOf(f, target, cur).value, target, n - 1)
  {
    Chains.IterateStep(ParentStep(f, target), cur, n);
    assert ParentStep(f, target)(cur) == ParentOf(f, target, cur);
  }

  /** ChainEnds unfolded once, in terms of ParentOf. */
  lemma ChainEndsStep(f: File, cur: Id, target: Id, n: nat)
    requires HasDefaultPackage(f) && n > 0
    ensures ChainEnds(f, cur, target, n) <==>
            cur == target || ParentOf(f, target, cur).None? || ChainEnds(f, ParentOf(f, target, cur).value, target, n - 1)
  {
  }

  /** The parents the models of a package name. */
  function ParentsOf(models: seq<Model>): (ps: set<Id>)
    ensures |ps| <= |models|
  {
    if |models| == 0 then {} else {ModelParent(models[0])} + ParentsOf(models[1..])
  }

  lemma {:induction false} ParentListed(models: seq<Model>, i: nat)
    requires i < |models|
    ensures ModelParent(models[i]) in ParentsOf(models)
  {
    if i > 0 {
      assert models[1..][i - 1] == models[i];
      ParentListed(models[1..], i - 1);
    }
  }

  /** Every turn of the loop moves the cursor to a parent some model names. */
  lemma ParentStepStaysInPool(f: File, target: Id)
    requires HasDefaultPackage(f)
    ensures forall c :: ParentStep(f, target)(c).Some? ==> ParentStep(f, target)(c).value in ParentsOf(DefaultModels(f))
  {
    forall c | ParentOf(f, target, c).Some? ensures ParentOf(f, target, c).value in ParentsOf(DefaultModels(f)) {
      var i :| 0 <= i < |DefaultModels(f)| && DefaultModels(f)[i] == FindModel(DefaultModels(f), c).value;
      ParentListed(DefaultModels(f), i);
    }
  }

  /** ChainBound loses nothing: a parent walk still going after ChainBound(f)
      lookups has revisited an id, and the source's loop never ends. */
  lemma WalkNeverEnds(f: File, cur: Id, target: Id, n: nat)
    requires !ChainEnds(f, cur, target, ChainBound(f))
    ensures !ChainEnds(f, cur, target, n)
  {
    if HasDefaultPackage(f) {
      var step := ParentStep(f, target);
      var pool := ParentsOf(DefaultModels(f));
      ChainEndsIffStopped(f, cur, target, ChainBound(f));
      Chains.IteratePrefix(step, cur, ChainBound(f), |pool| + 1);
      ParentStepStaysInPool(f, target);
      Chains.IterateForever(step, cur, pool, n + 1);
      Chains.IterateLast(step, cur, n);
      ChainEndsIffStopped(f, cur, target, n);
    }
  }
}
