/** The user-preferences tree of the mock store and the recursive deep merge
    `updateUserPreferences` applies to it (services/mockApi.ts). A preferences
    object is a tree whose inner nodes are plain objects and whose leaves are
    booleans, strings or numbers. */
module Preferences {
  import opened Wrappers

  datatype Value = Flag(b: bool) | Text(s: string) | Number(n: int)

  datatype Node = Leaf(v: Value) | Branch(children: map<string, Node>)

  /** The node reached from `n` by following `path`, if every step exists. */
  function Get(n: Node, path: seq<string>): Option<Node>
    decreases |path|
  {
    if path == [] then Some(n)
    else match n
      case Leaf(_) => None
      case Branch(c) => if path[0] in c then Get(c[path[0]], path[1..]) else None
  }

  /** Whether a source subtree holds an object below it: merging such a subtree
      onto a stored primitive evaluates `key in <primitive>`, a TypeError. */
  predicate HasBranchChild(sv: Node)
  {
    sv.Branch? && exists j :: j in sv.children && sv.children[j].Branch?
  }

  /** `merge(target, source)` for an object `target` and an object `source`:
      `None` when the merge throws. For every key of `source`, an object value
      over an existing key is merged into the stored value first; then every key
      of `source` is copied onto `target`. */
  function Merge(target: map<string, Node>, source: Node): (r: Option<map<string, Node>>)
    requires source.Branch?
    decreases source, 0
    ensures r.Some? ==> r.value.Keys == target.Keys + source.children.Keys
    ensures r.Some? ==> forall k :: k in target && k !in source.children ==> r.value[k] == target[k]
    ensures r.Some? ==> forall k :: k in source.children && source.children[k].Leaf? ==> r.value[k] == source.children[k]
    ensures r.Some? ==> forall k :: k in source.children && k !in target ==> r.value[k] == source.children[k]
  {
    var s := source.children;
    if exists k :: k in s && MergeChild(target, k, s[k]).None? then None
    else
      Some(map k | k in target.Keys + s.Keys :: if k in s then MergeChild(target, k, s[k]).value else target[k])
  }

  /** The value stored under key `k` once the source value `sv` is merged in:
      a primitive, or a key the target lacks, is copied; an object over a stored
      object is merged recursively; an object over a stored primitive is copied
      when it has no object inside, and throws otherwise. */
  function MergeChild(target: map<string, Node>, k: string, sv: Node): (r: Option<Node>)
    decreases sv, 1
    ensures sv.Leaf? || k !in target ==> r == Some(sv)
    ensures r.None? ==> sv.Branch? && k in target
  {
    if sv.Leaf? || k !in target then Some(sv)
    else match target[k]
      case Branch(tc) =>
        (match Merge(tc, sv)
         case Some(m) => Some(Branch(m))
         case None => None)
      case Leaf(_) =>
        if HasBranchChild(sv) then None else Some(sv)
  }

  /** The shape condition under which the merge does not throw: no object of the
      source with an object inside it lands on a stored primitive. */
  predicate Compatible(target: map<string, Node>, source: Node)
    requires source.Branch?
    decreases source
  {
    forall k :: k in source.children && source.children[k].Branch? && k in target ==>
      match target[k]
      case Branch(tc) => Compatible(tc, source.children[k])
      case Leaf(_) => !HasBranchChild(source.children[k])
  }

  /** The merge succeeds exactly on compatible shapes. */
  lemma {:induction false} MergeDefined(target: map<string, Node>, source: Node)
    requires source.Branch?
    decreases source
    ensures Merge(target, source).Some? <==> Compatible(target, source)
  {
    var s := source.children;
    forall k | k in s && s[k].Branch? && k in target && target[k].Branch?
      ensures Merge(target[k].children, s[k]).Some? <==> Compatible(target[k].children, s[k])
    {
      MergeDefined(target[k].children, s[k]);
    }
  }

  /** Whether `path` leaves the source tree: at some step it names a key the
      source object at that point does not hold. */
  predicate Outside(source: Node, path: seq<string>)
    decreases |path|
  {
    path != [] && source.Branch? &&
    (path[0] !in source.children || Outside(source.children[path[0]], path[1..]))
  }

  /** Every path the partial does not mention keeps its stored value. */
  lemma {:induction false} MergeKeeps(target: map<string, Node>, source: Node, path: seq<string>)
    requires source.Branch? && Merge(target, source).Some?
    requires Outside(source, path)
    decreases |path|
    ensures Get(Branch(Merge(target, source).value), path) == Get(Branch(target), path)
  {
    var r := Merge(target, source).value;
    var s := source.children;
    var k := path[0];
    if k !in s {
      if k in target {
        assert r[k] == target[k];
      }
    } else {
      var sv := s[k];
      assert MergeChild(target, k, sv).Some?;
      assert sv.Branch?;
      if k in target {
        match target[k]
        case Branch(tc) =>
          var m := Merge(tc, sv).value;
          assert r[k] == Branch(m);
          MergeKeeps(tc, sv, path[1..]);
        case Leaf(_) =>
          assert r[k] == sv;
          OutsideFlat(sv, path[1..]);
      } else {
        assert r[k] == sv;
        OutsideMissing(sv, path[1..]);
      }
    }
  }

  /** A path leaving a subtree whose children are all primitives reaches nothing there. */
  lemma OutsideFlat(sv: Node, path: seq<string>)
    requires sv.Branch? && !HasBranchChild(sv) && Outside(sv, path)
    ensures Get(sv, path) == None
  {
  }

  /** A path leaving a subtree reaches nothing in it. */
  lemma {:induction false} OutsideMissing(sv: Node, path: seq<string>)
    requires Outside(sv, path)
    decreases |path|
    ensures Get(sv, path) == None
  {
    if path[0] in sv.children {
      OutsideMissing(sv.children[path[0]], path[1..]);
    }
  }

  /** Every leaf of the partial overwrites the stored value at its path. */
  lemma {:induction false} MergeOverwrites(target: map<string, Node>, source: Node, path: seq<string>, v: Value)
    requires source.Branch? && Merge(target, source).Some?
    requires Get(source, path) == Some(Leaf(v))
    decreases |path|
    ensures Get(Branch(Merge(target, source).value), path) == Some(Leaf(v))
  {
    var r := Merge(target, source).value;
    var s := source.children;
    var k := path[0];
    var sv := s[k];
    assert MergeChild(target, k, sv).Some?;
    if sv.Leaf? || k !in target {
      assert r[k] == sv;
    } else {
      match target[k]
      case Branch(tc) =>
        assert r[k] == Branch(Merge(tc, sv).value);
        MergeOverwrites(tc, sv, path[1..], v);
      case Leaf(_) =>
        assert r[k] == sv;
    }
  }

  /** The seeded preferences of the mock store. */
  function SeedPreferences(): (r: Node)
    ensures Get(r, ["billing", "autoSettleSmallPayouts"]) == Some(Leaf(Flag(true)))
    ensures Get(r, ["billing", "consolidatedMonthlyInvoice"]) == Some(Leaf(Flag(false)))
  {
    Branch(map[
      "notifications" := Branch(map[
        "criticalAlerts" := Leaf(Flag(true)),
        "maintenanceAlerts" := Leaf(Flag(true)),
        "dailyReport" := Leaf(Flag(false)),
        "weeklySummary" := Leaf(Flag(true)),
        "monthlyStatement" := Leaf(Flag(false)),
        "billing" := Branch(map[
          "invoiceIssued" := Leaf(Flag(true)),
          "paymentCredited" := Leaf(Flag(true)),
          "payoutProcessed" := Leaf(Flag(true)),
          "disputeUpdates" := Leaf(Flag(true))]),
        "ai" := Branch(map[
          "forecast" := Leaf(Flag(true)),
          "tariffChange" := Leaf(Flag(true)),
          "weatherImpact" := Leaf(Flag(false))])]),
      "display" := Branch(map["largeText" := Leaf(Flag(false))]),
      "charts" := Branch(map[
        "autoRefresh" := Leaf(Flag(true)),
        "animationLevel" := Leaf(Text("full")),
        "preferredUnits" := Leaf(Text("kWh"))]),
      "billing" := Branch(map[
        "autoSettleSmallPayouts" := Leaf(Flag(true)),
        "consolidatedMonthlyInvoice" := Leaf(Flag(false))])])
  }
}
