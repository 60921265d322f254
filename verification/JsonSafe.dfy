/**
 * The JSON-safety check on an object graph: a depth-first traversal that keeps the containers on
 * its current path, on graphs that may share containers and may be cyclic.
 */
module JsonSafe {

  type Ref = nat

  /** A Python object as the check sees it; containers are objects with an identity. */
  datatype Item =
    | NoneItem
    | BoolItem(b: bool)
    | IntItem(n: int)
    | TextItem(s: string)
    | FloatItem(finite: bool)
    | ContainerItem(ref: Ref)
    | OtherItem

  datatype Key = TextKey(s: string) | OtherKey

  datatype Container = Dict(keys: seq<Key>, items: seq<Item>) | List(items: seq<Item>)

  /** A finite heap of containers, in which every reference leads to a container. */
  type Graph = g: map<Ref, Container> | Closed(g) witness map[]

  predicate Closed(g: map<Ref, Container>) {
    forall r | r in g ::
      && (g[r].Dict? ==> |g[r].keys| == |g[r].items|)
      && forall i | 0 <= i < |g[r].items| :: InGraph(g, g[r].items[i])
  }

  predicate InGraph(g: map<Ref, Container>, v: Item) {
    v.ContainerItem? ==> v.ref in g
  }

  datatype Step = Field(name: string) | Index(i: nat)

  datatype Fault = NonFiniteFloat | NonTextKey | CyclicContainer | UnsupportedType

  datatype Verdict = Safe | Unsafe(path: seq<Step>, fault: Fault)

  /** How the path of a container's child reads: the key in a dictionary, the index in a list. */
  function StepTo(c: Container, i: nat): Step
    requires i < |c.items| && (c.Dict? ==> |c.keys| == |c.items| && c.keys[i].TextKey?)
  {
    if c.Dict? then Field(c.keys[i].s) else Index(i)
  }

  /** `_validate_json_value`, with the containers on the current path in `active`. */
  function Check(g: Graph, v: Item, path: seq<Step>, active: set<Ref>): Verdict
    requires InGraph(g, v)
    decreases g.Keys - active, 0
  {
    match v
    case FloatItem(finite) => if finite then Safe else Unsafe(path, NonFiniteFloat)
    case ContainerItem(r) =>
      if r in active then Unsafe(path, CyclicContainer) else CheckItems(g, r, 0, path, active + {r})
    case OtherItem => Unsafe(path, UnsupportedType)
    case _ => Safe
  }

  /** The loop over a container's children, from child `i` on. */
  function CheckItems(g: Graph, r: Ref, i: nat, path: seq<Step>, active: set<Ref>): Verdict
    requires r in g && i <= |g[r].items|
    decreases g.Keys - active, |g[r].items| - i + 1
  {
    var c := g[r];
    if i == |c.items| then Safe
    else if c.Dict? && c.keys[i].OtherKey? then Unsafe(path, NonTextKey)
    else
      var verdict := Check(g, c.items[i], path + [StepTo(c, i)], active);
      if verdict.Unsafe? then verdict else CheckItems(g, r, i + 1, path, active)
  }

  /** The traversal in place, over the one set of active containers that all calls share. */
  class Validator {
    var active: set<Ref>

    constructor ()
      ensures active == {}
    {
      active := {};
    }

    /** The set is left as it was found, on success and on failure. */
    method Validate(g: Graph, v: Item, path: seq<Step>) returns (verdict: Verdict)
      requires InGraph(g, v)
      modifies this
      ensures verdict == Check(g, v, path, old(active))
      ensures active == old(active)
      decreases g.Keys - active, 0
    {
      match v {
        case FloatItem(finite) =>
          verdict := if finite then Safe else Unsafe(path, NonFiniteFloat);
        case ContainerItem(r) =>
          var entered := EnterContainer(r);
          if !entered {
            return Unsafe(path, CyclicContainer);
          }
          verdict := ValidateItems(g, r, path);
          active := active - {r};
        case OtherItem =>
          verdict := Unsafe(path, UnsupportedType);
        case _ =>
          verdict := Safe;
      }
    }

    /** `_enter_container`: refuses a container that is already on the path. */
    method EnterContainer(r: Ref) returns (entered: bool)
      modifies this
      ensures entered <==> r !in old(active)
      ensures active == if entered then old(active) + {r} else old(active)
    {
      if r in active {
        return false;
      }
      active := active + {r};
      return true;
    }

    method ValidateItems(g: Graph, r: Ref, path: seq<Step>) returns (verdict: Verdict)
      requires r in g
      modifies this
      ensures verdict == CheckItems(g, r, 0, path, old(active))
      ensures active == old(active)
      decreases g.Keys - active, 1
    {
      var c := g[r];
      ghost var before := active;
      for i := 0 to |c.items|
        invariant active == before
        invariant CheckItems(g, r, 0, path, before) == CheckItems(g, r, i, path, before)
      {
        if c.Dict? && c.keys[i].OtherKey? {
          return Unsafe(path, NonTextKey);
        }
        verdict := Validate(g, c.items[i], path + [StepTo(c, i)]);
        if verdict.Unsafe? {
          return;
        }
      }
      verdict := Safe;
    }
  }

  // ---- What acceptance means ----

  /** A JSON value as a finite tree: text keys only, and finite numbers only. */
  datatype Tree =
    | NullTree
    | BoolTree(b: bool)
    | IntTree(n: int)
    | TextTree(s: string)
    | FloatTree
    | ArrayTree(children: seq<Tree>)
    | ObjectTree(names: seq<string>, children: seq<Tree>)

  /** The object `v` in the heap is a representation of the tree `t`. */
  predicate Unfolds(g: Graph, v: Item, t: Tree)
    requires InGraph(g, v)
    decreases t
  {
    match v
    case NoneItem => t == NullTree
    case BoolItem(b) => t == BoolTree(b)
    case IntItem(n) => t == IntTree(n)
    case TextItem(s) => t == TextTree(s)
    case FloatItem(finite) => finite && t == FloatTree
    case OtherItem => false
    case ContainerItem(r) =>
      var c := g[r];
      && (if c.Dict? then t.ObjectTree? && SameNames(c.keys, t.names) else t.ArrayTree?)
      && |t.children| == |c.items|
      && forall i | 0 <= i < |c.items| :: Unfolds(g, c.items[i], t.children[i])
  }

  predicate SameNames(keys: seq<Key>, names: seq<string>) {
    |keys| == |names| && forall i | 0 <= i < |keys| :: keys[i] == TextKey(names[i])
  }

  /** The object `v` represents some finite tree. */
  ghost predicate HasTree(g: Graph, v: Item)
    requires InGraph(g, v)
  {
    exists t :: Unfolds(g, v, t)
  }

  /** A value represents at most one tree. */
  lemma {:induction false} UnfoldsUnique(g: Graph, v: Item, t: Tree, u: Tree)
    requires InGraph(g, v) && Unfolds(g, v, t) && Unfolds(g, v, u)
    ensures t == u
    decreases t
  {
    if v.ContainerItem? {
      var c := g[v.ref];
      forall i | 0 <= i < |c.items| ensures t.children[i] == u.children[i] {
        UnfoldsUnique(g, c.items[i], t.children[i], u.children[i]);
      }
      assert t.children == u.children;
      if c.Dict? {
        forall i | 0 <= i < |c.keys| ensures t.names[i] == u.names[i] {
          assert c.keys[i] == TextKey(t.names[i]) && c.keys[i] == TextKey(u.names[i]);
        }
        assert t.names == u.names;
      }
    }
  }

  function Height(t: Tree): nat {
    if t.ArrayTree? || t.ObjectTree? then 1 + MaxHeight(t.children) else 0
  }

  function MaxHeight(ts: seq<Tree>): (h: nat)
    ensures forall i | 0 <= i < |ts| :: Height(ts[i]) <= h
  {
    if ts == [] then 0
    else
      var first, rest := Height(ts[0]), MaxHeight(ts[1..]);
      assert forall i | 0 < i < |ts| :: ts[i] == ts[1..][i - 1];
      if first > rest then first else rest
  }

  /** Every active container that represents a tree represents one higher than `h`. */
  ghost predicate Above(g: Graph, active: set<Ref>, h: nat) {
    forall r, u | r in active && r in g && Unfolds(g, ContainerItem(r), u) :: Height(u) > h
  }

  /** A value that represents a tree is accepted, as long as what is active lies above it. */
  lemma {:induction false} UnfoldingIsSafe(g: Graph, v: Item, t: Tree, path: seq<Step>, active: set<Ref>)
    requires InGraph(g, v) && Unfolds(g, v, t) && Above(g, active, Height(t))
    ensures Check(g, v, path, active) == Safe
    decreases t, if v.ContainerItem? then |g[v.ref].items| + 1 else 0
  {
    if v.ContainerItem? {
      var r := v.ref;
      forall q, u | q in active + {r} && q in g && Unfolds(g, ContainerItem(q), u) ensures Height(u) >= Height(t) {
        if q == r {
          UnfoldsUnique(g, v, t, u);
        }
      }
      ItemsAreSafe(g, r, t, 0, path, active + {r});
    }
  }

  lemma {:induction false} ItemsAreSafe(g: Graph, r: Ref, t: Tree, i: nat, path: seq<Step>, active: set<Ref>)
    requires r in g && i <= |g[r].items| && Unfolds(g, ContainerItem(r), t)
    requires Height(t) > 0 && Above(g, active, Height(t) - 1)
    ensures CheckItems(g, r, i, path, active) == Safe
    decreases t, |g[r].items| - i
  {
    var c := g[r];
    if i < |c.items| {
      assert Height(t.children[i]) <= Height(t) - 1;
      assert c.Dict? ==> c.keys[i] == TextKey(t.names[i]);
      UnfoldingIsSafe(g, c.items[i], t.children[i], path + [StepTo(c, i)], active);
      ItemsAreSafe(g, r, t, i + 1, path, active);
    }
  }

  /** From an accepted value its tree can be read off. */
  lemma {:induction false} SafeUnfolds(g: Graph, v: Item, path: seq<Step>, active: set<Ref>) returns (t: Tree)
    requires InGraph(g, v) && Check(g, v, path, active) == Safe
    ensures Unfolds(g, v, t)
    decreases g.Keys - active, 0
  {
    match v
    case NoneItem => t := NullTree;
    case BoolItem(b) => t := BoolTree(b);
    case IntItem(n) => t := IntTree(n);
    case TextItem(s) => t := TextTree(s);
    case FloatItem(_) => t := FloatTree;
    case ContainerItem(r) =>
      var children := SafeItemsUnfold(g, r, 0, path, active + {r});
      var c := g[r];
      if c.Dict? {
        t := ObjectTree(seq(|c.keys|, i requires 0 <= i < |c.keys| => if c.keys[i].TextKey? then c.keys[i].s else ""), children);
      } else {
        t := ArrayTree(children);
      }
  }

  lemma {:induction false} SafeItemsUnfold(g: Graph, r: Ref, i: nat, path: seq<Step>, active: set<Ref>) returns (ts: seq<Tree>)
    requires r in g && i <= |g[r].items| && CheckItems(g, r, i, path, active) == Safe
    ensures |ts| == |g[r].items| - i
    ensures forall k | i <= k < |g[r].items| :: Unfolds(g, g[r].items[k], ts[k - i])
    ensures g[r].Dict? ==> forall k | i <= k < |g[r].items| :: g[r].keys[k].TextKey?
    decreases g.Keys - active, |g[r].items| - i + 1
  {
    var c := g[r];
    if i == |c.items| {
      ts := [];
    } else {
      var t := SafeUnfolds(g, c.items[i], path + [StepTo(c, i)], active);
      var rest := SafeItemsUnfold(g, r, i + 1, path, active);
      ts := [t] + rest;
    }
  }

  /**
   * The check is exact on every finite object graph, shared or cyclic: it accepts a value if and
   * only if the value unfolds to a finite tree with text keys and finite floats.
   */
  lemma SafeExact(g: Graph, v: Item)
    requires InGraph(g, v)
    ensures Check(g, v, [], {}) == Safe <==> HasTree(g, v)
  {
    if Check(g, v, [], {}) == Safe {
      var t := SafeUnfolds(g, v, [], {});
      assert Unfolds(g, v, t);
    } else {
      forall t ensures !Unfolds(g, v, t) {
        if Unfolds(g, v, t) {
          UnfoldingIsSafe(g, v, t, [], {});
        }
      }
    }
  }

  // ---- What a refusal means ----

  predicate StepFits(c: Container, i: nat, step: Step)
    requires i < |c.items| && (c.Dict? ==> |c.keys| == |c.items|)
  {
    if c.Dict? then c.keys[i].TextKey? && step == Field(c.keys[i].s) else step == Index(i)
  }

  /** The first `n` children of a container are all right: text keys, and values that unfold to trees. */
  ghost predicate SoundBefore(g: Graph, c: Container, n: nat)
    requires n <= |c.items| && (c.Dict? ==> |c.keys| == |c.items|)
    requires forall k | 0 <= k < n :: InGraph(g, c.items[k])
  {
    forall k | 0 <= k < n :: (c.Dict? ==> c.keys[k].TextKey?) && HasTree(g, c.items[k])
  }

  /**
   * Following `path` from `v` reaches `target`, through containers that are all in `through` and
   * past children that are all right.
   */
  ghost predicate Leads(g: Graph, v: Item, path: seq<Step>, target: Item, through: set<Ref>)
    requires InGraph(g, v)
    decreases |path|
  {
    if path == [] then v == target
    else
      && v.ContainerItem? && v.ref in through
      && exists i | 0 <= i < |g[v.ref].items| ::
           && StepFits(g[v.ref], i, path[0]) && SoundBefore(g, g[v.ref], i)
           && Leads(g, g[v.ref].items[i], path[1..], target, through)
  }

  /** The object at the end of a reported path has the fault that was reported. */
  ghost predicate HasFault(g: Graph, target: Item, fault: Fault, active: set<Ref>) {
    match fault
    case NonFiniteFloat => target == FloatItem(false)
    case UnsupportedType => target == OtherItem
    case CyclicContainer => target.ContainerItem? && target.ref in active
    case NonTextKey =>
      && target.ContainerItem? && target.ref in g && g[target.ref].Dict?
      && exists k | 0 <= k < |g[target.ref].keys| :: g[target.ref].keys[k] == OtherKey && SoundBefore(g, g[target.ref], k)
  }

  /**
   * Every refusal points at the first cause: following the reported path from the value reaches an
   * object with the reported fault (for a cycle, a container on that very path or already active),
   * and all that the traversal passed before it unfolds to trees under text keys.
   */
  lemma {:induction false} RefusalPointsAtFault(g: Graph, v: Item, path: seq<Step>, active: set<Ref>)
    returns (rest: seq<Step>, target: Item, through: set<Ref>)
    requires InGraph(g, v) && Check(g, v, path, active).Unsafe?
    ensures var verdict := Check(g, v, path, active);
      && verdict.path == path + rest
      && Leads(g, v, rest, target, through)
      && HasFault(g, target, verdict.fault, active + through)
    decreases g.Keys - active, 0
  {
    rest, target, through := [], v, {};
    if v.ContainerItem? && v.ref !in active {
      rest, target, through := ItemsRefusal(g, v.ref, 0, path, active + {v.ref});
      assert active + {v.ref} + through == active + through;
    }
  }

  lemma {:induction false} ItemsRefusal(g: Graph, r: Ref, i: nat, path: seq<Step>, active: set<Ref>)
    returns (rest: seq<Step>, target: Item, through: set<Ref>)
    requires r in g && i <= |g[r].items| && CheckItems(g, r, i, path, active).Unsafe? && SoundBefore(g, g[r], i)
    ensures var verdict := CheckItems(g, r, i, path, active);
      && verdict.path == path + rest && r in through
      && Leads(g, ContainerItem(r), rest, target, through)
      && HasFault(g, target, verdict.fault, active + through)
    decreases g.Keys - active, |g[r].items| - i + 1
  {
    var c := g[r];
    if c.Dict? && c.keys[i].OtherKey? {
      rest, target, through := [], ContainerItem(r), {r};
    } else {
      var step := StepTo(c, i);
      if Check(g, c.items[i], path + [step], active).Unsafe? {
        var below, inner;
        below, target, inner := RefusalPointsAtFault(g, c.items[i], path + [step], active);
        rest, through := [step] + below, inner + {r};
        LeadsThroughMore(g, c.items[i], below, target, inner, through);
        assert rest[1..] == below && StepFits(c, i, rest[0]);
      } else {
        var t := SafeUnfolds(g, c.items[i], path + [step], active);
        assert HasTree(g, c.items[i]);
        rest, target, through := ItemsRefusal(g, r, i + 1, path, active);
      }
    }
  }

  lemma {:induction false} LeadsThroughMore(g: Graph, v: Item, path: seq<Step>, target: Item, some: set<Ref>, more: set<Ref>)
    requires InGraph(g, v) && Leads(g, v, path, target, some) && some <= more
    ensures Leads(g, v, path, target, more)
    decreases |path|
  {
    if path != [] {
      var i :| 0 <= i < |g[v.ref].items| && StepFits(g[v.ref], i, path[0]) && SoundBefore(g, g[v.ref], i)
        && Leads(g, g[v.ref].items[i], path[1..], target, some);
      LeadsThroughMore(g, g[v.ref].items[i], path[1..], target, some, more);
    }
  }
}
