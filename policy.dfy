/**
 * Execution policies: trees of node-selection rules combined by AND, OR, XOR and NOT,
 * how a policy evaluates against a node, how the combinators build their operand
 * arrays, property lookup, and the root/context links of a policy graph.
 */
module ExecutionPolicies {

  datatype Option<T> = None | Some(value: T)
  datatype Result<T> = Success(value: T) | IllegalArgument(message: string)

  /**
   * A policy. A leaf stands for a concrete rule (a property test); the logical rules
   * hold an operand array that may be null (None) or empty.
   */
  datatype Policy =
    | Leaf(rule: nat)
    | And(children: Operands)
    | Or(children: Operands)
    | Xor(children: Operands)
    | Not(operand: Policy)

  /** The operand array of a logical rule: null, or an array of policies. */
  datatype Operands = NullArray | Array(items: seq<Policy>)

  /** What a leaf rule sees of a node: the set of leaf rules the node's properties satisfy. */
  type NodeInfo = set<nat>

  /** Null or empty operand arrays. */
  predicate NoOperands(children: Operands)
  {
    children.NullArray? || |children.items| == 0
  }

  /** The number of true values in a list of verdicts. */
  function CountTrue(v: seq<bool>): nat
    ensures CountTrue(v) <= |v|
  {
    if v == [] then 0 else CountTrue(v[..|v| - 1]) + (if v[|v| - 1] then 1 else 0)
  }

  /**
   * The reference meaning of a policy: AND accepts when every operand does, OR when
   * some operand does, XOR when an odd number of operands do, NOT when its operand
   * does not; AND, OR and XOR accept every node when they have no operands.
   */
  function Accepts(p: Policy, node: NodeInfo): bool
  {
    match p
    case Leaf(r) => r in node
    case Not(q) => !Accepts(q, node)
    case And(cs) =>
      NoOperands(cs) || forall i :: 0 <= i < |cs.items| ==> Accepts(cs.items[i], node)
    case Or(cs) =>
      NoOperands(cs) || exists i :: 0 <= i < |cs.items| && Accepts(cs.items[i], node)
    case Xor(cs) =>
      NoOperands(cs) || CountTrue(seq(|cs.items|, i requires 0 <= i < |cs.items| => Accepts(cs.items[i], node))) % 2 == 1
  }

  /** The position of the first operand that rejects the node, or the count when none does. */
  function FirstRejecting(cs: seq<Policy>, node: NodeInfo): (k: nat)
    ensures k <= |cs|
    ensures forall i :: 0 <= i < k ==> Accepts(cs[i], node)
    ensures k < |cs| ==> !Accepts(cs[k], node)
  {
    if cs == [] then 0
    else if !Accepts(cs[0], node) then 0
    else 1 + FirstRejecting(cs[1..], node)
  }

  /** The position of the first operand that accepts the node, or the count when none does. */
  function FirstAccepting(cs: seq<Policy>, node: NodeInfo): (k: nat)
    ensures k <= |cs|
    ensures forall i :: 0 <= i < k ==> !Accepts(cs[i], node)
    ensures k < |cs| ==> Accepts(cs[k], node)
  {
    if cs == [] then 0
    else if Accepts(cs[0], node) then 0
    else 1 + FirstAccepting(cs[1..], node)
  }

  /**
   * The rule evaluation as the rules perform it: each logical rule walks its operands
   * in order; AND stops at the first rejection and OR at the first acceptance, and
   * XOR folds the operands with inequality starting from the first one.
   */
  method Evaluate(p: Policy, node: NodeInfo) returns (b: bool)
    ensures b == Accepts(p, node)
    decreases p
  {
    match p
    case Leaf(r) =>
      b := r in node;
    case Not(q) =>
      var a := Evaluate(q, node);
      b := !a;
    case And(cs) =>
      if NoOperands(cs) { return true; }
      var consulted;
      b, consulted := EvaluateAnd(p, cs.items, node);
    case Or(cs) =>
      if NoOperands(cs) { return true; }
      var consulted;
      b, consulted := EvaluateOr(p, cs.items, node);
    case Xor(cs) =>
      if NoOperands(cs) { return true; }
      b := EvaluateXor(p, cs.items, node);
  }

  /** AND over its operands; `consulted` is how many operands were evaluated. */
  method EvaluateAnd(ghost p: Policy, cs: seq<Policy>, node: NodeInfo) returns (b: bool, consulted: nat)
    requires p == And(Array(cs)) && |cs| > 0
    ensures b <==> forall i :: 0 <= i < |cs| ==> Accepts(cs[i], node)
    ensures consulted == if b then |cs| else FirstRejecting(cs, node) + 1
    decreases p, 0
  {
    b := true;
    var i := 0;
    while i < |cs|
      invariant 0 <= i <= |cs| && b
      invariant forall j :: 0 <= j < i ==> Accepts(cs[j], node)
    {
      var c := Evaluate(cs[i], node);
      b := b && c;
      if !b {
        FirstRejectingIs(cs, node, i);
        return false, i + 1;
      }
      i := i + 1;
    }
    consulted := i;
  }

  /** OR over its operands; `consulted` is how many operands were evaluated. */
  method EvaluateOr(ghost p: Policy, cs: seq<Policy>, node: NodeInfo) returns (b: bool, consulted: nat)
    requires p == Or(Array(cs)) && |cs| > 0
    ensures b <==> exists i :: 0 <= i < |cs| && Accepts(cs[i], node)
    ensures consulted == if b then FirstAccepting(cs, node) + 1 else |cs|
    decreases p, 0
  {
    b := false;
    var i := 0;
    while i < |cs|
      invariant 0 <= i <= |cs| && !b
      invariant forall j :: 0 <= j < i ==> !Accepts(cs[j], node)
    {
      var c := Evaluate(cs[i], node);
      b := b || c;
      if b {
        FirstAcceptingIs(cs, node, i);
        return true, i + 1;
      }
      i := i + 1;
    }
    consulted := i;
  }

  /** XOR over its operands: start from the first verdict, then flip on every accepting operand. */
  method EvaluateXor(ghost p: Policy, cs: seq<Policy>, node: NodeInfo) returns (b: bool)
    requires p == Xor(Array(cs)) && |cs| > 0
    ensures b == (CountTrue(seq(|cs|, i requires 0 <= i < |cs| => Accepts(cs[i], node))) % 2 == 1)
    decreases p, 0
  {
    ghost var v := seq(|cs|, i requires 0 <= i < |cs| => Accepts(cs[i], node));
    b := Evaluate(cs[0], node);
    assert v[..1] == [v[0]];
    assert CountTrue(v[..1]) == CountTrue([]) + (if v[0] then 1 else 0);
    var i := 1;
    while i < |cs|
      invariant 1 <= i <= |cs|
      invariant b == (CountTrue(v[..i]) % 2 == 1)
    {
      var c := Evaluate(cs[i], node);
      assert v[..i + 1][..i] == v[..i];
      b := b != c;
      i := i + 1;
    }
    assert v[..|cs|] == v;
  }

  lemma {:induction false} FirstRejectingIs(cs: seq<Policy>, node: NodeInfo, k: nat)
    requires k < |cs| && !Accepts(cs[k], node)
    requires forall j :: 0 <= j < k ==> Accepts(cs[j], node)
    ensures FirstRejecting(cs, node) == k
  {
    if k > 0 {
      FirstRejectingIs(cs[1..], node, k - 1);
    }
  }

  lemma {:induction false} FirstAcceptingIs(cs: seq<Policy>, node: NodeInfo, k: nat)
    requires k < |cs| && Accepts(cs[k], node)
    requires forall j :: 0 <= j < k ==> !Accepts(cs[j], node)
    ensures FirstAccepting(cs, node) == k
  {
    if k > 0 {
      FirstAcceptingIs(cs[1..], node, k - 1);
    }
  }

  /** XOR of a single operand is that operand's verdict; XOR of two is their inequality. */
  lemma XorSmall(a: Policy, b: Policy, node: NodeInfo)
    ensures Accepts(Xor(Array([a])), node) == Accepts(a, node)
    ensures Accepts(Xor(Array([a, b])), node) == (Accepts(a, node) != Accepts(b, node))
  {
    var one := [a];
    var v1 := seq(|one|, i requires 0 <= i < |one| => Accepts(one[i], node));
    assert v1 == [Accepts(a, node)] && v1[..0] == [];
    var two := [a, b];
    var v2 := seq(|two|, i requires 0 <= i < |two| => Accepts(two[i], node));
    assert v2[..1] == [Accepts(a, node)] && v2[..1][..0] == [];
  }

  // ---------------------------------------------------------------------------
  // Building the combinations

  /** The operand array of `rule.and(rules)`, `or` and `xor`: the rule itself, then the operands in order. */
  function RuleArray(rule: Policy, rules: seq<Policy>): (r: seq<Policy>)
    ensures |r| == |rules| + 1 && r[0] == rule
    ensures forall i :: 0 <= i < |rules| ==> r[i + 1] == rules[i]
  {
    [rule] + rules
  }

  /** The operand array of `andNot` and `orNot`: the rule itself, then the negation of each operand. */
  function NotRuleArray(rule: Policy, rules: seq<Policy>): (r: seq<Policy>)
    ensures |r| == |rules| + 1 && r[0] == rule
    ensures forall i :: 0 <= i < |rules| ==> r[i + 1] == Not(rules[i])
  {
    [rule] + seq(|rules|, i requires 0 <= i < |rules| => Not(rules[i]))
  }

  /** Fills a fresh array of length n + 1 with the rule first and the operands after it. */
  method MakeRuleArray(rule: Policy, rules: seq<Policy>) returns (result: array<Policy>)
    ensures fresh(result)
    ensures result[..] == RuleArray(rule, rules)
  {
    result := new Policy[|rules| + 1](_ => rule);
    var count := 1;
    for i := 0 to |rules|
      invariant count == i + 1
      invariant result[0] == rule
      invariant forall j :: 0 <= j < i ==> result[j + 1] == rules[j]
    {
      result[count] := rules[i];
      count := count + 1;
    }
  }

  /** Fills a fresh array with the rule first and the negated operands after it. */
  method MakeNotRuleArray(rule: Policy, rules: seq<Policy>) returns (result: array<Policy>)
    ensures fresh(result)
    ensures result[..] == NotRuleArray(rule, rules)
  {
    result := new Policy[|rules| + 1](_ => rule);
    var count := 1;
    for i := 0 to |rules|
      invariant count == i + 1
      invariant result[0] == rule
      invariant forall j :: 0 <= j < i ==> result[j + 1] == Not(rules[j])
    {
      result[count] := Not(rules[i]);
      count := count + 1;
    }
  }

  /** `p.and(rules)` accepts exactly when p and every operand accept. */
  lemma AndWith(p: Policy, rules: seq<Policy>, node: NodeInfo)
    ensures Accepts(And(Array(RuleArray(p, rules))), node)
            <==> Accepts(p, node) && forall i :: 0 <= i < |rules| ==> Accepts(rules[i], node)
  {
    var r := RuleArray(p, rules);
    if Accepts(p, node) && forall i :: 0 <= i < |rules| ==> Accepts(rules[i], node) {
      forall i | 0 <= i < |r| ensures Accepts(r[i], node) {
        if i > 0 { assert r[i] == rules[i - 1]; }
      }
    }
  }

  /** `p.andNot(rules)` accepts exactly when p accepts and no operand does. */
  lemma AndNotWith(p: Policy, rules: seq<Policy>, node: NodeInfo)
    ensures Accepts(And(Array(NotRuleArray(p, rules))), node)
            <==> Accepts(p, node) && forall i :: 0 <= i < |rules| ==> !Accepts(rules[i], node)
  {
    var r := NotRuleArray(p, rules);
    if Accepts(p, node) && forall i :: 0 <= i < |rules| ==> !Accepts(rules[i], node) {
      forall i | 0 <= i < |r| ensures Accepts(r[i], node) {
        if i > 0 { assert r[i] == Not(rules[i - 1]); }
      }
    } else if !Accepts(p, node) {
      assert !Accepts(r[0], node);
    } else {
      var i :| 0 <= i < |rules| && Accepts(rules[i], node);
      assert !Accepts(r[i + 1], node);
    }
  }

  /** `p.or(rules)` accepts exactly when p or some operand accepts. */
  lemma OrWith(p: Policy, rules: seq<Policy>, node: NodeInfo)
    ensures Accepts(Or(Array(RuleArray(p, rules))), node)
            <==> Accepts(p, node) || exists i :: 0 <= i < |rules| && Accepts(rules[i], node)
  {
    var r := RuleArray(p, rules);
    if exists i :: 0 <= i < |rules| && Accepts(rules[i], node) {
      var i :| 0 <= i < |rules| && Accepts(rules[i], node);
      assert Accepts(r[i + 1], node);
    }
    if Accepts(Or(Array(r)), node) {
      var i :| 0 <= i < |r| && Accepts(r[i], node);
      if i > 0 { assert r[i] == rules[i - 1]; }
    }
  }

  /** `p.orNot(rules)` accepts exactly when p accepts or some operand rejects. */
  lemma OrNotWith(p: Policy, rules: seq<Policy>, node: NodeInfo)
    ensures Accepts(Or(Array(NotRuleArray(p, rules))), node)
            <==> Accepts(p, node) || exists i :: 0 <= i < |rules| && !Accepts(rules[i], node)
  {
    var r := NotRuleArray(p, rules);
    if exists i :: 0 <= i < |rules| && !Accepts(rules[i], node) {
      var i :| 0 <= i < |rules| && !Accepts(rules[i], node);
      assert Accepts(r[i + 1], node);
    }
    if Accepts(Or(Array(r)), node) {
      var i :| 0 <= i < |r| && Accepts(r[i], node);
      if i > 0 { assert r[i] == Not(rules[i - 1]); }
    }
  }

  /** The NOT rule's constructor: a null operand is rejected with an IllegalArgumentException. */
  function NewNotRule(rule: Option<Policy>): (r: Result<Policy>)
    ensures rule.None? <==> r.IllegalArgument?
    ensures rule.Some? ==> r == Success(Not(rule.value))
  {
    match rule
    case None => IllegalArgument("negated rule cannot be null")
    case Some(q) => Success(Not(q))
  }

  /** The static `Not(policy)`: null for a null policy, otherwise the negating rule. */
  function NegationOf(policy: Option<Policy>): (r: Option<Policy>)
    ensures policy.None? <==> r.None?
    ensures forall node :: r.Some? ==> Accepts(r.value, node) == !Accepts(policy.value, node)
  {
    match policy
    case None => None
    case Some(p) => Some(Not(p))
  }

  /** Negating twice gives back the original verdict. */
  lemma DoubleNegation(p: Policy, node: NodeInfo)
    ensures Accepts(Not(Not(p)), node) == Accepts(p, node)
  {
  }

  // ---------------------------------------------------------------------------
  // Property lookup

  /** The value of `name` in the first properties set that defines it. */
  function FirstValue(sets: seq<map<string, string>>, name: string): Option<string>
  {
    if sets == [] then None
    else if name in sets[0] then Some(sets[0][name])
    else FirstValue(sets[1..], name)
  }

  /** `getProperty`: scans the property sets in order and returns the first value found, else null. */
  method GetProperty(sets: seq<map<string, string>>, name: string) returns (value: Option<string>)
    ensures value == FirstValue(sets, name)
  {
    var i := 0;
    while i < |sets|
      invariant 0 <= i <= |sets|
      invariant FirstValue(sets, name) == FirstValue(sets[i..], name)
    {
      assert sets[i..][1..] == sets[i + 1..];
      if name in sets[i] {
        return Some(sets[i][name]);
      }
      i := i + 1;
    }
    return None;
  }

  /** The value found comes from the first set that has the name; nothing is found when no set has it. */
  lemma {:induction false} FirstValueMeaning(sets: seq<map<string, string>>, name: string)
    ensures FirstValue(sets, name).None? <==> forall i :: 0 <= i < |sets| ==> name !in sets[i]
    ensures FirstValue(sets, name).Some? ==>
              exists k :: 0 <= k < |sets| && name in sets[k] && sets[k][name] == FirstValue(sets, name).value
                && forall j :: 0 <= j < k ==> name !in sets[j]
  {
    if sets != [] && name !in sets[0] {
      FirstValueMeaning(sets[1..], name);
      if FirstValue(sets, name).Some? {
        var k :| 0 <= k < |sets[1..]| && name in sets[1..][k] && sets[1..][k][name] == FirstValue(sets, name).value
          && forall j :: 0 <= j < k ==> name !in sets[1..][j];
        assert sets[k + 1] == sets[1..][k];
        forall j | 0 <= j < k + 1 ensures name !in sets[j] {
          if j > 0 { assert sets[j] == sets[1..][j - 1]; }
        }
      }
      forall i | 0 <= i < |sets| && FirstValue(sets, name).None? ensures name !in sets[i] {
        if i > 0 { assert sets[i] == sets[1..][i - 1]; }
      }
    }
  }

  // ---------------------------------------------------------------------------
  // Root and context of a policy graph

  /** The evaluation context a job gives its policy (SLA, metadata, dispatch count, statistics). */
  datatype PolicyContext = PolicyContext(job: string, dispatches: int)

  /** A policy object of a graph: its identity and its children array (null for leaf rules). */
  datatype PolicyObject = PolicyObject(id: nat, children: ChildArray)
  datatype ChildArray = NullChildren | Children(items: seq<PolicyObject>)

  function ChildCount(p: PolicyObject): nat
  {
    if p.children.NullChildren? then 0 else |p.children.items|
  }

  function ChildList(p: PolicyObject): seq<PolicyObject>
  {
    if p.children.NullChildren? then [] else p.children.items
  }

  /**
   * The root links after `initializeRoot(root)` on `p`: an object that already has a
   * root is left alone together with its sub-graph; otherwise it gets `r` and its
   * children are visited in order.
   */
  function InitRoot(p: PolicyObject, r: nat, roots: map<nat, nat>): map<nat, nat>
    decreases p, ChildCount(p) + 1
  {
    if p.id in roots then roots else InitRootChildren(p, 0, r, roots[p.id := r])
  }

  function InitRootChildren(p: PolicyObject, i: nat, r: nat, roots: map<nat, nat>): map<nat, nat>
    requires i <= ChildCount(p)
    decreases p, ChildCount(p) - i
  {
    if i == ChildCount(p) then roots
    else InitRootChildren(p, i + 1, r, InitRoot(ChildList(p)[i], r, roots))
  }

  /** The root links after `initializeRoot()` on `p`: each child is initialized with `p` as root. */
  function InitRootFromTop(p: PolicyObject, roots: map<nat, nat>): map<nat, nat>
  {
    InitRootChildren(p, 0, p.id, roots)
  }

  /** The transient root and context fields of the objects of a policy graph, by object identity. */
  class PolicyGraph {
    var root: map<nat, nat>
    var context: map<nat, PolicyContext>

    constructor()
      ensures root == map[] && context == map[]
    {
      root := map[];
      context := map[];
    }

    /** `getContext`: the root's context when a root is set, else the object's own. */
    function GetContext(id: nat): (c: Option<PolicyContext>)
      reads this
      ensures id !in root ==> c == (if id in context then Some(context[id]) else None)
      ensures id in root ==> c == (if root[id] in context then Some(context[root[id]]) else None)
    {
      var owner := if id in root then root[id] else id;
      if owner in context then Some(context[owner]) else None
    }

    /** `initializeRoot(root)` on `p`. */
    method InitializeRootFrom(p: PolicyObject, r: nat)
      modifies this
      ensures root == InitRoot(p, r, old(root)) && context == old(context)
      decreases p, ChildCount(p) + 1
    {
      if p.id in root { return; }
      root := root[p.id := r];
      var i := 0;
      while i < ChildCount(p)
        invariant 0 <= i <= ChildCount(p) && context == old(context)
        invariant InitRootChildren(p, i, r, root) == InitRoot(p, r, old(root))
      {
        InitializeRootFrom(ChildList(p)[i], r);
        i := i + 1;
      }
    }

    /** `initializeRoot()` on `p`: its children are initialized with `p` as their root. */
    method InitializeRoot(p: PolicyObject)
      modifies this
      ensures root == InitRootFromTop(p, old(root)) && context == old(context)
    {
      var i := 0;
      while i < ChildCount(p)
        invariant 0 <= i <= ChildCount(p) && context == old(context)
        invariant InitRootChildren(p, i, p.id, root) == InitRootFromTop(p, old(root))
      {
        InitializeRootFrom(ChildList(p)[i], p.id);
        i := i + 1;
      }
    }

    /** `setContext(context)` on `p`: stores the context, then initializes the roots below `p`. */
    method SetContext(p: PolicyObject, ctx: PolicyContext)
      modifies this
      ensures context == old(context)[p.id := ctx]
      ensures root == InitRootFromTop(p, old(root))
    {
      context := context[p.id := ctx];
      InitializeRoot(p);
    }
  }

  /** Root links are set once: existing links never change, and every new link points to `r`. */
  lemma {:induction false} InitRootKeeps(p: PolicyObject, r: nat, roots: map<nat, nat>)
    ensures var res := InitRoot(p, r, roots);
      p.id in res
      && (forall k :: k in roots ==> k in res && res[k] == roots[k])
      && (forall k :: k in res && k !in roots ==> res[k] == r)
    decreases p, ChildCount(p) + 1
  {
    if p.id !in roots {
      InitRootChildrenKeeps(p, 0, r, roots[p.id := r]);
    }
  }

  lemma {:induction false} InitRootChildrenKeeps(p: PolicyObject, i: nat, r: nat, roots: map<nat, nat>)
    requires i <= ChildCount(p)
    ensures var res := InitRootChildren(p, i, r, roots);
      (forall k :: k in roots ==> k in res && res[k] == roots[k])
      && (forall k :: k in res && k !in roots ==> res[k] == r)
      && (forall j :: i <= j < ChildCount(p) ==> ChildList(p)[j].id in res)
    decreases p, ChildCount(p) - i
  {
    if i < ChildCount(p) {
      var next := InitRoot(ChildList(p)[i], r, roots);
      InitRootKeeps(ChildList(p)[i], r, roots);
      InitRootChildrenKeeps(p, i + 1, r, next);
    }
  }

  /**
   * After `setContext(ctx)` on `p`, every child of `p` has a root, and each child that
   * had none before now reads its context from `p`: it sees `ctx` unless `p` itself
   * already had a root.
   */
  lemma SetContextReachesChildren(p: PolicyObject, ctx: PolicyContext, roots: map<nat, nat>, contexts: map<nat, PolicyContext>, j: nat)
    requires j < ChildCount(p)
    requires p.id !in roots
    ensures var res := InitRootFromTop(p, roots);
      var c := ChildList(p)[j].id;
      c in res && (c !in roots ==> res[c] == p.id)
      && (c !in roots && p.id !in res ==> contexts[p.id := ctx][res[c]] == ctx)
  {
    InitRootChildrenKeeps(p, 0, p.id, roots);
  }

  // ---------------------------------------------------------------------------
  // XML tags

  /** The start tag "<name>". */
  function TagStart(name: string): string
  {
    "<" + name + ">"
  }

  /** The end tag as the code builds it: the same "<name>" as the start tag. */
  function TagEndAsWritten(name: string): string
  {
    "<" + name + ">"
  }

  /** The end tag as documented: "</name>". */
  function TagEnd(name: string): string
  {
    "</" + name + ">"
  }

  /** As written, an end tag cannot be told apart from the start tag, for every name. */
  lemma TagEndAsWrittenIsStartTag(name: string)
    ensures TagEndAsWritten(name) == TagStart(name)
    ensures TagEndAsWritten("AND") == "<AND>"
  {
  }

  /** The documented end tag differs from the start tag and closes the element's name. */
  lemma TagEndCloses(name: string)
    ensures TagEnd(name) != TagStart(name)
    ensures TagEnd(name)[..2] == "</" && TagEnd(name)[2..|name| + 2] == name
  {
    assert |TagEnd(name)| != |TagStart(name)|;
  }
}
