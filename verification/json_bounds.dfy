/**
 * The two iterative bound checkers for parsed JSON: context_bytes of the model gateway and _walk_json of the archive
 * receipt tool. Both pop a stack; both are proved to decide one recursive predicate, whatever the order of visits.
 */
module JsonBounds {
  import opened Base

  /** A Float without a number is an infinity or not a number; a Field without a name has a key that is no string. */
  datatype Json =
    | Null | Bool(flag: bool) | Int(value: int) | Float(number: Option<real>) | Text(text: string)
    | Arr(items: seq<Json>) | Obj(fields: seq<Field>) | Other
  datatype Field = Field(name: Option<string>, child: Json)

  datatype Rules = Context | Receipt
  datatype Fault = NodeLimit | DepthLimit | WidthLimit | TextLimit | KeyInvalid | FloatInvalid | IntInvalid
    | Unsupported

  /** A tree waiting on the stack and its depth. */
  datatype Pending = Pending(item: Json, depth: nat)

  function MaxNodes(rules: Rules): nat {
    if rules.Context? then 2048 else 200_000
  }

  function MaxDepth(rules: Rules): nat {
    if rules.Context? then 8 else 64
  }

  predicate GoodName(rules: Rules, name: Option<string>) {
    name.Some? && (rules.Context? ==> 1 <= |name.value| <= 128)
  }

  /** What is wrong with one node, its children apart. */
  function Visit(rules: Rules, item: Json, depth: nat): Option<Fault> {
    if depth > MaxDepth(rules) then Some(DepthLimit) else
    match item
    case Obj(fields) =>
      if rules.Context? && |fields| > 256 then Some(WidthLimit)
      else if exists i :: 0 <= i < |fields| && !GoodName(rules, fields[i].name) then Some(KeyInvalid)
      else None
    case Arr(items) => if rules.Context? && |items| > 256 then Some(WidthLimit) else None
    case Text(text) => if rules.Context? && |text| > 32768 then Some(TextLimit) else None
    case Float(number) => if number.None? then Some(FloatInvalid) else None
    case Int(value) => if rules.Context? && !(-9007199254740991 <= value <= 9007199254740991) then Some(IntInvalid)
      else None
    case Other => Some(Unsupported)
    case _ => None
  }

  // ----- the recursive meaning -----

  /** Every node of the tree passes its visit. */
  predicate Bounded(rules: Rules, item: Json, depth: nat)
    decreases item
  {
    && Visit(rules, item, depth).None?
    && (item.Arr? ==> forall i :: 0 <= i < |item.items| ==> Bounded(rules, item.items[i], depth + 1))
    && (item.Obj? ==> forall i :: 0 <= i < |item.fields| ==> Bounded(rules, item.fields[i].child, depth + 1))
  }

  /** Some node of the tree has this fault. */
  predicate Occurs(rules: Rules, item: Json, depth: nat, fault: Fault)
    decreases item
  {
    || Visit(rules, item, depth) == Some(fault)
    || (item.Arr? && exists i :: 0 <= i < |item.items| && Occurs(rules, item.items[i], depth + 1, fault))
    || (item.Obj? && exists i :: 0 <= i < |item.fields| && Occurs(rules, item.fields[i].child, depth + 1, fault))
  }

  function Nodes(item: Json): nat
    decreases item, 0
  {
    match item
    case Arr(items) => 1 + NodesOf(items)
    case Obj(fields) => 1 + NodesIn(fields)
    case _ => 1
  }

  function NodesOf(items: seq<Json>): nat
    decreases items, |items|
  {
    if items == [] then 0 else NodesOf(items[..|items| - 1]) + Nodes(items[|items| - 1])
  }

  function NodesIn(fields: seq<Field>): nat
    decreases fields, |fields|
  {
    if fields == [] then 0 else NodesIn(fields[..|fields| - 1]) + NodesAt(fields[|fields| - 1])
  }

  function NodesAt(field: Field): nat
    decreases field
  {
    Nodes(field.child)
  }

  // ----- the worklist -----

  function Pushed(item: Json, depth: nat): seq<Pending> {
    match item
    case Arr(items) => seq(|items|, i requires 0 <= i < |items| => Pending(items[i], depth + 1))
    case Obj(fields) => seq(|fields|, i requires 0 <= i < |fields| => Pending(fields[i].child, depth + 1))
    case _ => []
  }

  function Weight(stack: seq<Pending>): nat {
    if stack == [] then 0 else Weight(stack[..|stack| - 1]) + Nodes(stack[|stack| - 1].item)
  }

  predicate Fits(rules: Rules, stack: seq<Pending>) {
    forall i :: 0 <= i < |stack| ==> Bounded(rules, stack[i].item, stack[i].depth)
  }

  lemma {:induction false} WeightAppend(a: seq<Pending>, b: seq<Pending>)
    ensures Weight(a + b) == Weight(a) + Weight(b)
  {
    if b == [] {
      assert a + b == a;
    } else {
      assert (a + b)[..|a + b| - 1] == a + b[..|b| - 1];
      WeightAppend(a, b[..|b| - 1]);
    }
  }

  lemma {:induction false} WeightOfItems(items: seq<Json>, depth: nat)
    ensures Weight(Pushed(Arr(items), depth)) == NodesOf(items)
  {
    if items != [] {
      var init := items[..|items| - 1];
      assert Pushed(Arr(items), depth)[..|items| - 1] == Pushed(Arr(init), depth);
      WeightOfItems(init, depth);
    }
  }

  lemma {:induction false} WeightOfFields(fields: seq<Field>, depth: nat)
    ensures Weight(Pushed(Obj(fields), depth)) == NodesIn(fields)
  {
    if fields != [] {
      var init := fields[..|fields| - 1];
      assert Pushed(Obj(fields), depth)[..|fields| - 1] == Pushed(Obj(init), depth);
      WeightOfFields(init, depth);
    }
  }

  /** Visiting a node takes exactly that node off the work left. */
  lemma VisitWeight(rest: seq<Pending>, p: Pending)
    ensures Weight(rest + Pushed(p.item, p.depth)) == Weight(rest + [p]) - 1
  {
    assert (rest + [p])[..|rest|] == rest;
    WeightAppend(rest, Pushed(p.item, p.depth));
    match p.item
    case Arr(items) => WeightOfItems(items, p.depth);
    case Obj(fields) => WeightOfFields(fields, p.depth);
    case _ =>
  }

  lemma VisitFits(rules: Rules, rest: seq<Pending>, p: Pending)
    requires Visit(rules, p.item, p.depth).None?
    ensures Fits(rules, rest + [p]) <==> Fits(rules, rest + Pushed(p.item, p.depth))
  {
    hide Visit;
    var pushed := Pushed(p.item, p.depth);
    var before, after := rest + [p], rest + pushed;
    if Fits(rules, before) {
      assert before[|rest|] == p;
      forall i | 0 <= i < |after| ensures Bounded(rules, after[i].item, after[i].depth) {
        if i < |rest| { assert after[i] == before[i]; }
      }
    }
    if Fits(rules, after) {
      forall i | 0 <= i < |pushed| ensures Bounded(rules, pushed[i].item, p.depth + 1) {
        assert after[|rest| + i] == pushed[i];
      }
      PushedBounded(rules, p);
      forall i | 0 <= i < |rest| ensures Bounded(rules, rest[i].item, rest[i].depth) { assert after[i] == rest[i]; }
    }
  }

  lemma PushedBounded(rules: Rules, p: Pending)
    requires Visit(rules, p.item, p.depth).None?
    requires var pushed := Pushed(p.item, p.depth);
      forall i :: 0 <= i < |pushed| ==> Bounded(rules, pushed[i].item, p.depth + 1)
    ensures Bounded(rules, p.item, p.depth)
  {
    hide Visit;
    var pushed := Pushed(p.item, p.depth);
    if p.item.Arr? {
      forall i | 0 <= i < |p.item.items|
        ensures Bounded(rules, p.item.items[i], p.depth + 1)
      {
        assert pushed[i].item == p.item.items[i];
      }
    } else if p.item.Obj? {
      forall i | 0 <= i < |p.item.fields| ensures Bounded(rules, p.item.fields[i].child, p.depth + 1) {
        assert pushed[i].item == p.item.fields[i].child;
      }
    }
  }

  /** The walk itself: pop the last tree, charge it, visit it, push its children. */
  function Walk(rules: Rules, stack: seq<Pending>, remaining: nat): Option<Fault>
    decreases remaining
  {
    if stack == [] then None
    else if remaining == 0 then Some(NodeLimit)
    else
      var p, rest := stack[|stack| - 1], stack[..|stack| - 1];
      var fault := Visit(rules, p.item, p.depth);
      if fault.Some? then fault else Walk(rules, rest + Pushed(p.item, p.depth), remaining - 1)
  }

  /** A way to choose the next tree to visit, from any stack with work on it. */
  type Order = seq<Pending> -> nat

  function WalkBy(order: Order, rules: Rules, stack: seq<Pending>, remaining: nat): Option<Fault>
    decreases remaining
  {
    if stack == [] then None
    else if remaining == 0 then Some(NodeLimit)
    else
      var k := order(stack) % |stack|;
      var p, rest := stack[k], stack[..k] + stack[k + 1..];
      var fault := Visit(rules, p.item, p.depth);
      if fault.Some? then fault else WalkBy(order, rules, rest + Pushed(p.item, p.depth), remaining - 1)
  }

  lemma MoveLast(rules: Rules, stack: seq<Pending>, k: nat)
    requires k < |stack|
    ensures var moved := stack[..k] + stack[k + 1..] + [stack[k]];
      Weight(moved) == Weight(stack) && (Fits(rules, moved) <==> Fits(rules, stack))
  {
    var a, p, b := stack[..k], [stack[k]], stack[k + 1..];
    assert stack == a + p + b;
    WeightAppend(a + p, b);
    WeightAppend(a, p);
    WeightAppend(a + b, p);
    WeightAppend(a, b);
    var moved := a + b + p;
    assert moved == stack[..k] + stack[k + 1..] + [stack[k]];
    hide Bounded, Weight;
    SameTrees(rules, stack, moved);
    SameTrees(rules, moved, stack);
  }

  /** Whether trees fit does not depend on their order. */
  lemma SameTrees(rules: Rules, a: seq<Pending>, b: seq<Pending>)
    requires multiset(a) == multiset(b)
    ensures Fits(rules, a) ==> Fits(rules, b)
  {
    hide Bounded;
    if Fits(rules, a) {
      forall i | 0 <= i < |b| ensures Bounded(rules, b[i].item, b[i].depth) {
        assert b[i] in multiset(b);
        assert b[i] in a;
      }
    }
  }

  lemma WeightPositive(rules: Rules, stack: seq<Pending>)
    ensures stack != [] ==> Weight(stack) > 0
    ensures stack == [] ==> Fits(rules, stack) && Weight(stack) == 0
  {
    hide Bounded;
  }

  /**
   * In every order of visits the walk accepts exactly the trees the recursive predicate accepts within the node budget.
   */
  lemma {:induction false} AnyOrderDecides(order: Order, rules: Rules, stack: seq<Pending>, remaining: nat)
    ensures WalkBy(order, rules, stack, remaining).None? <==> Fits(rules, stack) && Weight(stack) <= remaining
    decreases remaining
  {
    hide Visit, Pushed, Fits, Weight;
    WeightPositive(rules, stack);
    if stack != [] && remaining > 0 {
      var k := order(stack) % |stack|;
      var p, rest := stack[k], stack[..k] + stack[k + 1..];
      MoveLast(rules, stack, k);
      VisitDecides(rules, rest, p);
      if Visit(rules, p.item, p.depth).None? {
        AnyOrderDecides(order, rules, rest + Pushed(p.item, p.depth), remaining - 1);
      }
    }
  }

  lemma VisitDecides(rules: Rules, rest: seq<Pending>, p: Pending)
    ensures Visit(rules, p.item, p.depth).Some? ==> !Fits(rules, rest + [p])
    ensures Visit(rules, p.item, p.depth).None? ==>
      (Fits(rules, rest + [p]) <==> Fits(rules, rest + Pushed(p.item, p.depth)))
    ensures Weight(rest + Pushed(p.item, p.depth)) == Weight(rest + [p]) - 1
  {
    hide Visit;
    VisitWeight(rest, p);
    assert (rest + [p])[|rest|] == p;
    if Visit(rules, p.item, p.depth).None? { VisitFits(rules, rest, p); }
  }

  /** Popping the last tree is one of those orders. */
  lemma {:induction false} LastFirst(rules: Rules, stack: seq<Pending>, remaining: nat)
    ensures Walk(rules, stack, remaining)
      == WalkBy((s: seq<Pending>) => if s == [] then 0 else |s| - 1, rules, stack, remaining)
    decreases remaining
  {
    hide Visit, Pushed;
    if stack != [] && remaining > 0 {
      var k := |stack| - 1;
      assert k % |stack| == k;
      assert stack[..k] + stack[k + 1..] == stack[..k];
      var p := stack[k];
      if Visit(rules, p.item, p.depth).None? { LastFirst(rules, stack[..k] + Pushed(p.item, p.depth), remaining - 1); }
    }
  }

  /** A whole document: accepted exactly when every node is in bounds and there are not too many. */
  lemma WorklistIsRecursion(rules: Rules, value: Json)
    ensures Walk(rules, [Pending(value, 0)], MaxNodes(rules)).None? <==>
      Bounded(rules, value, 0) && Nodes(value) <= MaxNodes(rules)
  {
    hide Visit, Walk;
    var stack, order := [Pending(value, 0)], (s: seq<Pending>) => if s == [] then 0 else |s| - 1;
    LastFirst(rules, stack, MaxNodes(rules));
    AnyOrderDecides(order, rules, stack, MaxNodes(rules));
    assert stack[..0] == [] && stack[0].item == value;
    assert Fits(rules, stack) <==> Bounded(rules, value, 0);
  }

  ghost predicate OccursIn(rules: Rules, stack: seq<Pending>, fault: Fault) {
    exists i :: 0 <= i < |stack| && Occurs(rules, stack[i].item, stack[i].depth, fault)
  }

  /** The fault a walk reports is a fault of the document: too many nodes, or a node that has it. */
  lemma {:induction false} FaultsAreReal(rules: Rules, stack: seq<Pending>, remaining: nat)
    ensures var fault := Walk(rules, stack, remaining);
      fault.Some? ==> (fault.value.NodeLimit? && Weight(stack) > remaining) || OccursIn(rules, stack, fault.value)
    decreases remaining
  {
    hide Visit, Pushed, OccursIn, Fits, Weight;
    WeightPositive(rules, stack);
    if stack != [] && remaining > 0 {
      var p, rest := stack[|stack| - 1], stack[..|stack| - 1];
      assert rest + [p] == stack;
      VisitDecides(rules, rest, p);
      VisitOccurs(rules, rest, p);
      var next := rest + Pushed(p.item, p.depth);
      FaultsAreReal(rules, next, remaining - 1);
      var fault := Walk(rules, next, remaining - 1);
      if fault.Some? && OccursIn(rules, next, fault.value) { StillOccurs(rules, rest, p, fault.value); }
    }
  }

  lemma VisitOccurs(rules: Rules, rest: seq<Pending>, p: Pending)
    ensures var fault := Visit(rules, p.item, p.depth); fault.Some? ==> OccursIn(rules, rest + [p], fault.value)
  {
    hide Visit;
    assert (rest + [p])[|rest|] == p;
  }

  /** A fault that occurs after a visit occurred before it. */
  lemma StillOccurs(rules: Rules, rest: seq<Pending>, p: Pending, fault: Fault)
    requires OccursIn(rules, rest + Pushed(p.item, p.depth), fault)
    ensures OccursIn(rules, rest + [p], fault)
  {
    hide Visit;
    var before, after := rest + [p], rest + Pushed(p.item, p.depth);
    var i :| 0 <= i < |after| && Occurs(rules, after[i].item, after[i].depth, fault);
    if i < |rest| {
      assert before[i] == after[i];
    } else {
      PushedOccurs(rules, p, fault, after[i], i - |rest|);
      assert before[|rest|] == p;
    }
  }

  lemma PushedOccurs(rules: Rules, p: Pending, fault: Fault, q: Pending, i: nat)
    requires i < |Pushed(p.item, p.depth)| && q == Pushed(p.item, p.depth)[i] && Occurs(rules, q.item, q.depth, fault)
    ensures Occurs(rules, p.item, p.depth, fault)
  {
    hide Visit;
  }

  // ----- the two programs -----

  datatype ContextCode = ContextInvalid | ContextLimit

  function CodeOf(fault: Fault): ContextCode {
    if fault in {NodeLimit, DepthLimit, WidthLimit, TextLimit} then ContextLimit else ContextInvalid
  }

  /** The bytes a string takes in UTF-8. */
  function Utf8Length(text: string): nat {
    if text == "" then 0 else
    var code := text[|text| - 1] as int;
    Utf8Length(text[..|text| - 1])
      + (if code < 0x80 then 1 else if code < 0x800 then 2 else if code < 0x10000 then 3 else 4)
  }

  lemma {:induction false} Utf8AtLeast(text: string)
    ensures |text| <= Utf8Length(text) <= 4 * |text|
  {
    if text != "" { Utf8AtLeast(text[..|text| - 1]); }
  }

  /** context_bytes; encoded is the canonical serialization, None when it cannot be made. */
  function ContextFault(value: Json, encoded: Option<string>): Option<ContextCode> {
    if !value.Obj? then Some(ContextInvalid) else
    var fault := Walk(Context, [Pending(value, 0)], 2048);
    if fault.Some? then Some(CodeOf(fault.value))
    else if encoded.None? then Some(ContextInvalid)
    else if Utf8Length(encoded.value) > 32768 then Some(ContextLimit)
    else None
  }

  /** What a context that passes is. */
  lemma ContextAccepted(value: Json, encoded: Option<string>)
    ensures ContextFault(value, encoded).None? <==>
      value.Obj? && Bounded(Context, value, 0) && Nodes(value) <= 2048 && encoded.Some?
        && Utf8Length(encoded.value) <= 32768
  {
    hide Walk, Visit, Bounded, Nodes, Utf8Length;
    WorklistIsRecursion(Context, value);
  }

  /** The fields of an object, checked and pushed one by one as both programs do. */
  method PushFields(rules: Rules, fields: seq<Field>, depth: nat, rest: seq<Pending>) returns (stack: seq<Pending>,
                    good: bool)
    ensures good <==> forall i :: 0 <= i < |fields| ==> GoodName(rules, fields[i].name)
    ensures good ==> stack == rest + Pushed(Obj(fields), depth)
  {
    stack, good := rest, true;
    for n := 0 to |fields|
      invariant forall i :: 0 <= i < n ==> GoodName(rules, fields[i].name)
      invariant good && stack == rest + Pushed(Obj(fields), depth)[..n]
    {
      if !GoodName(rules, fields[n].name) { return rest, false; }
      stack := stack + [Pending(fields[n].child, depth + 1)];
    }
  }

  /** context_bytes: a counter that runs down and a stack of trees still to visit. */
  method ContextBytes(value: Json, encoded: Option<string>) returns (error: Option<ContextCode>)
    ensures error == ContextFault(value, encoded)
  {
    hide Utf8Length;
    if !value.Obj? { return Some(ContextInvalid); }
    var stack, remaining: int := [Pending(value, 0)], 2048;
    while stack != []
      invariant 0 <= remaining
      invariant Walk(Context, stack, remaining) == Walk(Context, [Pending(value, 0)], 2048)
      decreases remaining
    {
      var item, depth := stack[|stack| - 1].item, stack[|stack| - 1].depth;
      stack := stack[..|stack| - 1];
      assert stack + [] == stack;
      remaining := remaining - 1;
      if remaining < 0 || depth > 8 { return Some(ContextLimit); }
      match item
      case Obj(fields) =>
        if |fields| > 256 { return Some(ContextLimit); }
        var good;
        stack, good := PushFields(Context, fields, depth, stack);
        if !good { return Some(ContextInvalid); }
      case Arr(items) =>
        if |items| > 256 { return Some(ContextLimit); }
        stack := stack + Pushed(item, depth);
      case Text(text) =>
        if |text| > 32768 { return Some(ContextLimit); }
      case Float(number) =>
        if number.None? { return Some(ContextInvalid); }
      case Int(n) =>
        if n < -9007199254740991 || 9007199254740991 < n { return Some(ContextInvalid); }
      case Other => return Some(ContextInvalid);
      case _ =>
    }
    if encoded.None? { return Some(ContextInvalid); }
    error := if Utf8Length(encoded.value) > 32768 then Some(ContextLimit) else None;
  }

  /** _walk_json: the same stack, with a counter that runs up. */
  method WalkJson(value: Json) returns (error: Option<Fault>)
    ensures error == Walk(Receipt, [Pending(value, 0)], 200_000)
  {
    var nodes, stack := 0, [Pending(value, 0)];
    while stack != []
      invariant 0 <= nodes <= 200_000
      invariant Walk(Receipt, stack, 200_000 - nodes) == Walk(Receipt, [Pending(value, 0)], 200_000)
      decreases 200_000 - nodes
    {
      var current, depth := stack[|stack| - 1].item, stack[|stack| - 1].depth;
      stack := stack[..|stack| - 1];
      assert stack + [] == stack;
      nodes := nodes + 1;
      if nodes > 200_000 { return Some(NodeLimit); }
      if depth > 64 { return Some(DepthLimit); }
      match current
      case Obj(fields) =>
        var good;
        stack, good := PushFields(Receipt, fields, depth, stack);
        if !good { return Some(KeyInvalid); }
      case Arr(items) => stack := stack + Pushed(current, depth);
      case Float(number) =>
        if number.None? { return Some(FloatInvalid); }
      case Other => return Some(Unsupported);
      case _ =>
    }
    error := None;
  }
}
