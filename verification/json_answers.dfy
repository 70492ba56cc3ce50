/**
 * What the two bound checkers accept, said of the paths of a document: which node each path leads to, what every node
 * on them must be, and how many there are; with the limits as they are.
 */
module JsonAnswers {
  import opened Base
  import opened JsonBounds

  // ----- paths -----

  /** The node at the end of a path: a sequence of positions of an item in its list or of a field in its object. */
  function NodeAt(value: Json, path: seq<nat>): Option<Json>
    decreases |path|
  {
    if path == [] then Some(value) else
    match value
    case Arr(items) => if path[0] < |items| then NodeAt(items[path[0]], path[1..]) else None
    case Obj(fields) => if path[0] < |fields| then NodeAt(fields[path[0]].child, path[1..]) else None
    case _ => None
  }

  /** What a node of a context must be. */
  ghost predicate InContext(item: Json) {
    match item
    case Obj(fields) => |fields| <= 256 && forall f :: f in fields ==> f.name.Some? && 1 <= |f.name.value| <= 128
    case Arr(items) => |items| <= 256
    case Text(text) => |text| <= 32768
    case Float(number) => number.Some?
    case Int(value) => -9007199254740991 <= value <= 9007199254740991
    case Other => false
    case _ => true
  }

  /** What a node of a receipt must be. */
  ghost predicate InReceipt(item: Json) {
    match item
    case Obj(fields) => forall f :: f in fields ==> f.name.Some?
    case Float(number) => number.Some?
    case Other => false
    case _ => true
  }

  ghost predicate Allowed(rules: Rules, item: Json, depth: nat) {
    if rules == Context then depth <= 8 && InContext(item) else depth <= 64 && InReceipt(item)
  }

  lemma VisitAllows(rules: Rules, item: Json, depth: nat)
    ensures Visit(rules, item, depth).None? <==> Allowed(rules, item, depth)
  {
    if item.Obj? {
      var fields := item.fields;
      assert forall f :: f in fields ==> exists i :: 0 <= i < |fields| && fields[i] == f;
    }
  }

  /** Every path leads to an allowed node; depth counts what lies above. */
  ghost predicate AllAllowed(rules: Rules, value: Json, depth: nat) {
    forall path :: NodeAt(value, path).Some? ==> Allowed(rules, NodeAt(value, path).value, depth + |path|)
  }

  lemma {:induction false} BoundedIsPaths(rules: Rules, value: Json, depth: nat)
    ensures Bounded(rules, value, depth) <==> AllAllowed(rules, value, depth)
    decreases value
  {
    hide Visit, Allowed;
    VisitAllows(rules, value, depth);
    if Bounded(rules, value, depth) {
      forall path | NodeAt(value, path).Some?
        ensures Allowed(rules, NodeAt(value, path).value, depth + |path|)
      {
        PathAllowed(rules, value, depth, path);
      }
    }
    if AllAllowed(rules, value, depth) {
      assert NodeAt(value, []) == Some(value);
      match value
      case Arr(items) =>
        forall i | 0 <= i < |items| ensures Bounded(rules, items[i], depth + 1) {
          ChildAllowed(rules, value, depth, i, items[i]);
          BoundedIsPaths(rules, items[i], depth + 1);
        }
      case Obj(fields) =>
        forall i | 0 <= i < |fields| ensures Bounded(rules, fields[i].child, depth + 1) {
          ChildAllowed(rules, value, depth, i, fields[i].child);
          BoundedIsPaths(rules, fields[i].child, depth + 1);
        }
      case _ =>
    }
  }

  lemma {:induction false} PathAllowed(rules: Rules, value: Json, depth: nat, path: seq<nat>)
    requires Bounded(rules, value, depth) && NodeAt(value, path).Some?
    ensures Allowed(rules, NodeAt(value, path).value, depth + |path|)
    decreases |path|
  {
    hide Visit, Allowed;
    if path == [] {
      VisitAllows(rules, value, depth);
    } else if value.Arr? {
      PathAllowed(rules, value.items[path[0]], depth + 1, path[1..]);
    } else {
      PathAllowed(rules, value.fields[path[0]].child, depth + 1, path[1..]);
    }
  }

  /** What lies behind a child lies behind its parent, one deeper. */
  lemma ChildAllowed(rules: Rules, value: Json, depth: nat, i: nat, child: Json)
    requires AllAllowed(rules, value, depth)
    requires (value.Arr? && i < |value.items| && child == value.items[i])
             || (value.Obj? && i < |value.fields| && child == value.fields[i].child)
    ensures AllAllowed(rules, child, depth + 1)
  {
    hide Allowed;
    forall path | NodeAt(child, path).Some?
      ensures Allowed(rules, NodeAt(child, path).value, depth + 1 + |path|)
    {
      var longer := [i] + path;
      assert longer[1..] == path;
      assert NodeAt(value, longer) == NodeAt(child, path);
    }
  }

  // ----- counting -----

  function Prefixed(i: nat, paths: set<seq<nat>>): set<seq<nat>> {
    set p | p in paths :: [i] + p
  }

  lemma {:induction false} PrefixedSize(i: nat, paths: set<seq<nat>>)
    ensures |Prefixed(i, paths)| == |paths|
    decreases |paths|
  {
    if paths != {} {
      var p :| p in paths;
      PrefixedSize(i, paths - {p});
      assert Prefixed(i, paths) == Prefixed(i, paths - {p}) + {[i] + p};
      forall q | q in paths - {p} ensures [i] + q != [i] + p {
        assert ([i] + q)[1..] == q && ([i] + p)[1..] == p;
      }
    }
  }

  /** The paths of a document are exactly as many as it has nodes. */
  lemma {:induction false} NodesArePaths(value: Json, paths: set<seq<nat>>)
    requires forall path :: path in paths <==> NodeAt(value, path).Some?
    ensures |paths| == Nodes(value)
    decreases value, 1, 0
  {
    var below := paths - {[]};
    assert NodeAt(value, []).Some? && paths == below + {[]};
    match value
    case Arr(items) => ItemPaths(items, below);
    case Obj(fields) => FieldPaths(fields, below);
    case _ => assert below == {};
  }

  /** The paths that start with this position. */
  function Through(paths: set<seq<nat>>, i: nat): set<seq<nat>> {
    set p | p in paths && p != [] && p[0] == i :: p[1..]
  }

  /** Splitting off the paths through the last position. */
  lemma ThroughLast(paths: set<seq<nat>>, n: nat)
    requires [] !in paths && forall p :: p in paths ==> p[0] <= n
    ensures var before := set p | p in paths && p[0] < n; |paths| == |before| + |Through(paths, n)|
  {
    var before := set p | p in paths && p[0] < n;
    var last := Prefixed(n, Through(paths, n));
    forall p | p in paths ensures p in before + last {
      if p[0] == n { assert p == [n] + p[1..] && p[1..] in Through(paths, n); }
    }
    forall p | p in last ensures p in paths && p !in before {
      var q :| q in Through(paths, n) && p == [n] + q;
      var r :| r in paths && r != [] && r[0] == n && r[1..] == q;
      assert r == [n] + q;
    }
    assert paths == before + last && before !! last;
    PrefixedSize(n, Through(paths, n));
  }

  lemma {:induction false} ItemPaths(items: seq<Json>, paths: set<seq<nat>>)
    requires forall p :: p in paths <==> p != [] && p[0] < |items| && NodeAt(items[p[0]], p[1..]).Some?
    ensures |paths| == NodesOf(items)
    decreases items, 0, |items|
  {
    if items == [] {
      assert paths == {};
    } else {
      var n := |items| - 1;
      var before := set p | p in paths && p[0] < n;
      ThroughLast(paths, n);
      ItemPaths(items[..n], before);
      forall p ensures p in Through(paths, n) <==> NodeAt(items[n], p).Some? { ThroughIs(paths, n, p); }
      NodesArePaths(items[n], Through(paths, n));
    }
  }

  lemma ThroughIs(paths: set<seq<nat>>, n: nat, p: seq<nat>)
    ensures p in Through(paths, n) <==> [n] + p in paths
  {
    assert ([n] + p)[1..] == p;
    if p in Through(paths, n) {
      var q :| q in paths && q != [] && q[0] == n && q[1..] == p;
      assert q == [n] + p;
    }
  }

  lemma {:induction false} FieldPaths(fields: seq<Field>, paths: set<seq<nat>>)
    requires forall p :: p in paths <==> p != [] && p[0] < |fields| && NodeAt(fields[p[0]].child, p[1..]).Some?
    ensures |paths| == NodesIn(fields)
    decreases fields, 0, |fields|
  {
    if fields == [] {
      assert paths == {};
    } else {
      var n := |fields| - 1;
      var before := set p | p in paths && p[0] < n;
      ThroughLast(paths, n);
      FieldPaths(fields[..n], before);
      forall p ensures p in Through(paths, n) <==> NodeAt(fields[n].child, p).Some? { ThroughIs(paths, n, p); }
      FieldNodes(fields[n], Through(paths, n));
    }
  }

  lemma {:induction false} FieldNodes(field: Field, paths: set<seq<nat>>)
    requires forall path :: path in paths <==> NodeAt(field.child, path).Some?
    ensures |paths| == NodesAt(field)
    decreases field, 2, 0
  {
    NodesArePaths(field.child, paths);
  }

  /** At most so many paths: any more would exceed any budget. */
  ghost predicate AtMost(value: Json, limit: nat) {
    forall paths: set<seq<nat>> :: (forall path :: path in paths ==> NodeAt(value, path).Some?) ==> |paths| <= limit
  }

  /** The paths of a document, gathered. */
  lemma {:induction false} Gather(value: Json) returns (paths: set<seq<nat>>)
    ensures forall path :: path in paths <==> NodeAt(value, path).Some?
    decreases value, 1, 0
  {
    paths := {[]};
    match value
    case Arr(items) =>
      for n := 0 to |items|
        invariant forall path :: path in paths <==> NodeAt(value, path).Some? && (path == [] || path[0] < n)
      {
        var more := Gather(items[n]);
        paths := Joined(value, items[n], paths, more, n);
      }
    case Obj(fields) =>
      for n := 0 to |fields|
        invariant forall path :: path in paths <==> NodeAt(value, path).Some? && (path == [] || path[0] < n)
      {
        var more := Gather(fields[n].child);
        paths := Joined(value, fields[n].child, paths, more, n);
      }
    case _ =>
  }

  lemma Joined(value: Json, child: Json, paths: set<seq<nat>>, more: set<seq<nat>>, n: nat)
    returns (all: set<seq<nat>>)
    requires (value.Arr? && n < |value.items| && child == value.items[n])
             || (value.Obj? && n < |value.fields| && child == value.fields[n].child)
    requires forall path :: path in paths <==> NodeAt(value, path).Some? && (path == [] || path[0] < n)
    requires forall path :: path in more <==> NodeAt(child, path).Some?
    ensures forall path :: path in all <==> NodeAt(value, path).Some? && (path == [] || path[0] < n + 1)
  {
    all := paths + Prefixed(n, more);
    forall path | NodeAt(value, path).Some? && (path == [] || path[0] < n + 1) ensures path in all {
      if path != [] && path[0] == n { assert path == [n] + path[1..] && path[1..] in more; }
    }
    forall path | path in all ensures NodeAt(value, path).Some? && (path == [] || path[0] < n + 1) {
      if path !in paths {
        var q :| q in more && path == [n] + q;
        assert path[1..] == q;
      }
    }
  }

  lemma AtMostIsNodes(value: Json, limit: nat)
    ensures AtMost(value, limit) <==> Nodes(value) <= limit
  {
    var all := Gather(value);
    NodesArePaths(value, all);
    forall paths: set<seq<nat>> | forall path :: path in paths ==> NodeAt(value, path).Some?
      ensures |paths| <= |all|
    {
      SubsetSize(paths, all);
    }
  }

  // ----- acceptance -----

  /** The bytes of a text: one to four for each character. */
  lemma {:induction false} Utf8LengthIs(a: string, b: string)
    ensures Utf8Length("") == 0 && Utf8Length(a + b) == Utf8Length(a) + Utf8Length(b)
    ensures |b| == 1 ==> var code := b[0] as int;
      Utf8Length(b) == if code <= 0x7f then 1 else if code <= 0x7ff then 2 else if code <= 0xffff then 3 else 4
    decreases |b|
  {
    if b == "" {
      assert a + b == a;
    } else {
      var init := b[..|b| - 1];
      assert (a + b)[..|a + b| - 1] == a + init;
      Utf8LengthIs(a, init);
      if |b| == 1 { assert init == ""; }
    }
  }

  /**
   * A context passes exactly when it is an object of at most 2048 nodes, none deeper than eight, each of which a
   * context may have, that can be serialized in at most 32768 bytes.
   */
  lemma ContextDecides(value: Json, encoded: Option<string>)
    ensures ContextFault(value, encoded).None? <==>
      && value.Obj? && AtMost(value, 2048)
      && (forall path :: NodeAt(value, path).Some? ==> |path| <= 8 && InContext(NodeAt(value, path).value))
      && encoded.Some? && Utf8Length(encoded.value) <= 32768
  {
    hide Walk, Bounded, Nodes, Utf8Length, AtMost, InContext;
    ContextAccepted(value, encoded);
    AtMostIsNodes(value, 2048);
    BoundedIsPaths(Context, value, 0);
  }

  /** A receipt passes exactly when it has at most 200000 nodes, none deeper than 64, each of which it may have. */
  lemma ReceiptDecides(value: Json)
    ensures Walk(Receipt, [Pending(value, 0)], 200_000).None? <==>
      && AtMost(value, 200_000)
      && (forall path :: NodeAt(value, path).Some? ==> |path| <= 64 && InReceipt(NodeAt(value, path).value))
  {
    hide Walk, Bounded, Nodes, AtMost, InReceipt;
    WorklistIsRecursion(Receipt, value);
    AtMostIsNodes(value, 200_000);
    BoundedIsPaths(Receipt, value, 0);
  }

  // ----- refusals -----

  /** What each fault of a node says. */
  ghost predicate HasFault(rules: Rules, item: Json, depth: nat, fault: Fault) {
    match fault
    case DepthLimit => depth > if rules == Context then 8 else 64
    case WidthLimit => rules == Context && ((item.Obj? && |item.fields| > 256) || (item.Arr? && |item.items| > 256))
    case TextLimit => rules == Context && item.Text? && |item.text| > 32768
    case KeyInvalid =>
      item.Obj? && (exists f :: (f in item.fields
        && (f.name.None? || (rules == Context && (f.name.value == "" || |f.name.value| > 128)))))
    case FloatInvalid => item == Float(None)
    case IntInvalid =>
      rules == Context && item.Int? && (item.value < -9007199254740991 || item.value > 9007199254740991)
    case Unsupported => item == Other
    case NodeLimit => false
  }

  lemma VisitFaults(rules: Rules, item: Json, depth: nat)
    ensures var fault := Visit(rules, item, depth); fault.Some? ==> HasFault(rules, item, depth, fault.value)
  {
    if item.Obj? && Visit(rules, item, depth) == Some(KeyInvalid) {
      var i :| 0 <= i < |item.fields| && !GoodName(rules, item.fields[i].name);
      assert item.fields[i] in item.fields;
    }
  }

  /** Some path leads to a node that has the fault. */
  ghost predicate Somewhere(rules: Rules, value: Json, depth: nat, fault: Fault) {
    exists path :: NodeAt(value, path).Some? && HasFault(rules, NodeAt(value, path).value, depth + |path|, fault)
  }

  lemma {:induction false} OccursSomewhere(rules: Rules, value: Json, depth: nat, fault: Fault)
    requires Occurs(rules, value, depth, fault)
    ensures Somewhere(rules, value, depth, fault)
    decreases value
  {
    hide Visit, HasFault;
    if Visit(rules, value, depth) == Some(fault) {
      VisitFaults(rules, value, depth);
      assert NodeAt(value, []) == Some(value);
    } else if value.Arr? {
      var i :| 0 <= i < |value.items| && Occurs(rules, value.items[i], depth + 1, fault);
      OccursSomewhere(rules, value.items[i], depth + 1, fault);
      Deeper(rules, value, depth, i, value.items[i], fault);
    } else {
      var i :| 0 <= i < |value.fields| && Occurs(rules, value.fields[i].child, depth + 1, fault);
      OccursSomewhere(rules, value.fields[i].child, depth + 1, fault);
      Deeper(rules, value, depth, i, value.fields[i].child, fault);
    }
  }

  lemma Deeper(rules: Rules, value: Json, depth: nat, i: nat, child: Json, fault: Fault)
    requires Somewhere(rules, child, depth + 1, fault)
    requires (value.Arr? && i < |value.items| && child == value.items[i])
             || (value.Obj? && i < |value.fields| && child == value.fields[i].child)
    ensures Somewhere(rules, value, depth, fault)
  {
    hide HasFault;
    var path :| NodeAt(child, path).Some? && HasFault(rules, NodeAt(child, path).value, depth + 1 + |path|, fault);
    var longer := [i] + path;
    assert longer[1..] == path && NodeAt(value, longer) == NodeAt(child, path);
    assert depth + |longer| == depth + 1 + |path|;
  }

  /** A refusal is true of the document: it has too many nodes, or a path leads to a node that has the fault. */
  lemma RefusalIsReal(rules: Rules, value: Json)
    ensures var fault := Walk(rules, [Pending(value, 0)], if rules == Context then 2048 else 200_000);
      fault.Some? ==>
        || (fault.value == NodeLimit && !AtMost(value, if rules == Context then 2048 else 200_000))
        || Somewhere(rules, value, 0, fault.value)
  {
    hide Walk, Occurs, Nodes, AtMost, Somewhere;
    var limit := if rules == Context then 2048 else 200_000;
    var stack := [Pending(value, 0)];
    FaultsAreReal(rules, stack, limit);
    AtMostIsNodes(value, limit);
    assert Weight(stack) == Nodes(value) by { assert stack[..0] == []; }
    var fault := Walk(rules, stack, limit);
    if fault.Some? && OccursIn(rules, stack, fault.value) { OccursSomewhere(rules, value, 0, fault.value); }
  }

  /** A context is over a limit or invalid: the two are told apart by what is wrong with it. */
  lemma ContextRefusals(value: Json, encoded: Option<string>)
    ensures var error := ContextFault(value, encoded);
      && (error == Some(ContextLimit) ==>
            || !AtMost(value, 2048) || Somewhere(Context, value, 0, DepthLimit)
            || Somewhere(Context, value, 0, WidthLimit) || Somewhere(Context, value, 0, TextLimit)
            || (encoded.Some? && Utf8Length(encoded.value) > 32768))
      && (error == Some(ContextInvalid) ==>
            || !value.Obj? || Somewhere(Context, value, 0, KeyInvalid) || Somewhere(Context, value, 0, FloatInvalid)
            || Somewhere(Context, value, 0, IntInvalid) || Somewhere(Context, value, 0, Unsupported)
            || encoded.None?)
  {
    hide Walk, AtMost, Somewhere, Utf8Length;
    RefusalIsReal(Context, value);
    NoNodeFault(value);
  }

  lemma NoNodeFault(value: Json)
    ensures !Somewhere(Context, value, 0, NodeLimit)
  {
  }
}
