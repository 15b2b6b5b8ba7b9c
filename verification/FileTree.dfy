/** The directory tree of the sidebar: built from the nodes' file paths, then compressed. */
module FileTree {
  import opened Wrappers

  datatype GraphNode = GraphNode(id: int, filePath: Option<string>)

  /** Children are a map in insertion order. */
  datatype Dir = Dir(name: string, fullPath: string, children: Forest, nodeIds: set<int>, directNodes: seq<GraphNode>)

  datatype Forest = Nil | Cons(key: string, dir: Dir, rest: Forest)

  const ROOT := Dir("/", "", Nil, {}, [])

  // ── paths ────────────────────────────────────────────────────────

  function Split(s: string): (parts: seq<string>)
    ensures parts != [] && forall p :: p in parts ==> '/' !in p
  {
    if s == [] then [""]
    else
      var rest := Split(s[1..]);
      if s[0] == '/' then [""] + rest else [[s[0]] + rest[0]] + rest[1..]
  }

  function Join(parts: seq<string>): string
    requires parts != []
  {
    if |parts| == 1 then parts[0] else parts[0] + "/" + Join(parts[1..])
  }

  function Prefixed(c: char, parts: seq<string>): seq<string>
    requires parts != []
  {
    if c == '/' then [""] + parts else [[c] + parts[0]] + parts[1..]
  }

  lemma {:induction false} SplitFirst(c: char, s: string)
    ensures Split([c] + s) == Prefixed(c, Split(s))
  {
    assert ([c] + s)[1..] == s;
  }

  lemma {:induction false} PrefixedInTwo(c: char, a: seq<string>, b: seq<string>)
    requires a != []
    ensures Prefixed(c, a + b) == Prefixed(c, a) + b
  {
    assert (a + b)[1..] == a[1..] + b;
  }

  lemma {:induction false} SplitAtSlash(a: string, b: string)
    ensures Split(a + "/" + b) == Split(a) + Split(b)
  {
    if a == [] {
      assert a + "/" + b == ['/'] + b;
      SplitFirst('/', b);
    } else {
      hide Split, Prefixed;
      var c, rest := a[0], a[1..];
      SplitAtSlash(rest, b);
      assert a == [c] + rest && a + "/" + b == [c] + (rest + "/" + b);
      SplitFirst(c, rest);
      SplitFirst(c, rest + "/" + b);
      PrefixedInTwo(c, Split(rest), Split(b));
    }
  }

  lemma {:induction false} SplitSegment(p: string, s: string)
    requires '/' !in p
    ensures Split(p) == [p] && Split(p + "/" + s) == [p] + Split(s)
  {
    SplitAtSlash(p, s);
    if p != [] {
      SplitSegment(p[1..], s);
      assert [p[0]] + p[1..] == p;
    }
  }

  /** Joining segments and splitting again gives the segments back. */
  lemma {:induction false} SplitOfJoin(parts: seq<string>)
    requires parts != [] && forall p :: p in parts ==> '/' !in p
    ensures Split(Join(parts)) == parts
  {
    if |parts| == 1 {
      SplitSegment(parts[0], "");
    } else {
      SplitOfJoin(parts[1..]);
      SplitSegment(parts[0], Join(parts[1..]));
      assert [parts[0]] + parts[1..] == parts;
    }
  }

  function NonEmpty(parts: seq<string>): (r: seq<string>)
    ensures forall p :: p in r <==> p in parts && p != ""
  {
    if parts == [] then []
    else if parts[0] == "" then NonEmpty(parts[1..])
    else [parts[0]] + NonEmpty(parts[1..])
  }

  predicate Pathed(node: GraphNode) { node.filePath.Some? && node.filePath.value != "" }

  /** The directories above a node, outermost first. */
  function DirPath(node: GraphNode): seq<string>
    requires node.filePath.Some?
  {
    var parts := Split(node.filePath.value);
    NonEmpty(parts[..|parts| - 1])
  }

  // ── the tree ─────────────────────────────────────────────────────

  function Child(f: Forest, key: string): Option<Dir> {
    match f
    case Nil => None
    case Cons(k, d, rest) => if k == key then Some(d) else Child(rest, key)
  }

  /** Setting a key: in its old place, or last when it is new. */
  function Put(f: Forest, key: string, dir: Dir): Forest {
    match f
    case Nil => Cons(key, dir, Nil)
    case Cons(k, d, rest) => if k == key then Cons(k, dir, rest) else Cons(k, d, Put(rest, key, dir))
  }

  /** The directory a step of the walk leads to, new or not. */
  function ChildFor(d: Dir, parts: seq<string>, i: nat): Dir
    requires i < |parts|
  {
    Child(d.children, parts[i]).GetOr(Dir(parts[i], Join(parts[..i + 1]), Nil, {}, []))
  }

  /** Walking from d along the segments from the i-th on, making what is missing. */
  function Insert(d: Dir, parts: seq<string>, i: nat, node: GraphNode): Dir
    requires i < |parts|
    decreases |parts| - i
  {
    if i == |parts| - 1 then d.(directNodes := d.directNodes + [node])
    else if parts[i] == "" then Insert(d, parts, i + 1, node)
    else
      d.(children := Put(d.children, parts[i], Insert(ChildFor(d, parts, i), parts, i + 1, node)))
  }

  function InsertNode(d: Dir, node: GraphNode): Dir {
    if Pathed(node) then Insert(d, Split(node.filePath.value), 0, node) else d
  }

  function Inserted(nodes: seq<GraphNode>): Dir {
    if nodes == [] then ROOT else InsertNode(Inserted(nodes[..|nodes| - 1]), nodes[|nodes| - 1])
  }

  function DirectIds(nodes: seq<GraphNode>): set<int> { set n | n in nodes :: n.id }

  function Ids(d: Dir): set<int> { DirectIds(d.directNodes) + ForestIds(d.children) }

  function ForestIds(f: Forest): set<int> {
    match f
    case Nil => {}
    case Cons(_, d, rest) => Ids(d) + ForestIds(rest)
  }

  /** Every directory told which nodes are in it or below. */
  function Collected(d: Dir): Dir { d.(children := CollectedForest(d.children), nodeIds := Ids(d)) }

  function CollectedForest(f: Forest): Forest {
    match f
    case Nil => Nil
    case Cons(k, d, rest) => Cons(k, Collected(d), CollectedForest(rest))
  }

  function Built(nodes: seq<GraphNode>): Dir { Collected(Inserted(nodes)) }

  method Collect(d: Dir) returns (r: Dir)
    ensures r == Collected(d)
    decreases d
  {
    var ids := DirectIds(d.directNodes);
    var todo, done := d.children, Nil;
    while todo.Cons?
      invariant todo == d.children || todo < d.children
      invariant ids + ForestIds(todo) == Ids(d)
      invariant Append(done, CollectedForest(todo)) == CollectedForest(d.children)
      decreases todo
    {
      var c := Collect(todo.dir);
      ids := ids + c.nodeIds;
      AppendOne(done, todo.key, c, CollectedForest(todo.rest));
      done := Append(done, Cons(todo.key, c, Nil));
      todo := todo.rest;
    }
    AppendNil(done);
    return d.(children := done, nodeIds := ids);
  }

  function Append(f: Forest, g: Forest): Forest {
    match f
    case Nil => g
    case Cons(k, d, rest) => Cons(k, d, Append(rest, g))
  }

  lemma {:induction false} AppendNil(f: Forest)
    ensures Append(f, Nil) == f
  {
    if f.Cons? { AppendNil(f.rest); }
  }

  lemma {:induction false} AppendOne(f: Forest, key: string, d: Dir, g: Forest)
    ensures Append(Append(f, Cons(key, d, Nil)), g) == Append(f, Cons(key, d, g))
  {
    if f.Cons? { AppendOne(f.rest, key, d, g); }
  }

  method BuildFileTree(nodes: seq<GraphNode>) returns (root: Dir)
    ensures root == Built(nodes)
  {
    root := ROOT;
    for i := 0 to |nodes|
      invariant root == Inserted(nodes[..i])
    {
      assert nodes[..i + 1][..i] == nodes[..i];
      if Pathed(nodes[i]) {
        root := Insert(root, Split(nodes[i].filePath.value), 0, nodes[i]);
      }
    }
    assert nodes[..|nodes|] == nodes;
    root := Collect(root);
  }

  // ── where the nodes are ──────────────────────────────────────────

  function DirAt(d: Dir, path: seq<string>): Option<Dir>
    decreases |path|
  {
    if path == [] then Some(d)
    else
      match Child(d.children, path[0])
      case None => None
      case Some(c) => DirAt(c, path[1..])
  }

  function NodesAt(d: Dir, path: seq<string>): seq<GraphNode> {
    match DirAt(d, path)
    case None => []
    case Some(x) => x.directNodes
  }

  /** The segments still to walk. */
  function Ahead(parts: seq<string>, i: nat): seq<string>
    requires i < |parts|
  {
    NonEmpty(parts[i..|parts| - 1])
  }

  lemma {:induction false} AheadStep(parts: seq<string>, i: nat)
    requires i < |parts| - 1
    ensures Ahead(parts, i) == (if parts[i] == "" then [] else [parts[i]]) + Ahead(parts, i + 1)
  {
    var rest := parts[i..|parts| - 1];
    assert rest[0] == parts[i] && rest[1..] == parts[i + 1..|parts| - 1];
  }

  lemma {:induction false} NothingAhead(parts: seq<string>)
    requires parts != []
    ensures Ahead(parts, |parts| - 1) == []
  {
    assert parts[|parts| - 1..|parts| - 1] == [];
  }

  lemma {:induction false} ChildOfPut(f: Forest, key: string, d: Dir, other: string)
    ensures Child(Put(f, key, d), other) == if other == key then Some(d) else Child(f, other)
  {
    if f.Cons? { ChildOfPut(f.rest, key, d, other); }
  }

  lemma {:induction false} DirAtAfterPut(d: Dir, key: string, c: Dir, path: seq<string>)
    requires path != []
    ensures DirAt(d.(children := Put(d.children, key, c)), path) ==
            if path[0] == key then DirAt(c, path[1..]) else DirAt(d, path)
  {
    ChildOfPut(d.children, key, c, path[0]);
  }

  lemma {:induction false} NewChildIsEmpty(d: Dir, parts: seq<string>, i: nat, path: seq<string>)
    requires i < |parts| && path != [] && path[0] == parts[i]
    ensures NodesAt(ChildFor(d, parts, i), path[1..]) == NodesAt(d, path)
    ensures DirAt(d, path).Some? ==> DirAt(ChildFor(d, parts, i), path[1..]).Some?
    ensures DirAt(ChildFor(d, parts, i), path[1..]).Some? ==> DirAt(d, path).Some? || path[1..] == []
  {
  }

  lemma {:induction false} InsertPlacesNode(d: Dir, parts: seq<string>, i: nat, node: GraphNode, path: seq<string>)
    requires i < |parts|
    ensures NodesAt(Insert(d, parts, i, node), path) ==
            NodesAt(d, path) + if path == Ahead(parts, i) then [node] else []
    ensures DirAt(Insert(d, parts, i, node), path).Some? <==> DirAt(d, path).Some? || path <= Ahead(parts, i)
    decreases |parts| - i
  {
    hide Join, Ahead, Put;
    if i == |parts| - 1 {
      NothingAhead(parts);
    } else {
      AheadStep(parts, i);
      if parts[i] == "" {
        InsertPlacesNode(d, parts, i + 1, node, path);
      } else if path != [] {
        var child, rest := ChildFor(d, parts, i), path[1..];
        var there := Ahead(parts, i + 1);
        DirAtAfterPut(d, parts[i], Insert(child, parts, i + 1, node), path);
        assert Insert(d, parts, i, node) ==
               d.(children := Put(d.children, parts[i], Insert(child, parts, i + 1, node)));
        PathSplits(path, parts[i], there);
        if path[0] == parts[i] {
          hide DirAt, ChildFor, Insert;
          NewChildIsEmpty(d, parts, i, path);
          InsertPlacesNode(child, parts, i + 1, node, rest);
        }
      }
    }
  }

  lemma {:induction false} PathSplits(path: seq<string>, head: string, rest: seq<string>)
    requires path != []
    ensures path == [head] + rest <==> path[0] == head && path[1..] == rest
    ensures path <= [head] + rest <==> path[0] == head && path[1..] <= rest
  {
    assert [path[0]] + path[1..] == path;
    assert ([head] + rest)[1..] == rest;
  }

  function Under(nodes: seq<GraphNode>, path: seq<string>): seq<GraphNode> {
    if nodes == [] then []
    else
      var last := nodes[|nodes| - 1];
      Under(nodes[..|nodes| - 1], path) + if Pathed(last) && DirPath(last) == path then [last] else []
  }

  /** Every node with a path is in the directory its path names, exactly as often and in the order it was
      given; nodes without a path are nowhere; and there is a directory for each path leading to a node,
      and no other but the root. */
  lemma {:induction false} NodesAreWhereTheirPathsSay(nodes: seq<GraphNode>, path: seq<string>)
    ensures NodesAt(Inserted(nodes), path) == Under(nodes, path)
    ensures DirAt(Inserted(nodes), path).Some? <==>
            path == [] || exists n :: n in nodes && Pathed(n) && path <= DirPath(n)
  {
    hide DirAt, Insert, Pathed, DirPath;
    if nodes == [] {
      assert NodesAt(ROOT, path) == [] && (DirAt(ROOT, path).Some? <==> path == []) by { EmptyTree(path); }
    } else {
      var front, last := nodes[..|nodes| - 1], nodes[|nodes| - 1];
      NodesAreWhereTheirPathsSay(front, path);
      OneMoreNode(Inserted(front), last, path);
      assert nodes == front + [last];
    }
  }

  lemma {:induction false} EmptyTree(path: seq<string>)
    ensures NodesAt(ROOT, path) == [] && (DirAt(ROOT, path).Some? <==> path == [])
  {
  }

  lemma {:induction false} OneMoreNode(d: Dir, node: GraphNode, path: seq<string>)
    ensures NodesAt(InsertNode(d, node), path) ==
            NodesAt(d, path) + if Pathed(node) && DirPath(node) == path then [node] else []
    ensures DirAt(InsertNode(d, node), path).Some? <==> DirAt(d, path).Some? || (Pathed(node) && path <= DirPath(node))
  {
    hide DirAt, Insert, NodesAt;
    if Pathed(node) {
      InsertPlacesNode(d, Split(node.filePath.value), 0, node, path);
    }
  }

  // ── what the directories say ─────────────────────────────────────

  /** No directory lists a name twice. */
  predicate Keyed(d: Dir) { KeyedForest(d.children) }

  predicate KeyedForest(f: Forest) {
    match f
    case Nil => true
    case Cons(k, d, rest) => Child(rest, k).None? && Keyed(d) && KeyedForest(rest)
  }

  lemma {:induction false} PutKeepsKeyed(f: Forest, key: string, d: Dir)
    requires KeyedForest(f) && Keyed(d)
    ensures KeyedForest(Put(f, key, d))
  {
    if f.Cons? {
      PutKeepsKeyed(f.rest, key, d);
      ChildOfPut(f.rest, key, d, f.key);
    }
  }

  lemma {:induction false} ChildIsKeyed(f: Forest, key: string)
    requires KeyedForest(f) && Child(f, key).Some?
    ensures Keyed(Child(f, key).value)
  {
    if f.key != key { ChildIsKeyed(f.rest, key); }
  }

  lemma {:induction false} InsertKeepsKeyed(d: Dir, parts: seq<string>, i: nat, node: GraphNode)
    requires i < |parts| && Keyed(d)
    ensures Keyed(Insert(d, parts, i, node))
    decreases |parts| - i
  {
    if i < |parts| - 1 {
      if parts[i] == "" {
        InsertKeepsKeyed(d, parts, i + 1, node);
      } else {
        var child := ChildFor(d, parts, i);
        if Child(d.children, parts[i]).Some? { ChildIsKeyed(d.children, parts[i]); }
        InsertKeepsKeyed(child, parts, i + 1, node);
        PutKeepsKeyed(d.children, parts[i], Insert(child, parts, i + 1, node));
      }
    }
  }

  lemma {:induction false} InsertedIsKeyed(nodes: seq<GraphNode>)
    ensures Keyed(Inserted(nodes))
  {
    if nodes != [] {
      var last := nodes[|nodes| - 1];
      InsertedIsKeyed(nodes[..|nodes| - 1]);
      if Pathed(last) {
        InsertKeepsKeyed(Inserted(nodes[..|nodes| - 1]), Split(last.filePath.value), 0, last);
      }
    }
  }

  predicate Holds(d: Dir, path: seq<string>, id: int) { exists n :: n in NodesAt(d, path) && n.id == id }

  predicate HoldsIn(f: Forest, key: string, path: seq<string>, id: int) {
    Child(f, key).Some? && Holds(Child(f, key).value, path, id)
  }

  lemma {:induction false} HoldsBelow(d: Dir, path: seq<string>, id: int)
    ensures path == [] ==> (Holds(d, path, id) <==> id in DirectIds(d.directNodes))
    ensures path != [] ==> (Holds(d, path, id) <==> HoldsIn(d.children, path[0], path[1..], id))
  {
    if path == [] {
      assert NodesAt(d, path) == d.directNodes;
    } else if Child(d.children, path[0]).Some? {
      assert NodesAt(d, path) == NodesAt(Child(d.children, path[0]).value, path[1..]);
    }
  }

  /** The ids of a directory are those of the nodes at the paths below it. */
  lemma {:induction false} IdsAreBelow(d: Dir, id: int)
    requires Keyed(d)
    ensures id in Ids(d) <==> exists path :: Holds(d, path, id)
    decreases d, 1
  {
    ForestIdsAreBelow(d.children, id);
    HoldsBelow(d, [], id);
    if id in ForestIds(d.children) {
      var key, path :| HoldsIn(d.children, key, path, id);
      assert ([key] + path)[0] == key && ([key] + path)[1..] == path;
      HoldsBelow(d, [key] + path, id);
    }
    forall path | Holds(d, path, id) ensures id in Ids(d) {
      HoldsBelow(d, path, id);
    }
  }

  lemma {:induction false} ForestIdsAreBelow(f: Forest, id: int)
    requires KeyedForest(f)
    ensures id in ForestIds(f) <==> exists key, path :: HoldsIn(f, key, path, id)
    decreases f, 0
  {
    if f.Cons? {
      IdsAreBelow(f.dir, id);
      ForestIdsAreBelow(f.rest, id);
      forall path ensures HoldsIn(f, f.key, path, id) <==> Holds(f.dir, path, id) {
      }
      forall key, path | key != f.key ensures HoldsIn(f, key, path, id) <==> HoldsIn(f.rest, key, path, id) {
      }
      if id in Ids(f.dir) {
        var path :| Holds(f.dir, path, id);
        assert HoldsIn(f, f.key, path, id);
      }
      if id in ForestIds(f.rest) {
        var key, path :| HoldsIn(f.rest, key, path, id);
        assert HoldsIn(f, key, path, id);
      }
    }
  }

  lemma {:induction false} CollectedChild(f: Forest, key: string)
    ensures Child(CollectedForest(f), key) == match Child(f, key) case None => None case Some(d) => Some(Collected(d))
  {
    if f.Cons? { CollectedChild(f.rest, key); }
  }

  lemma {:induction false} CollectedDirAt(d: Dir, path: seq<string>)
    ensures DirAt(Collected(d), path) == match DirAt(d, path) case None => None case Some(x) => Some(Collected(x))
    decreases |path|
  {
    if path != [] {
      CollectedChild(d.children, path[0]);
      if Child(d.children, path[0]).Some? {
        CollectedDirAt(Child(d.children, path[0]).value, path[1..]);
      }
    }
  }

  lemma {:induction false} DirAtIsKeyed(d: Dir, path: seq<string>)
    requires Keyed(d) && DirAt(d, path).Some?
    ensures Keyed(DirAt(d, path).value)
    decreases |path|
  {
    if path != [] {
      ChildIsKeyed(d.children, path[0]);
      DirAtIsKeyed(Child(d.children, path[0]).value, path[1..]);
    }
  }

  lemma {:induction false} DirAtThrough(d: Dir, path: seq<string>, more: seq<string>)
    requires DirAt(d, path).Some?
    ensures NodesAt(d, path + more) == NodesAt(DirAt(d, path).value, more)
    decreases |path|
  {
    if path == [] {
      assert path + more == more;
    } else {
      assert (path + more)[0] == path[0] && (path + more)[1..] == path[1..] + more;
      DirAtThrough(Child(d.children, path[0]).value, path[1..], more);
    }
  }

  lemma {:induction false} InUnder(nodes: seq<GraphNode>, path: seq<string>, n: GraphNode)
    ensures n in Under(nodes, path) <==> n in nodes && Pathed(n) && DirPath(n) == path
  {
    hide DirPath, Pathed;
    if nodes != [] {
      InUnder(nodes[..|nodes| - 1], path, n);
      assert nodes == nodes[..|nodes| - 1] + [nodes[|nodes| - 1]];
    }
  }

  /** A directory's ids are exactly those of the nodes whose path leads into it or below it. */
  lemma {:induction false} IdsOfADirectory(nodes: seq<GraphNode>, path: seq<string>, id: int)
    requires DirAt(Built(nodes), path).Some?
    ensures id in DirAt(Built(nodes), path).value.nodeIds <==>
            exists n :: n in nodes && Pathed(n) && path <= DirPath(n) && n.id == id
  {
    hide DirAt, Insert, Inserted, Ids, Under;
    var root := Inserted(nodes);
    CollectedDirAt(root, path);
    var d := DirAt(root, path).value;
    InsertedIsKeyed(nodes);
    DirAtIsKeyed(root, path);
    IdsAreBelow(d, id);
    if id in Ids(d) {
      var more :| Holds(d, more, id);
      var n :| n in NodesAt(d, more) && n.id == id;
      DirAtThrough(root, path, more);
      NodesAreWhereTheirPathsSay(nodes, path + more);
      InUnder(nodes, path + more, n);
    }
    if n :| n in nodes && Pathed(n) && path <= DirPath(n) && n.id == id {
      var more := DirPath(n)[|path|..];
      assert path + more == DirPath(n);
      DirAtThrough(root, path, more);
      NodesAreWhereTheirPathsSay(nodes, path + more);
      InUnder(nodes, path + more, n);
      assert Holds(d, more, id);
    }
  }

  /** A directory below the root carries the path it stands at, and its last segment as its name. */
  predicate Labelled(d: Dir, above: seq<string>) { LabelledForest(d.children, above) }

  predicate LabelledForest(f: Forest, above: seq<string>) {
    match f
    case Nil => true
    case Cons(k, d, rest) =>
      && d.name == k && NonEmpty(Split(d.fullPath)) == above + [k]
      && Labelled(d, above + [k]) && LabelledForest(rest, above)
  }

  lemma {:induction false} PutKeepsLabels(f: Forest, key: string, d: Dir, above: seq<string>)
    requires LabelledForest(f, above)
    requires d.name == key && NonEmpty(Split(d.fullPath)) == above + [key] && Labelled(d, above + [key])
    ensures LabelledForest(Put(f, key, d), above)
  {
    if f.Cons? { PutKeepsLabels(f.rest, key, d, above); }
  }

  lemma {:induction false} ChildLabels(f: Forest, key: string, above: seq<string>)
    requires LabelledForest(f, above) && Child(f, key).Some?
    ensures var d := Child(f, key).value;
            d.name == key && NonEmpty(Split(d.fullPath)) == above + [key] && Labelled(d, above + [key])
  {
    if f.key != key { ChildLabels(f.rest, key, above); }
  }

  lemma {:induction false} NonEmptyConcat(a: seq<string>, b: seq<string>)
    ensures NonEmpty(a + b) == NonEmpty(a) + NonEmpty(b)
  {
    if a == [] {
      assert a + b == b;
    } else {
      assert (a + b)[0] == a[0] && (a + b)[1..] == a[1..] + b;
      NonEmptyConcat(a[1..], b);
    }
  }

  lemma {:induction false} InsertKeepsLabels(d: Dir, parts: seq<string>, i: nat, node: GraphNode)
    requires i < |parts| && (forall p :: p in parts ==> '/' !in p) && Labelled(d, NonEmpty(parts[..i]))
    ensures Labelled(Insert(d, parts, i, node), NonEmpty(parts[..i]))
    ensures Insert(d, parts, i, node).name == d.name && Insert(d, parts, i, node).fullPath == d.fullPath
    decreases |parts| - i
  {
    if i < |parts| - 1 {
      var above := NonEmpty(parts[..i]);
      assert parts[..i + 1] == parts[..i] + [parts[i]];
      NonEmptyConcat(parts[..i], [parts[i]]);
      assert [parts[i]][1..] == [];
      assert NonEmpty(parts[..i + 1]) == if parts[i] == "" then above else above + [parts[i]];
      if parts[i] == "" {
        InsertKeepsLabels(d, parts, i + 1, node);
      } else {
        SplitOfJoin(parts[..i + 1]);
        var child := ChildFor(d, parts, i);
        if Child(d.children, parts[i]).Some? { ChildLabels(d.children, parts[i], above); }
        InsertKeepsLabels(child, parts, i + 1, node);
        PutKeepsLabels(d.children, parts[i], Insert(child, parts, i + 1, node), above);
      }
    }
  }

  lemma {:induction false} InsertedIsLabelled(nodes: seq<GraphNode>)
    ensures Labelled(Inserted(nodes), [])
  {
    if nodes != [] {
      var last := nodes[|nodes| - 1];
      InsertedIsLabelled(nodes[..|nodes| - 1]);
      if Pathed(last) {
        var parts := Split(last.filePath.value);
        assert NonEmpty(parts[..0]) == [];
        InsertKeepsLabels(Inserted(nodes[..|nodes| - 1]), parts, 0, last);
      }
    }
  }

  lemma {:induction false} DirAtLabels(d: Dir, above: seq<string>, path: seq<string>)
    requires Labelled(d, above) && path != [] && DirAt(d, path).Some?
    ensures DirAt(d, path).value.name == path[|path| - 1]
    ensures NonEmpty(Split(DirAt(d, path).value.fullPath)) == above + path
    decreases |path|
  {
    var c := Child(d.children, path[0]).value;
    ChildLabels(d.children, path[0], above);
    if |path| > 1 {
      DirAtLabels(c, above + [path[0]], path[1..]);
      assert above + [path[0]] + path[1..] == above + path;
    } else {
      assert path == [path[0]];
    }
  }

  /** The full path of a directory, read as segments, is the path it is found at. Repeated slashes are kept
      as the first node under it wrote them. */
  lemma {:induction false} FullPathsLeadBack(nodes: seq<GraphNode>, path: seq<string>)
    requires path != [] && DirAt(Built(nodes), path).Some?
    ensures DirAt(Built(nodes), path).value.name == path[|path| - 1]
    ensures NonEmpty(Split(DirAt(Built(nodes), path).value.fullPath)) == path
  {
    CollectedDirAt(Inserted(nodes), path);
    InsertedIsLabelled(nodes);
    DirAtLabels(Inserted(nodes), [], path);
    assert [] + path == path;
  }

  // ── compressing chains ───────────────────────────────────────────

  /** One child and nothing of its own. */
  predicate Single(d: Dir) { d.children.Cons? && d.children.rest.Nil? && d.directNodes == [] }

  /** A link of a chain gives way to its only child, which takes over the name so far. */
  function Squeezed(d: Dir): Dir {
    if Single(d) then d.children.dir.(name := d.name + "/" + d.children.key) else d
  }

  /** What compression amounts to: from the bottom up, every link below the root gives way once. */
  function Flattened(d: Dir): Dir { d.(children := FlattenedForest(d.children)) }

  function FlattenedForest(f: Forest): Forest {
    match f
    case Nil => Nil
    case Cons(k, d, rest) => Cons(k, Squeezed(Flattened(d)), FlattenedForest(rest))
  }

  /** No link is left in here. */
  predicate Flat(f: Forest) {
    match f
    case Nil => true
    case Cons(_, d, rest) => !Single(d) && Flat(d.children) && Flat(rest)
  }

  /** After compression no directory below the root has a single child and nothing of its own. */
  lemma {:induction false} NoLinkIsLeft(f: Forest)
    ensures Flat(FlattenedForest(f))
  {
    if f.Cons? {
      NoLinkIsLeft(f.dir.children);
      NoLinkIsLeft(f.rest);
    }
  }

  lemma {:induction false} FlatStays(f: Forest)
    requires Flat(f)
    ensures FlattenedForest(f) == f
  {
    if f.Cons? {
      FlatStays(f.dir.children);
      FlatStays(f.rest);
    }
  }

  /** Compressing twice is compressing once. */
  lemma {:induction false} FlatteningIsIdempotent(d: Dir)
    ensures Flattened(Flattened(d)) == Flattened(d)
  {
    NoLinkIsLeft(d.children);
    FlatStays(FlattenedForest(d.children));
  }

  function Height(d: Dir): nat { 1 + ForestHeight(d.children) }

  function ForestHeight(f: Forest): nat {
    match f
    case Nil => 0
    case Cons(_, d, rest) => if Height(d) > ForestHeight(rest) then Height(d) else ForestHeight(rest)
  }

  lemma {:induction false} FlatteningLowers(f: Forest)
    ensures ForestHeight(FlattenedForest(f)) <= ForestHeight(f)
  {
    if f.Cons? {
      FlatteningLowers(f.dir.children);
      FlatteningLowers(f.rest);
    }
  }

  /** The recursive compression with its loop, which compresses the only child of a link once more. It ends
      because the tree it works on gets lower, and the second compression finds nothing left to do. */
  method FlattenSingleChild(dir: Dir) returns (r: Dir)
    ensures r == Flattened(dir)
    decreases Height(dir)
  {
    var todo, done := dir.children, Nil;
    while todo.Cons?
      invariant ForestHeight(todo) <= ForestHeight(dir.children)
      invariant Append(done, FlattenedForest(todo)) == FlattenedForest(dir.children)
      decreases todo
    {
      var child := todo.dir;
      var flat := FlattenSingleChild(child);
      NoLinkIsLeft(child.children);
      FlatteningLowers(child.children);
      while Single(flat)
        invariant flat == Flattened(child) || (!Single(flat) && flat == Squeezed(Flattened(child)))
        invariant Height(flat) <= Height(child)
        decreases Height(flat)
      {
        var sk, sc := flat.children.key, flat.children.dir;
        FlatStays(sc.children);
        var again := FlattenSingleChild(sc);
        flat := sc.(name := flat.name + "/" + sk, children := again.children);
      }
      AppendOne(done, todo.key, flat, FlattenedForest(todo.rest));
      done := Append(done, Cons(todo.key, flat, Nil));
      todo := todo.rest;
    }
    AppendNil(done);
    return dir.(children := done);
  }

  // ── what compression keeps ───────────────────────────────────────

  /** What a directory is known by, apart from the name on display. */
  datatype Entry = Entry(fullPath: string, nodeIds: set<int>, directNodes: seq<GraphNode>)

  function EntryOf(d: Dir): Entry { Entry(d.fullPath, d.nodeIds, d.directNodes) }

  /** All directories, top down and in order. */
  function Listing(f: Forest): seq<Entry> {
    match f
    case Nil => []
    case Cons(_, d, rest) => [EntryOf(d)] + Listing(d.children) + Listing(rest)
  }

  /** The same without the links. */
  function Survivors(f: Forest): seq<Entry> {
    match f
    case Nil => []
    case Cons(_, d, rest) => (if Single(d) then [] else [EntryOf(d)]) + Survivors(d.children) + Survivors(rest)
  }

  /** Exactly the links are gone: every other directory is still listed, in the same order, with its full
      path, its ids and its nodes. */
  lemma {:induction false} OnlyLinksDisappear(f: Forest)
    ensures Listing(FlattenedForest(f)) == Survivors(f)
  {
    if f.Cons? {
      OnlyLinksDisappear(f.dir.children);
      OnlyLinksDisappear(f.rest);
      var flat := Flattened(f.dir);
      if Single(f.dir) {
        assert Single(flat) && flat.children.rest == Nil;
        assert Listing(flat.children) == [EntryOf(flat.children.dir)] + Listing(flat.children.dir.children) + [];
        assert Listing(flat.children) == [EntryOf(Squeezed(flat))] + Listing(Squeezed(flat).children);
      }
    }
  }

  function NodesOf(entries: seq<Entry>): seq<GraphNode> {
    if entries == [] then [] else entries[0].directNodes + NodesOf(entries[1..])
  }

  lemma {:induction false} NodesOfConcat(a: seq<Entry>, b: seq<Entry>)
    ensures NodesOf(a + b) == NodesOf(a) + NodesOf(b)
  {
    if a == [] {
      assert a + b == b;
    } else {
      assert (a + b)[0] == a[0] && (a + b)[1..] == a[1..] + b;
      NodesOfConcat(a[1..], b);
    }
  }

  lemma {:induction false} LinksHoldNoNodes(f: Forest)
    ensures NodesOf(Survivors(f)) == NodesOf(Listing(f))
  {
    if f.Cons? {
      LinksHoldNoNodes(f.dir.children);
      LinksHoldNoNodes(f.rest);
      var own := if Single(f.dir) then [] else [EntryOf(f.dir)];
      assert NodesOf(own) == NodesOf([EntryOf(f.dir)]) by { assert [EntryOf(f.dir)][1..] == []; }
      NodesOfConcat(own, Survivors(f.dir.children));
      NodesOfConcat(own + Survivors(f.dir.children), Survivors(f.rest));
      NodesOfConcat([EntryOf(f.dir)], Listing(f.dir.children));
      NodesOfConcat([EntryOf(f.dir)] + Listing(f.dir.children), Listing(f.rest));
    }
  }

  /** No node is lost, repeated or moved by compression. */
  lemma {:induction false} NoNodeIsLost(d: Dir)
    ensures NodesOf(Listing(Flattened(d).children)) == NodesOf(Listing(d.children))
    ensures Flattened(d).directNodes == d.directNodes && Flattened(d).nodeIds == d.nodeIds
  {
    OnlyLinksDisappear(d.children);
    LinksHoldNoNodes(d.children);
  }

  // ── the displayed name ───────────────────────────────────────────

  /** The name of a whole chain: the segments of all its links and of the directory it ends in. */
  function ChainName(d: Dir): string {
    if Single(d) then d.name + "/" + ChainName(d.children.dir) else d.name
  }

  /** Names are keys, as they are in every built tree. */
  predicate Named(f: Forest) {
    match f
    case Nil => true
    case Cons(k, d, rest) => d.name == k && Named(d.children) && Named(rest)
  }

  lemma {:induction false} SingleStays(d: Dir)
    ensures Single(Flattened(d)) <==> Single(d)
  {
    if d.children.Cons? {
      assert FlattenedForest(d.children.rest).Nil? <==> d.children.rest.Nil?;
    }
  }

  /** A compressed directory shows its whole chain exactly when the chain has at most one link: a longer one
      shows its first two segments and loses the others. */
  lemma {:induction false} LongChainsLoseSegments(d: Dir)
    requires Named(d.children)
    ensures Squeezed(Flattened(d)).name == ChainName(d) <==> !(Single(d) && Single(d.children.dir))
  {
    SingleStays(d);
    if Single(d) {
      assert Single(Flattened(d)) && Flattened(d).children.key == d.children.key == d.children.dir.name;
      assert Squeezed(Flattened(d)).name == d.name + "/" + d.children.dir.name;
      assert !Single(d.children.dir) ==> ChainName(d.children.dir) == d.children.dir.name;
    }
    if Single(d) && Single(d.children.dir) {
      var c := d.children.dir;
      assert |ChainName(d)| >= |d.name| + 1 + |c.name| + 1;
      assert |Squeezed(Flattened(d)).name| == |d.name| + 1 + |c.name|;
    }
  }

  lemma {:induction false} LabelledIsNamed(f: Forest, above: seq<string>)
    requires LabelledForest(f, above)
    ensures Named(f)
  {
    if f.Cons? {
      LabelledIsNamed(f.dir.children, above + [f.key]);
      LabelledIsNamed(f.rest, above);
    }
  }

  lemma {:induction false} DirAtIsLabelled(d: Dir, above: seq<string>, path: seq<string>)
    requires Labelled(d, above) && DirAt(d, path).Some?
    ensures Labelled(DirAt(d, path).value, above + path)
    decreases |path|
  {
    if path == [] {
      assert above + path == above;
    } else {
      ChildLabels(d.children, path[0], above);
      DirAtIsLabelled(Child(d.children, path[0]).value, above + [path[0]], path[1..]);
      assert above + [path[0]] + path[1..] == above + path;
    }
  }

  lemma {:induction false} CollectedIsNamed(f: Forest)
    requires Named(f)
    ensures Named(CollectedForest(f))
  {
    if f.Cons? {
      CollectedIsNamed(f.dir.children);
      CollectedIsNamed(f.rest);
    }
  }

  lemma {:induction false} FlattenedChild(f: Forest, key: string)
    ensures Child(FlattenedForest(f), key) ==
            match Child(f, key) case None => None case Some(d) => Some(Squeezed(Flattened(d)))
  {
    if f.Cons? { FlattenedChild(f.rest, key); }
  }

  /** What the compressed tree shows for a directory of the built one, if its parent is shown. */
  function Shown(parent: Dir, key: string): Option<Dir> { Child(Flattened(parent).children, key) }

  /** For every directory of every built tree: the name shown for it is that of the chain it starts if and only if
      that chain has at most one link. */
  lemma {:induction false} ShownNames(nodes: seq<GraphNode>, path: seq<string>, key: string)
    requires DirAt(Built(nodes), path).Some? && Child(DirAt(Built(nodes), path).value.children, key).Some?
    ensures var parent := DirAt(Built(nodes), path).value;
            var d := Child(parent.children, key).value;
            && Shown(parent, key).Some?
            && (Shown(parent, key).value.name == ChainName(d) <==> !(Single(d) && Single(d.children.dir)))
  {
    var root := Inserted(nodes);
    InsertedIsLabelled(nodes);
    CollectedDirAt(root, path);
    var x := DirAt(root, path).value;
    DirAtIsLabelled(root, [], path);
    CollectedChild(x.children, key);
    ChildLabels(x.children, key, [] + path);
    var d := Child(x.children, key).value;
    LabelledIsNamed(d.children, [] + path + [key]);
    CollectedIsNamed(d.children);
    FlattenedChild(Collected(x).children, key);
    LongChainsLoseSegments(Collected(d));
  }

  predicate Segment(s: string) { s != "" && '/' !in s }

  function Only(d: Dir): Forest { Cons(d.name, d, Nil) }

  function ThreeDeep(a: string, b: string, c: string, node: GraphNode, ids: set<int>): Dir {
    var d3 := Dir(c, a + "/" + (b + "/" + c), Nil, ids, [node]);
    var d2 := Dir(b, a + "/" + b, Only(d3), ids, []);
    Dir(a, a, Only(d2), ids, [])
  }

  lemma {:induction false} Joined(a: string, b: string, c: string)
    ensures Join([a]) == a && Join([a, b]) == a + "/" + b && Join([a, b, c]) == a + "/" + (b + "/" + c)
  {
    assert [a, b][1..] == [b] && [a, b, c][1..] == [b, c] && [b, c][1..] == [c];
    assert Join([b, c]) == b + "/" + Join([c]);
    assert Join([a, b, c]) == a + "/" + Join([b, c]);
  }

  lemma {:induction false} InsertedThreeDeep(a: string, b: string, c: string, file: string, node: GraphNode)
    requires Segment(a) && Segment(b) && Segment(c)
    ensures Insert(ROOT, [a, b, c, file], 0, node).children == Only(ThreeDeep(a, b, c, node, {}))
  {
    var parts := [a, b, c, file];
    assert parts[..1] == [a] && parts[..2] == [a, b] && parts[..3] == [a, b, c];
    Joined(a, b, c);
    hide Join;
    var e3, e2 := Dir(c, Join(parts[..3]), Nil, {}, []), Dir(b, Join(parts[..2]), Nil, {}, []);
    var e1 := Dir(a, Join(parts[..1]), Nil, {}, []);
    var d3 := e3.(directNodes := [node]);
    assert Insert(e3, parts, 3, node) == d3;
    var d2 := e2.(children := Only(d3));
    assert Insert(e2, parts, 2, node) == d2;
    var d1 := e1.(children := Only(d2));
    assert Insert(e1, parts, 1, node) == d1;
    assert Insert(ROOT, parts, 0, node).children == Only(d1);
  }

  lemma {:induction false} CollectedOnly(d: Dir, ids: set<int>)
    requires Ids(d) == ids
    ensures CollectedForest(Only(d)) == Only(Collected(d)) && ForestIds(Only(d)) == ids
  {
    assert CollectedForest(Nil) == Nil && ForestIds(Nil) == {};
  }

  lemma {:induction false} CollectedThreeDeep(a: string, b: string, c: string, node: GraphNode)
    ensures CollectedForest(Only(ThreeDeep(a, b, c, node, {}))) == Only(ThreeDeep(a, b, c, node, {node.id}))
  {
    var d1 := ThreeDeep(a, b, c, node, {});
    var d2 := d1.children.dir;
    var d3 := d2.children.dir;
    assert node in [node];
    assert DirectIds([node]) == {node.id} && DirectIds([]) == {} && ForestIds(Nil) == {};
    assert Ids(d3) == {node.id};
    CollectedOnly(d3, {node.id});
    assert Ids(d2) == {node.id};
    CollectedOnly(d2, {node.id});
    assert Ids(d1) == {node.id};
    CollectedOnly(d1, {node.id});
  }

  lemma {:induction false} BuiltThreeDeep(a: string, b: string, c: string, file: string, node: GraphNode)
    requires Segment(a) && Segment(b) && Segment(c) && '/' !in file
    requires node.filePath == Some(Join([a, b, c, file]))
    ensures Built([node]).children == Only(ThreeDeep(a, b, c, node, {node.id}))
  {
    var parts := [a, b, c, file];
    assert forall p :: p in parts ==> '/' !in p;
    SplitOfJoin(parts);
    assert Join(parts) == a + "/" + Join(parts[1..]);
    assert Pathed(node);
    hide Split, Join, Insert;
    assert [node][..0] == [] && Inserted([node]) == InsertNode(ROOT, node);
    InsertedThreeDeep(a, b, c, file, node);
    CollectedThreeDeep(a, b, c, node);
  }

  /** A single node three directories deep, such as a/b/c/x.ts, is shown under the name a/b, though the full path
      it is shown for is a/b/c. */
  lemma {:induction false} ThreeDeepLosesASegment(a: string, b: string, c: string, file: string, id: int)
    requires Segment(a) && Segment(b) && Segment(c) && '/' !in file
    ensures var root := Built([GraphNode(id, Some(Join([a, b, c, file])))]);
            && Shown(root, a).Some? && Child(root.children, a).Some?
            && Shown(root, a).value.fullPath == ChainName(Child(root.children, a).value) == a + "/" + (b + "/" + c)
            && Shown(root, a).value.name == a + "/" + b
  {
    var node := GraphNode(id, Some(Join([a, b, c, file])));
    BuiltThreeDeep(a, b, c, file, node);
    var d1 := ThreeDeep(a, b, c, node, {id});
    var d2 := d1.children.dir;
    var d3 := d2.children.dir;
    FlattenedChild(Only(d1), a);
    assert ChainName(d3) == c && ChainName(d2) == b + "/" + c && ChainName(d1) == a + "/" + ChainName(d2);
    assert FlattenedForest(Nil) == Nil && Flattened(d3) == d3;
    assert FlattenedForest(Only(d3)) == Cons(c, d3, Nil);
    assert Squeezed(Flattened(d2)) == d3.(name := b + "/" + c);
    assert FlattenedForest(Only(d2)) == Cons(b, d3.(name := b + "/" + c), Nil);
    assert Squeezed(Flattened(d1)) == d3.(name := a + "/" + b);
  }
}
