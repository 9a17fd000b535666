/** src/filters/bad_request_exception.filter.ts: flattening of nested validation errors into one
    object whose keys are dotted paths. */
module ValidationErrors {
  import opened Common

  /** `constraints` lists the object's (name, message) pairs in enumeration order. */
  datatype ValidationError = ValidationError(
    property: string,
    children: ErrorList,
    constraints: Option<seq<(string, string)>>)

  /** An array of errors, or a missing value. */
  datatype ErrorList = Missing | List(nodes: seq<ValidationError>)

  datatype Value = Message(text: string) | Messages(texts: seq<string>) | Undefined

  type Entries = map<string, Value>

  function MessagesOf(constraints: seq<(string, string)>): Value {
    if |constraints| > 1 then
      Messages(seq(|constraints|, i requires 0 <= i < |constraints| => constraints[i].1))
    else if |constraints| == 1 then Message(constraints[0].1)
    else Undefined
  }

  function Join(prefix: string, name: string): string {
    (if prefix == "" then "" else prefix + ".") + name
  }

  // ---------------------------------------------------------------- the algorithm

  /** The accumulator object that the recursion writes into. */
  class Accumulator {
    var entries: Entries

    constructor ()
      ensures entries == map[]
    {
      entries := map[];
    }
  }

  /** `getErrors`. `threw` stands for the TypeError of reading the keys of missing constraints. */
  method GetErrors(errors: ErrorList, acc: Accumulator, prefix: string)
    returns (out: Accumulator, threw: bool)
    modifies acc
    ensures out == acc || fresh(out)
    ensures errors.Missing? ==> !threw && fresh(out) && out.entries == map[]
    ensures errors.List? ==>
      Replay(old(acc.entries), prefix, Routes(errors.nodes)) == if threw then Thrown else Kept(out.entries)
    ensures errors.List? && Lost !in Routes(errors.nodes) ==> out == acc
    decreases errors
  {
    threw := false;
    if errors.Missing? {
      out := new Accumulator();
      return;
    }
    var es := errors.nodes;
    out := acc;
    var i := 0;
    assert es[0..] == es;
    while i < |es|
      invariant 0 <= i <= |es|
      invariant out == acc || fresh(out)
      invariant Replay(out.entries, prefix, Routes(es[i..])) == Replay(old(acc.entries), prefix, Routes(es))
      invariant Lost !in Routes(es) ==> out == acc && Lost !in Routes(es[i..])
    {
      var error := es[i];
      var path := Join(prefix, error.property);
      ghost var before := out.entries;
      assert es[i..] == [error] + es[i + 1..];
      ReplayAppend(before, prefix, RoutesOf(error), Routes(es[i + 1..]));
      ReplayNode(before, prefix, error);
      if error.children.List? && error.children.nodes == [] {
        if error.constraints.None? {
          threw := true;
          return;
        }
        out.entries := out.entries[path := MessagesOf(error.constraints.value)];
      } else if error.children.Missing? && error.constraints.Some? {
        out.entries := out.entries[prefix := MessagesOf(error.constraints.value)];
      } else {
        out, threw := GetErrors(error.children, out, path);
        if threw {
          return;
        }
      }
      i := i + 1;
    }
  }

  // ---------------------------------------------------------------- the list of leaves

  /** What one visited node contributes. A leaf is named by the properties on the way to it and is
      stored under its own path or under its parent's. A node with neither children nor constraints
      discards what was collected; a childless node without constraints makes the call throw. */
  datatype Route = Leaf(names: seq<string>, atParent: bool, value: Value) | Lost | Broken

  function Under(name: string, r: Route): Route {
    if r.Leaf? then r.(names := [name] + r.names) else r
  }

  function RoutesOf(e: ValidationError): (rs: seq<Route>)
    decreases e, 0
  {
    match e.children
    case Missing =>
      if e.constraints.Some? then [Leaf([e.property], true, MessagesOf(e.constraints.value))] else [Lost]
    case List(cs) =>
      if cs == [] then
        if e.constraints.Some? then [Leaf([e.property], false, MessagesOf(e.constraints.value))] else [Broken]
      else
        var rs := Routes(cs);
        seq(|rs|, i requires 0 <= i < |rs| => Under(e.property, rs[i]))
  }

  function Routes(es: seq<ValidationError>): (rs: seq<Route>)
    decreases es, 1
  {
    if es == [] then [] else RoutesOf(es[0]) + Routes(es[1..])
  }

  function Dotted(prefix: string, names: seq<string>): string
    decreases |names|
  {
    if names == [] then prefix else Dotted(Join(prefix, names[0]), names[1..])
  }

  /** The key a leaf is stored under: the dotted path of its names, without the last one when it is
      reported at its parent. */
  function KeyOf(prefix: string, r: Route): string
    requires r.Leaf?
  {
    if r.names == [] then prefix
    else Dotted(prefix, if r.atParent then r.names[..|r.names| - 1] else r.names)
  }

  datatype Outcome = Kept(entries: Entries) | Thrown

  /** The accumulator overridden by the leaves from left to right. */
  function Replay(acc: Entries, prefix: string, rs: seq<Route>): Outcome
    decreases |rs|
  {
    if rs == [] then Kept(acc)
    else match rs[0]
      case Leaf(_, _, value) => Replay(acc[KeyOf(prefix, rs[0]) := value], prefix, rs[1..])
      case Lost => Replay(map[], prefix, rs[1..])
      case Broken => Thrown
  }

  lemma {:induction false} ReplayAppend(acc: Entries, prefix: string, rs: seq<Route>, ts: seq<Route>)
    ensures Replay(acc, prefix, rs + ts) ==
      match Replay(acc, prefix, rs) { case Kept(m) => Replay(m, prefix, ts) case Thrown => Thrown }
    decreases |rs|
  {
    if rs == [] {
      assert rs + ts == ts;
    } else {
      assert (rs + ts)[1..] == rs[1..] + ts;
      match rs[0]
      case Leaf(_, _, value) => ReplayAppend(acc[KeyOf(prefix, rs[0]) := value], prefix, rs[1..], ts);
      case Lost => ReplayAppend(map[], prefix, rs[1..], ts);
      case Broken =>
    }
  }

  ghost predicate Named(rs: seq<Route>) {
    forall r :: r in rs && r.Leaf? ==> r.names != []
  }

  lemma {:induction false} RoutesAreNamed(es: seq<ValidationError>)
    ensures Named(Routes(es))
    decreases es
  {
    if es != [] {
      RoutesAreNamed(es[1..]);
      if es[0].children.List? && es[0].children.nodes != [] {
        RoutesAreNamed(es[0].children.nodes);
      }
    }
  }

  lemma KeyUnder(prefix: string, name: string, r: Route)
    requires r.Leaf? && r.names != []
    ensures KeyOf(prefix, Under(name, r)) == KeyOf(Join(prefix, name), r)
  {
    var names := [name] + r.names;
    assert names[1..] == r.names;
    assert names[..|names| - 1] == [name] + r.names[..|r.names| - 1];
    assert names[..|names| - 1][1..] == r.names[..|r.names| - 1];
  }

  lemma {:induction false} ReplayUnderNamed(acc: Entries, prefix: string, name: string, rs: seq<Route>)
    requires Named(rs)
    ensures Replay(acc, prefix, seq(|rs|, i requires 0 <= i < |rs| => Under(name, rs[i]))) ==
      Replay(acc, Join(prefix, name), rs)
    decreases |rs|
  {
    var us := seq(|rs|, i requires 0 <= i < |rs| => Under(name, rs[i]));
    if rs != [] {
      var rest := rs[1..];
      assert us[1..] == seq(|rest|, i requires 0 <= i < |rest| => Under(name, rest[i]));
      match rs[0]
      case Leaf(_, _, value) =>
        KeyUnder(prefix, name, rs[0]);
        ReplayUnderNamed(acc[KeyOf(prefix, us[0]) := value], prefix, name, rest);
      case Lost => ReplayUnderNamed(map[], prefix, name, rest);
      case Broken =>
    }
  }

  lemma ReplayUnder(acc: Entries, prefix: string, name: string, rs: seq<Route>)
    requires exists es :: rs == Routes(es)
    ensures Replay(acc, prefix, seq(|rs|, i requires 0 <= i < |rs| => Under(name, rs[i]))) ==
      Replay(acc, Join(prefix, name), rs)
  {
    var es :| rs == Routes(es);
    RoutesAreNamed(es);
    ReplayUnderNamed(acc, prefix, name, rs);
  }

  /** What the three branches of the reducer do, said of the routes of one node. */
  lemma ReplayNode(acc: Entries, prefix: string, e: ValidationError)
    ensures Replay(acc, prefix, RoutesOf(e)) ==
      match e.children {
        case Missing =>
          if e.constraints.Some? then Kept(acc[prefix := MessagesOf(e.constraints.value)]) else Kept(map[])
        case List(cs) =>
          if cs != [] then Replay(acc, Join(prefix, e.property), Routes(cs))
          else if e.constraints.Some? then Kept(acc[Join(prefix, e.property) := MessagesOf(e.constraints.value)])
          else Thrown
      }
    ensures e.children.List? && Lost in Routes(e.children.nodes) ==> Lost in RoutesOf(e)
  {
    if e.children.List? && e.children.nodes != [] {
      var rs := Routes(e.children.nodes);
      ReplayUnder(acc, prefix, e.property, rs);
      if Lost in rs {
        var i :| 0 <= i < |rs| && rs[i] == Lost;
        assert RoutesOf(e)[i] == Lost;
      }
    } else {
      var r := RoutesOf(e)[0];
      assert RoutesOf(e)[1..] == [];
      if r.Leaf? {
        assert r.names[..0] == [] && r.names[1..] == [];
        assert Dotted(prefix, r.names) == Join(prefix, e.property);
      }
    }
  }

  // ---------------------------------------------------------------- which trees are kept whole

  /** Every node has children or constraints, and constraints when its list of children is empty. */
  ghost predicate Complete(es: seq<ValidationError>)
    decreases es
  {
    forall e :: e in es ==>
      match e.children
      case Missing => e.constraints.Some?
      case List(cs) => if cs == [] then e.constraints.Some? else Complete(cs)
  }

  ghost predicate AllLeaves(rs: seq<Route>) {
    forall r :: r in rs ==> r.Leaf?
  }

  lemma {:induction false} CompleteIsAllLeaves(es: seq<ValidationError>)
    ensures Complete(es) <==> AllLeaves(Routes(es))
    decreases es
  {
    if es != [] {
      CompleteIsAllLeaves(es[1..]);
      assert Complete(es) <==> Complete(es[..1]) && Complete(es[1..]);
      var e := es[0];
      assert es[..1] == [e];
      assert AllLeaves(Routes(es)) <==> AllLeaves(RoutesOf(e)) && AllLeaves(Routes(es[1..]));
      if e.children.List? && e.children.nodes != [] {
        var rs := Routes(e.children.nodes);
        CompleteIsAllLeaves(e.children.nodes);
        assert forall i :: 0 <= i < |rs| ==> RoutesOf(e)[i] == Under(e.property, rs[i]);
        assert AllLeaves(RoutesOf(e)) <==> AllLeaves(rs);
      } else {
        assert |RoutesOf(e)| == 1 && RoutesOf(e)[0] in RoutesOf(e);
      }
    }
  }

  lemma {:induction false} RoutesThrowIff(acc: Entries, prefix: string, rs: seq<Route>)
    ensures Replay(acc, prefix, rs).Thrown? <==> Broken in rs
    decreases |rs|
  {
    if rs != [] {
      match rs[0]
      case Leaf(_, _, value) => RoutesThrowIff(acc[KeyOf(prefix, rs[0]) := value], prefix, rs[1..]);
      case Lost => RoutesThrowIff(map[], prefix, rs[1..]);
      case Broken =>
    }
  }

  /** Route `i` is the last one that stores something under `key`. */
  ghost predicate IsLastStore(rs: seq<Route>, prefix: string, key: string, i: nat) {
    && i < |rs| && rs[i].Leaf? && KeyOf(prefix, rs[i]) == key
    && forall j :: i < j < |rs| && rs[j].Leaf? ==> KeyOf(prefix, rs[j]) != key
  }

  ghost predicate LostAfter(rs: seq<Route>, i: nat) {
    exists j :: i < j < |rs| && rs[j] == Lost
  }

  lemma LastStoreAtLast(rs: seq<Route>, prefix: string, key: string, i: nat)
    requires rs != []
    ensures var rest, last := rs[..|rs| - 1], rs[|rs| - 1];
      IsLastStore(rs, prefix, key, i) <==>
        if last.Leaf? && KeyOf(prefix, last) == key then i == |rest| else IsLastStore(rest, prefix, key, i)
  {
  }

  lemma LostAfterAtLast(rs: seq<Route>, i: nat)
    requires rs != [] && i < |rs| - 1
    ensures LostAfter(rs, i) <==> LostAfter(rs[..|rs| - 1], i) || rs[|rs| - 1] == Lost
  {
    var rest := rs[..|rs| - 1];
    if j :| i < j < |rest| && rest[j] == Lost {
      assert rs[j] == Lost;
    }
    if j :| i < j < |rs| && rs[j] == Lost {
      assert j < |rest| ==> rest[j] == Lost;
    }
  }

  lemma ReplayLast(acc: Entries, prefix: string, rs: seq<Route>)
    requires rs != [] && Broken !in rs
    ensures var rest, last := rs[..|rs| - 1], rs[|rs| - 1];
      && Broken !in rest && Replay(acc, prefix, rest).Kept? && Replay(acc, prefix, rs).Kept?
      && Replay(acc, prefix, rs).entries ==
           if last.Leaf? then Replay(acc, prefix, rest).entries[KeyOf(prefix, last) := last.value] else map[]
  {
    var rest, last := rs[..|rs| - 1], rs[|rs| - 1];
    assert rs == rest + [last] && [last][1..] == [];
    RoutesThrowIff(acc, prefix, rest);
    ReplayAppend(acc, prefix, rest, [last]);
  }

  /** Under a key that is stored into, the last value is found exactly when nothing was discarded after
      it. A key that is never stored into keeps what it had, exactly when nothing is discarded. */
  lemma {:induction false} RouteIsKeptIff(acc: Entries, prefix: string, rs: seq<Route>, key: string)
    requires Broken !in rs
    ensures Replay(acc, prefix, rs).Kept?
    ensures forall i: nat :: IsLastStore(rs, prefix, key, i) ==>
      (key in Replay(acc, prefix, rs).entries <==> !LostAfter(rs, i)) &&
      (!LostAfter(rs, i) ==> Replay(acc, prefix, rs).entries[key] == rs[i].value)
    ensures (forall i: nat :: !IsLastStore(rs, prefix, key, i)) ==>
      (key in Replay(acc, prefix, rs).entries <==> key in acc && Lost !in rs) &&
      (key in Replay(acc, prefix, rs).entries ==> Replay(acc, prefix, rs).entries[key] == acc[key])
    decreases |rs|
  {
    if rs != [] {
      var rest, last := rs[..|rs| - 1], rs[|rs| - 1];
      ReplayLast(acc, prefix, rs);
      RouteIsKeptIff(acc, prefix, rest, key);
      assert forall r :: r in rs <==> r in rest || r == last by {
        assert rs == rest + [last];
      }
      forall i: nat
        ensures IsLastStore(rs, prefix, key, i) <==>
          if last.Leaf? && KeyOf(prefix, last) == key then i == |rest| else IsLastStore(rest, prefix, key, i)
        ensures i < |rest| ==> (LostAfter(rs, i) <==> LostAfter(rest, i) || last == Lost)
        ensures i == |rest| ==> !LostAfter(rs, i)
      {
        LastStoreAtLast(rs, prefix, key, i);
        if i < |rest| {
          LostAfterAtLast(rs, i);
        }
      }
      assert IsLastStore(rs, prefix, key, |rest|) <==> (last.Leaf? && KeyOf(prefix, last) == key);
    }
  }

  /** Flattening a complete tree never throws and overrides the accumulator with the leaves: the
      last leaf stored under a key wins, and a key of no leaf keeps its old value. */
  lemma FlattenOverrides(acc: Entries, prefix: string, es: seq<ValidationError>, key: string)
    requires Complete(es)
    ensures AllLeaves(Routes(es)) && Replay(acc, prefix, Routes(es)).Kept?
    ensures var rs, m := Routes(es), Replay(acc, prefix, Routes(es)).entries;
      (forall i: nat :: IsLastStore(rs, prefix, key, i) ==> key in m && m[key] == rs[i].value) &&
      ((forall i :: 0 <= i < |rs| ==> KeyOf(prefix, rs[i]) != key) ==>
        (key in m <==> key in acc) && (key in m ==> m[key] == acc[key]))
  {
    CompleteIsAllLeaves(es);
    RouteIsKeptIff(acc, prefix, Routes(es), key);
  }

  lemma {:induction false} LostForgets(acc: Entries, acc': Entries, prefix: string, rs: seq<Route>)
    requires Lost in rs
    ensures Replay(acc, prefix, rs) == Replay(acc', prefix, rs)
    decreases |rs|
  {
    if rs[0].Leaf? {
      var key := KeyOf(prefix, rs[0]);
      LostForgets(acc[key := rs[0].value], acc'[key := rs[0].value], prefix, rs[1..]);
    }
  }

  lemma {:induction false} WithoutLostNothingDrops(acc: Entries, prefix: string, rs: seq<Route>)
    requires Lost !in rs
    ensures var o := Replay(acc, prefix, rs); o.Kept? ==> acc.Keys <= o.entries.Keys
    decreases |rs|
  {
    if rs != [] && rs[0].Leaf? {
      WithoutLostNothingDrops(acc[KeyOf(prefix, rs[0]) := rs[0].value], prefix, rs[1..]);
    }
  }

  ghost predicate NoAccumulatorDrops(prefix: string, rs: seq<Route>) {
    forall acc: Entries :: Replay(acc, prefix, rs).Kept? ==> acc.Keys <= Replay(acc, prefix, rs).entries.Keys
  }

  lemma FreshKey(m: Entries) returns (key: string)
    ensures key !in m
  {
    key := LongKey(m.Keys);
  }

  lemma LongKey(keys: set<string>) returns (key: string)
    ensures forall k :: k in keys ==> |k| < |key|
  {
    if keys == {} {
      key := "";
    } else {
      var k :| k in keys;
      var rest := LongKey(keys - {k});
      key := rest + k + "x";
      assert forall j :: j in keys ==> j == k || j in keys - {k};
    }
  }

  lemma RoutesKeepIff(prefix: string, rs: seq<Route>)
    requires Broken !in rs
    ensures NoAccumulatorDrops(prefix, rs) <==> Lost !in rs
  {
    if Lost !in rs {
      forall acc: Entries ensures Replay(acc, prefix, rs).Kept? ==> acc.Keys <= Replay(acc, prefix, rs).entries.Keys {
        WithoutLostNothingDrops(acc, prefix, rs);
      }
    } else {
      RoutesThrowIff(map[], prefix, rs);
      var m := Replay(map[], prefix, rs).entries;
      var key := FreshKey(m);
      var acc: Entries := map[key := Undefined];
      LostForgets(acc, map[], prefix, rs);
      assert key in acc && key !in Replay(acc, prefix, rs).entries;
    }
  }

  // the same on trees

  /** Some node has neither children nor constraints. */
  ghost predicate HasBareNode(es: seq<ValidationError>)
    decreases es
  {
    exists e :: e in es &&
      match e.children
      case Missing => e.constraints.None?
      case List(cs) => cs != [] && HasBareNode(cs)
  }

  /** Some node has an empty list of children and no constraints. */
  ghost predicate HasEmptyLeaf(es: seq<ValidationError>)
    decreases es
  {
    exists e :: e in es && e.children.List? &&
      if e.children.nodes == [] then e.constraints.None? else HasEmptyLeaf(e.children.nodes)
  }

  lemma UnderKeepsMarks(name: string, rs: seq<Route>)
    ensures var us := seq(|rs|, i requires 0 <= i < |rs| => Under(name, rs[i]));
      (Lost in us <==> Lost in rs) && (Broken in us <==> Broken in rs)
  {
    var us := seq(|rs|, i requires 0 <= i < |rs| => Under(name, rs[i]));
    assert forall i :: 0 <= i < |rs| ==> (us[i] == Lost <==> rs[i] == Lost) && (us[i] == Broken <==> rs[i] == Broken);
    if Lost in rs {
      var i :| 0 <= i < |rs| && rs[i] == Lost;
      assert us[i] == Lost;
    }
    if Broken in rs {
      var i :| 0 <= i < |rs| && rs[i] == Broken;
      assert us[i] == Broken;
    }
  }

  lemma {:induction false} MarksOfTree(es: seq<ValidationError>)
    ensures Lost in Routes(es) <==> HasBareNode(es)
    ensures Broken in Routes(es) <==> HasEmptyLeaf(es)
    decreases es
  {
    if es != [] {
      var e := es[0];
      MarksOfTree(es[1..]);
      assert forall d :: d in es <==> d == e || d in es[1..];
      assert HasBareNode(es) <==> HasBareNode([e]) || HasBareNode(es[1..]);
      assert HasEmptyLeaf(es) <==> HasEmptyLeaf([e]) || HasEmptyLeaf(es[1..]);
      if e.children.List? && e.children.nodes != [] {
        MarksOfTree(e.children.nodes);
        UnderKeepsMarks(e.property, Routes(e.children.nodes));
      }
    }
  }

  /** The call throws exactly when some node has an empty list of children and no constraints. */
  lemma ThrowsIff(acc: Entries, prefix: string, es: seq<ValidationError>)
    ensures Replay(acc, prefix, Routes(es)).Thrown? <==> HasEmptyLeaf(es)
  {
    RoutesThrowIff(acc, prefix, Routes(es));
    MarksOfTree(es);
  }

  /** A call that returns never loses what was collected before, whatever it was, exactly when no node
      lacks both children and constraints. */
  lemma KeepsAccumulatorIff(prefix: string, es: seq<ValidationError>)
    ensures NoAccumulatorDrops(prefix, Routes(es)) <==> HasEmptyLeaf(es) || !HasBareNode(es)
  {
    MarksOfTree(es);
    if Broken in Routes(es) {
      forall acc: Entries ensures Replay(acc, prefix, Routes(es)).Thrown? {
        RoutesThrowIff(acc, prefix, Routes(es));
      }
    } else {
      RoutesKeepIff(prefix, Routes(es));
    }
  }

  /** For any tree without an empty leaf: a message is lost iff a bare node is visited after the last
      one that is stored under its key. */
  lemma LeafIsLostIff(acc: Entries, prefix: string, es: seq<ValidationError>, i: nat)
    requires !HasEmptyLeaf(es) && i < |Routes(es)| && Routes(es)[i].Leaf?
    requires IsLastStore(Routes(es), prefix, KeyOf(prefix, Routes(es)[i]), i)
    ensures Replay(acc, prefix, Routes(es)).Kept?
    ensures KeyOf(prefix, Routes(es)[i]) !in Replay(acc, prefix, Routes(es)).entries <==> LostAfter(Routes(es), i)
    ensures !LostAfter(Routes(es), i) ==>
      Replay(acc, prefix, Routes(es)).entries[KeyOf(prefix, Routes(es)[i])] == Routes(es)[i].value
  {
    MarksOfTree(es);
    RouteIsKeptIff(acc, prefix, Routes(es), KeyOf(prefix, Routes(es)[i]));
  }

  const NAME_ERROR := ValidationError("name", List([]), Some([("isString", "name must be a string")]))
  const BARE_ERROR := ValidationError("age", Missing, None)
  const EMPTY_ERROR := ValidationError("age", List([]), None)

  lemma RoutesOfExamples()
    ensures Routes([NAME_ERROR]) == RoutesOf(NAME_ERROR)
    ensures Routes([NAME_ERROR, BARE_ERROR]) == RoutesOf(NAME_ERROR) + [Lost]
    ensures Routes([BARE_ERROR, NAME_ERROR]) == [Lost] + RoutesOf(NAME_ERROR)
    ensures Replay(map[], "", RoutesOf(NAME_ERROR)) == Kept(map["name" := Message("name must be a string")])
  {
    assert [NAME_ERROR][1..] == [] && [BARE_ERROR][1..] == [];
    assert [NAME_ERROR, BARE_ERROR][1..] == [BARE_ERROR] && [BARE_ERROR, NAME_ERROR][1..] == [NAME_ERROR];
    assert Routes([BARE_ERROR]) == [Lost] && Routes([NAME_ERROR]) == RoutesOf(NAME_ERROR) + [];
    assert Join("", "name") == "name";
    ReplayNode(map[], "", NAME_ERROR);
  }

  /** A leaf followed by a bare sibling loses its message; before it, the same sibling does no harm. */
  lemma BareSiblingLosesLeaf()
    ensures Replay(map[], "", Routes([NAME_ERROR])) == Kept(map["name" := Message("name must be a string")])
    ensures Replay(map[], "", Routes([NAME_ERROR, BARE_ERROR])) == Kept(map[])
    ensures Replay(map[], "", Routes([BARE_ERROR, NAME_ERROR])) == Kept(map["name" := Message("name must be a string")])
  {
    RoutesOfExamples();
    ReplayAppend(map[], "", RoutesOf(NAME_ERROR), [Lost]);
    ReplayAppend(map[], "", [Lost], RoutesOf(NAME_ERROR));
    assert [Lost][1..] == [];
  }

  /** A childless node without constraints makes the call throw, whatever was collected before. */
  lemma EmptySiblingThrows(acc: Entries)
    ensures Replay(acc, "", Routes([NAME_ERROR, EMPTY_ERROR])).Thrown?
  {
    assert EMPTY_ERROR in [NAME_ERROR, EMPTY_ERROR];
    ThrowsIff(acc, "", [NAME_ERROR, EMPTY_ERROR]);
  }

  // ---------------------------------------------------------------- distinct leaves, distinct keys

  /** Not empty, without a dot, and not the one name that assigning a message to creates no entry for. */
  predicate PlainName(name: string) {
    name != "" && '.' !in name && name != "__proto__"
  }

  ghost predicate PlainNames(names: seq<string>) {
    forall n :: n in names ==> PlainName(n)
  }

  /** Every node has a list of children, leaves have constraints, names are plain and siblings have
      different names. */
  ghost predicate Tidy(es: seq<ValidationError>)
    decreases es
  {
    && (forall i, j :: 0 <= i < j < |es| ==> es[i].property != es[j].property)
    && (forall e :: e in es ==>
         && PlainName(e.property) && e.children.List?
         && (if e.children.nodes == [] then e.constraints.Some? else Tidy(e.children.nodes)))
  }

  /** Routes of a tidy tree: leaves with plain names, starting with the name of a sibling. */
  ghost predicate PlainRoutes(rs: seq<Route>, heads: set<string>) {
    forall r :: r in rs ==>
      r.Leaf? && !r.atParent && r.names != [] && r.names[0] in heads && PlainNames(r.names)
  }

  function Heads(es: seq<ValidationError>): set<string> {
    set e | e in es :: e.property
  }

  lemma {:induction false} TidyRoutes(es: seq<ValidationError>)
    requires Tidy(es)
    ensures PlainRoutes(Routes(es), Heads(es))
    ensures forall i, j :: 0 <= i < j < |Routes(es)| ==>
      (Routes(es)[i].Leaf? && Routes(es)[j].Leaf? ==> Routes(es)[i].names != Routes(es)[j].names)
    decreases es
  {
    if es != [] {
      TidyRoutes(es[1..]);
      var e, first, rest := es[0], RoutesOf(es[0]), Routes(es[1..]);
      if e.children.nodes != [] {
        var rs := Routes(e.children.nodes);
        TidyRoutes(e.children.nodes);
        forall i | 0 <= i < |rs|
          ensures first[i].Leaf? && !first[i].atParent && first[i].names == [e.property] + rs[i].names
        {
          assert rs[i] in rs;
        }
        forall i, j | 0 <= i < j < |rs|
          ensures first[i].names != first[j].names
        {
          assert first[i].names[1..] == rs[i].names && first[j].names[1..] == rs[j].names;
        }
      }
      assert PlainRoutes(first, {e.property});
      assert e.property !in Heads(es[1..]) by {
        forall d | d in es[1..] ensures d.property != e.property {
          var k :| 0 <= k < |es[1..]| && es[1..][k] == d;
          assert es[k + 1] == d;
        }
      }
      forall i, j | 0 <= i < |first| && 0 <= j < |rest|
        ensures first[i].Leaf? && rest[j].Leaf? && first[i].names != rest[j].names
      {
        assert first[i] in first && rest[j] in rest;
      }
      assert PlainRoutes(rest, Heads(es[1..]));
      assert Heads(es) == {e.property} + Heads(es[1..]);
    }
  }

  /** The part of a dotted path after a non-empty prefix. */
  function Suffix(names: seq<string>): string {
    if names == [] then "" else "." + names[0] + Suffix(names[1..])
  }

  lemma {:induction false} DottedIsSuffix(prefix: string, names: seq<string>)
    requires prefix != ""
    ensures Dotted(prefix, names) == prefix + Suffix(names)
    decreases |names|
  {
    if names == [] {
      assert prefix + "" == prefix;
    } else {
      DottedIsSuffix(Join(prefix, names[0]), names[1..]);
      assert prefix + "." + names[0] + Suffix(names[1..]) == prefix + ("." + names[0] + Suffix(names[1..]));
    }
  }

  lemma {:induction false} SuffixInjective(xs: seq<string>, ys: seq<string>)
    requires PlainNames(xs) && PlainNames(ys)
    requires Suffix(xs) == Suffix(ys)
    ensures xs == ys
    decreases |xs|
  {
    if xs != [] && ys != [] {
      var x, y := xs[0] + Suffix(xs[1..]), ys[0] + Suffix(ys[1..]);
      assert Suffix(xs) == "." + x && Suffix(ys) == "." + y;
      assert Suffix(xs)[1..] == x && Suffix(ys)[1..] == y;
      assert PlainName(xs[0]) && PlainName(ys[0]);
      HeadsAgree(xs[0], Suffix(xs[1..]), ys[0], Suffix(ys[1..]));
      SuffixInjective(xs[1..], ys[1..]);
      assert xs == [xs[0]] + xs[1..] && ys == [ys[0]] + ys[1..];
    }
  }

  lemma HeadsAgree(x: string, s: string, y: string, t: string)
    requires '.' !in x && '.' !in y
    requires (s == "" || s[0] == '.') && (t == "" || t[0] == '.')
    requires x + s == y + t
    ensures x == y && s == t
  {
    assert x == (x + s)[..|x|] && y == (y + t)[..|y|];
    assert s == (x + s)[|x|..] && t == (y + t)[|y|..];
  }

  lemma DottedInjective(prefix: string, xs: seq<string>, ys: seq<string>)
    requires PlainNames(xs) && PlainNames(ys) && xs != [] && ys != []
    requires Dotted(prefix, xs) == Dotted(prefix, ys)
    ensures xs == ys
  {
    if prefix != "" {
      DottedIsSuffix(prefix, xs);
      DottedIsSuffix(prefix, ys);
      assert (prefix + Suffix(xs))[|prefix|..] == Suffix(xs);
      assert (prefix + Suffix(ys))[|prefix|..] == Suffix(ys);
      SuffixInjective(xs, ys);
    } else {
      assert PlainName(xs[0]) && PlainName(ys[0]);
      DottedIsSuffix(xs[0], xs[1..]);
      DottedIsSuffix(ys[0], ys[1..]);
      assert Join("", xs[0]) == xs[0] && Join("", ys[0]) == ys[0];
      assert PlainName(xs[0]) && PlainName(ys[0]);
      HeadsAgree(xs[0], Suffix(xs[1..]), ys[0], Suffix(ys[1..]));
      SuffixInjective(xs[1..], ys[1..]);
      assert xs == [xs[0]] + xs[1..] && ys == [ys[0]] + ys[1..];
    }
  }

  ghost predicate DistinctKeys(rs: seq<Route>, prefix: string) {
    AllLeaves(rs) && forall i, j :: 0 <= i < j < |rs| ==> KeyOf(prefix, rs[i]) != KeyOf(prefix, rs[j])
  }

  lemma {:induction false} OneKeyPerLeaf(acc: Entries, prefix: string, rs: seq<Route>)
    requires DistinctKeys(rs, prefix)
    requires forall r :: r in rs ==> KeyOf(prefix, r) !in acc
    ensures var o := Replay(acc, prefix, rs); o.Kept? && |o.entries| == |acc| + |rs|
    decreases |rs|
  {
    if rs != [] {
      var key := KeyOf(prefix, rs[0]);
      var next := acc[key := rs[0].value];
      assert rs[0] in rs && key !in acc;
      assert |next| == |acc| + 1;
      forall r | r in rs[1..] ensures KeyOf(prefix, r) !in next {
        var k :| 0 <= k < |rs[1..]| && rs[1..][k] == r;
        assert rs[k + 1] == r && r in rs;
      }
      OneKeyPerLeaf(next, prefix, rs[1..]);
    }
  }

  lemma LeafKeepsValue(acc: Entries, prefix: string, rs: seq<Route>, i: nat)
    requires DistinctKeys(rs, prefix) && i < |rs|
    ensures var o := Replay(acc, prefix, rs);
      o.Kept? && KeyOf(prefix, rs[i]) in o.entries && o.entries[KeyOf(prefix, rs[i])] == rs[i].value
  {
    assert IsLastStore(rs, prefix, KeyOf(prefix, rs[i]), i);
    RouteIsKeptIff(acc, prefix, rs, KeyOf(prefix, rs[i]));
    assert forall j :: 0 <= j < |rs| ==> rs[j] in rs;
  }

  /** The flattened form of a tidy tree has exactly one key per leaf and keeps every leaf's value. */
  lemma FlattenIsFaithful(es: seq<ValidationError>, prefix: string)
    requires Tidy(es)
    ensures var rs, o := Routes(es), Replay(map[], prefix, Routes(es));
      AllLeaves(rs) && o.Kept? && |o.entries| == |rs| &&
      forall i :: 0 <= i < |rs| ==> KeyOf(prefix, rs[i]) in o.entries && o.entries[KeyOf(prefix, rs[i])] == rs[i].value
  {
    TidyRoutes(es);
    var rs := Routes(es);
    forall i, j | 0 <= i < j < |rs|
      ensures KeyOf(prefix, rs[i]) != KeyOf(prefix, rs[j])
    {
      assert rs[i] in rs && rs[j] in rs;
      if KeyOf(prefix, rs[i]) == KeyOf(prefix, rs[j]) {
        DottedInjective(prefix, rs[i].names, rs[j].names);
      }
    }
    OneKeyPerLeaf(map[], prefix, rs);
    forall i: nat | i < |rs|
      ensures var o := Replay(map[], prefix, rs);
        o.Kept? && KeyOf(prefix, rs[i]) in o.entries && o.entries[KeyOf(prefix, rs[i])] == rs[i].value
    {
      LeafKeepsValue(map[], prefix, rs, i);
    }
  }

  // ---------------------------------------------------------------- what is found under a key

  /** Following the names from one of the errors leads to a leaf with these constraints. */
  ghost predicate LeafAt(es: seq<ValidationError>, names: seq<string>, constraints: seq<(string, string)>)
    decreases |names|, 1
  {
    names != [] && exists e :: e in es && LeafFrom(e, names, constraints)
  }

  ghost predicate LeafFrom(e: ValidationError, names: seq<string>, constraints: seq<(string, string)>)
    requires names != []
    decreases |names|, 0
  {
    && e.property == names[0] && e.children.List?
    && if |names| == 1 then e.children.nodes == [] && e.constraints == Some(constraints)
       else e.children.nodes != [] && LeafAt(e.children.nodes, names[1..], constraints)
  }

  /** One message as it is, several as a list in their order, and nothing defined for none. */
  ghost predicate IsMessages(v: Value, constraints: seq<(string, string)>) {
    match v
    case Undefined => constraints == []
    case Message(text) => |constraints| == 1 && text == constraints[0].1
    case Messages(texts) =>
      |constraints| > 1 && |texts| == |constraints| && forall i :: 0 <= i < |texts| ==> texts[i] == constraints[i].1
  }

  lemma MessagesAreMessages(constraints: seq<(string, string)>)
    ensures IsMessages(MessagesOf(constraints), constraints)
  {
  }

  lemma RouteOfSibling(es: seq<ValidationError>, e: ValidationError, r: Route)
    requires e in es && r in RoutesOf(e)
    ensures r in Routes(es)
    decreases |es|
  {
    if e != es[0] {
      RouteOfSibling(es[1..], e, r);
    }
  }

  lemma {:induction false} LeafHasRoute(es: seq<ValidationError>, names: seq<string>, constraints: seq<(string, string)>)
    requires LeafAt(es, names, constraints)
    ensures Leaf(names, false, MessagesOf(constraints)) in Routes(es)
    decreases |names|
  {
    var r := Leaf(names, false, MessagesOf(constraints));
    var e :| e in es && LeafFrom(e, names, constraints);
    if |names| == 1 {
      assert names == [e.property] && RoutesOf(e) == [r];
    } else {
      var rs, inner := Routes(e.children.nodes), Leaf(names[1..], false, MessagesOf(constraints));
      LeafHasRoute(e.children.nodes, names[1..], constraints);
      var i :| 0 <= i < |rs| && rs[i] == inner;
      assert [e.property] + names[1..] == names;
      assert RoutesOf(e)[i] == r;
    }
    RouteOfSibling(es, e, r);
  }

  /** In the flattened form of a tidy tree the messages of every leaf are found under the dotted path
      that leads to it. */
  lemma FlattenFindsMessages(es: seq<ValidationError>, prefix: string, names: seq<string>,
      constraints: seq<(string, string)>)
    requires Tidy(es) && LeafAt(es, names, constraints)
    ensures var o := Replay(map[], prefix, Routes(es));
      o.Kept? && Dotted(prefix, names) in o.entries && IsMessages(o.entries[Dotted(prefix, names)], constraints)
  {
    var r := Leaf(names, false, MessagesOf(constraints));
    LeafHasRoute(es, names, constraints);
    MessagesAreMessages(constraints);
    FlattenIsFaithful(es, prefix);
    var i :| 0 <= i < |Routes(es)| && Routes(es)[i] == r;
    assert KeyOf(prefix, Routes(es)[i]) == Dotted(prefix, names);
  }

  /** Paths are joined with dots, below any prefix. */
  lemma DottedExample()
    ensures Dotted("", ["user", "name"]) == "user.name" && Dotted("user", ["address", "zip"]) == "user.address.zip"
  {
    assert ["user", "name"][1..] == ["name"] && ["name"][1..] == [];
    assert ["address", "zip"][1..] == ["zip"] && ["zip"][1..] == [];
  }
}
