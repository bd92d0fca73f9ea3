/** The nested dictionaries `getSimData` returns: a single datum, or a dict from names
    (river, reach or river-station label) to deeper results. Key order is not modelled. */
module Nested {
  import opened Common

  datatype Tree<T> = Leaf(value: T) | Branch(children: map<string, Tree<T>>)

  /** The same structure with every leaf replaced by `f(leaf)`: recurse on mappings,
      apply `f` to anything else. */
  function MapLeaves<T, U>(f: T -> U, t: Tree<T>): (r: Tree<U>)
    ensures r.Leaf? <==> t.Leaf?
    ensures t.Leaf? ==> r.value == f(t.value)
    ensures t.Branch? ==> r.children.Keys == t.children.Keys
  {
    match t
    case Leaf(v) => Leaf(f(v))
    case Branch(m) => Branch(map k | k in m :: MapLeaves(f, m[k]))
  }

  /** The sub-result reached by indexing with the keys of `path` in turn
      (`t[path[0]][path[1]]...`), if every key is present. */
  function Lookup<T>(t: Tree<T>, path: seq<string>): Option<Tree<T>>
    decreases |path|
  {
    if path == [] then Some(t)
    else match t
      case Leaf(_) => None
      case Branch(m) => if path[0] in m then Lookup(m[path[0]], path[1..]) else None
  }

  /** Every path of length `d` ends at a leaf, and every shorter path at a mapping. */
  ghost predicate UniformDepth<T>(t: Tree<T>, d: nat)
  {
    match t
    case Leaf(_) => d == 0
    case Branch(m) => d > 0 && forall k :: k in m ==> UniformDepth(m[k], d - 1)
  }

  /** The result holds at least one datum. */
  ghost predicate Inhabited<T>(t: Tree<T>)
  {
    match t
    case Leaf(_) => true
    case Branch(m) => exists k :: k in m && Inhabited(m[k])
  }

  /** The mapped form of a sub-result found by `Lookup`, if there is one. */
  function MapSub<T, U>(f: T -> U, s: Option<Tree<T>>): Option<Tree<U>>
  {
    match s
    case None => None
    case Some(t) => Some(MapLeaves(f, t))
  }

  /** Mapping the leaves keeps every path: the same paths exist, they end at a leaf in one
      tree exactly when they do in the other, and the sub-result found is the mapped one. */
  lemma {:induction false} MapLeavesAt<T, U>(f: T -> U, t: Tree<T>, path: seq<string>)
    ensures Lookup(MapLeaves(f, t), path) == MapSub(f, Lookup(t, path))
    decreases |path|
  {
    if path != [] && t.Branch? && path[0] in t.children {
      MapLeavesAt(f, t.children[path[0]], path[1..]);
    }
  }

  /** `MapLeavesAt` for every path at once. */
  lemma MapLeavesEverywhere<T, U>(f: T -> U, t: Tree<T>)
    ensures forall path :: Lookup(MapLeaves(f, t), path) == MapSub(f, Lookup(t, path))
  {
    forall path
      ensures Lookup(MapLeaves(f, t), path) == MapSub(f, Lookup(t, path))
    {
      MapLeavesAt(f, t, path);
    }
  }

  /** A leaf found at any path holds `f` of the leaf at the same path of the input. */
  lemma LeafMapped<T, U>(f: T -> U, t: Tree<T>, path: seq<string>, v: T)
    requires Lookup(t, path) == Some(Leaf(v))
    ensures Lookup(MapLeaves(f, t), path) == Some(Leaf(f(v)))
  {
    MapLeavesAt(f, t, path);
  }

  /** Mapping with the identity returns a structure equal to the input. */
  lemma {:induction false} MapLeavesIdentity<T>(f: T -> T, t: Tree<T>)
    requires forall x :: f(x) == x
    ensures MapLeaves(f, t) == t
  {
    match t
    case Leaf(_) =>
    case Branch(m) =>
      forall k | k in m
        ensures MapLeaves(f, m[k]) == m[k]
      {
        MapLeavesIdentity(f, m[k]);
      }
      assert (map k | k in m :: MapLeaves(f, m[k])) == m;
  }

  /** Mapping twice is mapping once with the composition. */
  lemma {:induction false} MapLeavesCompose<T, U, V>(f: T -> U, g: U -> V, h: T -> V, t: Tree<T>)
    requires forall x :: h(x) == g(f(x))
    ensures MapLeaves(g, MapLeaves(f, t)) == MapLeaves(h, t)
  {
    match t
    case Leaf(_) =>
    case Branch(m) =>
      var mf := map k | k in m :: MapLeaves(f, m[k]);
      forall k | k in m
        ensures MapLeaves(g, mf[k]) == MapLeaves(h, m[k])
      {
        MapLeavesCompose(f, g, h, m[k]);
      }
      assert (map k | k in mf :: MapLeaves(g, mf[k])) == (map k | k in m :: MapLeaves(h, m[k]));
  }

  /** Mapping the leaves keeps the nesting depth. */
  lemma {:induction false} MapLeavesKeepsDepth<T, U>(f: T -> U, t: Tree<T>, d: nat)
    requires UniformDepth(t, d)
    ensures UniformDepth(MapLeaves(f, t), d)
  {
    match t
    case Leaf(_) =>
    case Branch(m) =>
      forall k | k in m
        ensures UniformDepth(MapLeaves(f, m[k]), d - 1)
      {
        MapLeavesKeepsDepth(f, m[k], d - 1);
      }
  }
}
