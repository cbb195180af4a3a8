/**
 * The layout wrapper's component registry: an insertion-ordered map from
 * a generated id to the component bound into a layout container. Golden
 * Layout binds a component (one entry added under a fresh id) and unbinds
 * a container (the first entry holding that container removed); each
 * render turns the entries whose type has a React component into portals.
 */
module LayoutRegistry {
  import opened Wrappers

  /** A DOM element, compared by identity as `===` does. */
  class Element {
    constructor() {}
  }

  /** The component state Golden Layout stores for an item, as key/value pairs. */
  type Props = map<string, string>

  /** `ComponentRegistryItem`. */
  datatype RegistryItem = RegistryItem(id: string, componentType: string, props: Props, container: Element)

  /** A portal: the component of `componentType` keyed by `key`, with `props`, rendered into `container`. */
  datatype Portal = Portal(key: string, componentType: string, props: Props, container: Element)

  /** No entry is stored under `id`. */
  predicate IsFreshId(xs: seq<RegistryItem>, id: string) {
    forall i | 0 <= i < |xs| :: xs[i].id != id
  }

  /** Entry `p` is the first one stored under `id`. */
  predicate IsFirstWithId(xs: seq<RegistryItem>, id: string, p: int) {
    0 <= p < |xs| && xs[p].id == id && forall j | 0 <= j < p :: xs[j].id != id
  }

  /** A `Map` holds each key once. */
  predicate DistinctIds(xs: seq<RegistryItem>) {
    forall i, j | 0 <= i < j < |xs| :: xs[i].id != xs[j].id
  }

  /** `itemConfig.componentState || {}`: absent (or falsy) state becomes the empty object. */
  function PropsOf(componentState: Option<Props>): (p: Props)
    ensures componentState.Some? ==> p == componentState.value
    ensures componentState.None? ==> p == map[]
  {
    componentState.GetOr(map[])
  }

  /**
   * `Map.prototype.set` on an ordered map: an existing key keeps its place
   * and takes the new value; a new key goes at the end.
   */
  function MapSet(xs: seq<RegistryItem>, item: RegistryItem): (r: seq<RegistryItem>)
    ensures IsFreshId(xs, item.id) ==> r == xs + [item]
    ensures forall p | IsFirstWithId(xs, item.id, p) :: r == xs[p := item]
  {
    if xs == [] then [item]
    else if xs[0].id == item.id then
      assert xs[0 := item] == [item] + xs[1..];
      [item] + xs[1..]
    else
      var r := [xs[0]] + MapSet(xs[1..], item);
      forall p | IsFirstWithId(xs, item.id, p)
        ensures IsFirstWithId(xs[1..], item.id, p - 1) && xs[p := item] == [xs[0]] + xs[1..][p - 1 := item]
      {
        IdShift(xs, item, p);
      }
      r
  }

  /** Past an entry under another id, the first entry under `item.id` is one place earlier in the rest. */
  lemma IdShift(xs: seq<RegistryItem>, item: RegistryItem, p: int)
    requires xs != [] && xs[0].id != item.id && IsFirstWithId(xs, item.id, p)
    ensures IsFirstWithId(xs[1..], item.id, p - 1) && xs[p := item] == [xs[0]] + xs[1..][p - 1 := item]
  {
    assert xs[p := item] == [xs[0]] + xs[1..][p - 1 := item];
  }

  /** The index of the first entry holding `c`, if any. */
  predicate IsFirstHolder(xs: seq<RegistryItem>, c: Element, i: int) {
    0 <= i < |xs| && xs[i].container == c && forall j | 0 <= j < i :: xs[j].container != c
  }

  /** What unbinding `c` leaves: the first entry holding `c` removed, and only that one. */
  function RemoveFirst(xs: seq<RegistryItem>, c: Element): (r: seq<RegistryItem>)
    ensures (forall i | 0 <= i < |xs| :: xs[i].container != c) ==> r == xs
    ensures forall i | IsFirstHolder(xs, c, i) :: r == xs[..i] + xs[i + 1..]
  {
    if xs == [] then []
    else if xs[0].container == c then xs[1..]
    else
      var r := [xs[0]] + RemoveFirst(xs[1..], c);
      forall i | IsFirstHolder(xs, c, i)
        ensures IsFirstHolder(xs[1..], c, i - 1) && xs[..i] + xs[i + 1..] == [xs[0]] + (xs[1..][..i - 1] + xs[1..][i..])
      {
        HolderShift(xs, c, i);
      }
      r
  }

  /** Past an entry that does not hold `c`, the first holder is one place earlier in the rest. */
  lemma HolderShift(xs: seq<RegistryItem>, c: Element, i: int)
    requires xs != [] && xs[0].container != c && IsFirstHolder(xs, c, i)
    ensures IsFirstHolder(xs[1..], c, i - 1) && xs[..i] + xs[i + 1..] == [xs[0]] + (xs[1..][..i - 1] + xs[1..][i..])
  {
    assert xs[..i] == [xs[0]] + xs[1..][..i - 1];
    assert xs[i + 1..] == xs[1..][i..];
  }

  /** The portal an entry renders as. */
  function PortalFor(x: RegistryItem): Portal {
    Portal(x.id, x.componentType, x.props, x.container)
  }

  /** The portals of a render: one per entry whose type has a component, in entry order. */
  function PortalsOf(xs: seq<RegistryItem>, known: set<string>): (ps: seq<Portal>)
    ensures |ps| <= |xs|
    ensures forall k | 0 <= k < |ps| :: ps[k].componentType in known
  {
    if xs == [] then []
    else if xs[0].componentType in known then [PortalFor(xs[0])] + PortalsOf(xs[1..], known)
    else PortalsOf(xs[1..], known)
  }

  // ---------------------------------------------------------------------
  // The wrapper's state
  // ---------------------------------------------------------------------

  class Registry {
    var entries: seq<RegistryItem>

    /** The registry's keys are distinct. */
    ghost predicate Valid()
      reads this
    {
      DistinctIds(entries)
    }

    constructor()
      ensures entries == [] && Valid()
    {
      entries := [];
    }

    /**
     * The bind callback: the entry for `container` goes under `id` (the
     * `crypto.randomUUID()` value) with the item's type and its props; the
     * props are also what the container's state request returns.
     */
    method Bind(container: Element, componentType: string, componentState: Option<Props>, id: string)
      returns (props: Props)
      requires Valid()
      modifies this
      ensures Valid()
      ensures props == PropsOf(componentState)
      ensures entries == MapSet(old(entries), RegistryItem(id, componentType, props, container))
    {
      props := PropsOf(componentState);
      var next := entries;
      next := MapSet(next, RegistryItem(id, componentType, props, container));
      MapSetKeepsDistinct(entries, RegistryItem(id, componentType, props, container));
      entries := next;
    }

    /** The unbind callback: walk the entries in order and delete the first one holding `container`. */
    method Unbind(container: Element)
      requires Valid()
      modifies this
      ensures Valid()
      ensures entries == RemoveFirst(old(entries), container)
    {
      var next := entries;
      var i := 0;
      while i < |next|
        invariant 0 <= i <= |next| && next == entries
        invariant forall j | 0 <= j < i :: next[j].container != container
      {
        if next[i].container == container {
          assert IsFirstHolder(next, container, i);
          next := next[..i] + next[i + 1..];
          break;
        }
        i := i + 1;
      }
      RemoveFirstKeepsDistinct(entries, container);
      entries := next;
    }

    /** The render: a portal for each entry whose type is among `known`, the keys of `components`. */
    method Portals(known: set<string>) returns (portals: seq<Portal>)
      ensures portals == PortalsOf(entries, known)
    {
      portals := [];
      var i := 0;
      while i < |entries|
        invariant 0 <= i <= |entries|
        invariant PortalsOf(entries, known) == portals + PortalsOf(entries[i..], known)
      {
        assert entries[i..][0] == entries[i] && entries[i..][1..] == entries[i + 1..];
        var item := entries[i];
        if item.componentType in known {
          portals := portals + [PortalFor(item)];
        }
        i := i + 1;
      }
    }
  }

  // ---------------------------------------------------------------------
  // Properties
  // ---------------------------------------------------------------------

  /** Setting a key keeps the keys distinct. */
  lemma MapSetKeepsDistinct(xs: seq<RegistryItem>, item: RegistryItem)
    requires DistinctIds(xs)
    ensures DistinctIds(MapSet(xs, item))
  {
    if p :| 0 <= p < |xs| && xs[p].id == item.id {
      assert IsFirstWithId(xs, item.id, p);
      var r := xs[p := item];
      assert MapSet(xs, item) == r;
      forall i, j | 0 <= i < j < |r| ensures r[i].id != r[j].id {
        assert r[i].id == xs[i].id && r[j].id == xs[j].id;
      }
    } else {
      assert IsFreshId(xs, item.id);
      var r := xs + [item];
      forall i, j | 0 <= i < j < |r| ensures r[i].id != r[j].id {
        assert r[i] == xs[i];
      }
    }
  }

  /** Removing an entry keeps the keys distinct. */
  lemma RemoveFirstKeepsDistinct(xs: seq<RegistryItem>, c: Element)
    requires DistinctIds(xs)
    ensures DistinctIds(RemoveFirst(xs, c))
  {
    if i :| IsFirstHolder(xs, c, i) {
      assert RemoveFirst(xs, c) == xs[..i] + xs[i + 1..];
      RemoveAtKeepsDistinct(xs, i);
    } else {
      assert forall i | 0 <= i < |xs| :: xs[i].container != c by {
        forall i | 0 <= i < |xs| ensures xs[i].container != c {
          if xs[i].container == c {
            FirstHolderExists(xs, c, i);
          }
        }
      }
    }
  }

  /** Deleting the entry at `i` keeps the keys distinct. */
  lemma RemoveAtKeepsDistinct(xs: seq<RegistryItem>, i: int)
    requires DistinctIds(xs) && 0 <= i < |xs|
    ensures DistinctIds(xs[..i] + xs[i + 1..])
  {
    var r := xs[..i] + xs[i + 1..];
    forall a, b | 0 <= a < b < |r| ensures r[a].id != r[b].id {
      var a' := if a < i then a else a + 1;
      var b' := if b < i then b else b + 1;
      assert r[a] == xs[a'] && r[b] == xs[b'];
    }
  }

  /** When some entry holds `c`, a first one does. */
  lemma {:induction false} FirstHolderExists(xs: seq<RegistryItem>, c: Element, k: int)
    requires 0 <= k < |xs| && xs[k].container == c
    ensures exists i :: IsFirstHolder(xs, c, i)
  {
    if !IsFirstHolder(xs, c, k) {
      var j :| 0 <= j < k && xs[j].container == c;
      FirstHolderExists(xs, c, j);
    }
  }

  /** A bind under a fresh id appends one entry and keeps every existing entry as it was. */
  lemma BindFreshAppends(xs: seq<RegistryItem>, item: RegistryItem)
    requires IsFreshId(xs, item.id)
    ensures |MapSet(xs, item)| == |xs| + 1
    ensures MapSet(xs, item)[..|xs|] == xs && MapSet(xs, item)[|xs|] == item
  {
    assert (xs + [item])[..|xs|] == xs;
  }

  /** Unbinding a container nobody holds leaves the registry as it was. */
  lemma UnbindUnknown(xs: seq<RegistryItem>, c: Element)
    requires forall i | 0 <= i < |xs| :: xs[i].container != c
    ensures RemoveFirst(xs, c) == xs
  {
  }

  /** Unbinding a held container removes exactly one entry. */
  lemma UnbindRemovesOne(xs: seq<RegistryItem>, c: Element, k: int)
    requires 0 <= k < |xs| && xs[k].container == c
    ensures |RemoveFirst(xs, c)| == |xs| - 1
  {
    FirstHolderExists(xs, c, k);
    var i :| IsFirstHolder(xs, c, i);
  }

  /** Binding a new container under a fresh id and then unbinding it restores the registry. */
  lemma BindThenUnbind(xs: seq<RegistryItem>, item: RegistryItem)
    requires IsFreshId(xs, item.id)
    requires forall i | 0 <= i < |xs| :: xs[i].container != item.container
    ensures RemoveFirst(MapSet(xs, item), item.container) == xs
  {
    var ys := xs + [item];
    assert IsFirstHolder(ys, item.container, |xs|);
    assert ys[..|xs|] + ys[|xs| + 1..] == xs;
  }

  /** Portals split over the entries: the render keeps entry order. */
  lemma {:induction false} PortalsAppend(xs: seq<RegistryItem>, ys: seq<RegistryItem>, known: set<string>)
    ensures PortalsOf(xs + ys, known) == PortalsOf(xs, known) + PortalsOf(ys, known)
  {
    if xs != [] {
      assert (xs + ys)[0] == xs[0] && (xs + ys)[1..] == xs[1..] + ys;
      PortalsAppend(xs[1..], ys, known);
      var head := if xs[0].componentType in known then [PortalFor(xs[0])] else [];
      assert PortalsOf(xs + ys, known) == head + PortalsOf(xs[1..] + ys, known);
      assert PortalsOf(xs, known) == head + PortalsOf(xs[1..], known);
      assert head + (PortalsOf(xs[1..], known) + PortalsOf(ys, known)) == (head + PortalsOf(xs[1..], known)) + PortalsOf(ys, known);
    } else {
      assert xs + ys == ys;
    }
  }

  /** Each entry with a known type yields its portal; an entry with an unknown type none. */
  lemma PortalsOfOne(x: RegistryItem, known: set<string>)
    ensures x.componentType in known ==> PortalsOf([x], known) == [Portal(x.id, x.componentType, x.props, x.container)]
    ensures x.componentType !in known ==> PortalsOf([x], known) == []
  {
    assert [x][1..] == [];
  }

  /** Every portal comes from a known-type entry, and every known-type entry has its portal. */
  lemma {:induction false} PortalsMembership(xs: seq<RegistryItem>, known: set<string>)
    ensures forall p | p in PortalsOf(xs, known) :: exists i | 0 <= i < |xs| :: xs[i].componentType in known && p == PortalFor(xs[i])
    ensures forall i | 0 <= i < |xs| && xs[i].componentType in known :: PortalFor(xs[i]) in PortalsOf(xs, known)
  {
    if xs != [] {
      PortalsMembership(xs[1..], known);
      var rest := PortalsOf(xs[1..], known);
      assert forall i | 1 <= i < |xs| :: xs[i] == xs[1..][i - 1];
      forall p | p in PortalsOf(xs, known)
        ensures exists i | 0 <= i < |xs| :: xs[i].componentType in known && p == PortalFor(xs[i])
      {
        if xs[0].componentType in known && p == PortalFor(xs[0]) {
          assert xs[0].componentType in known && p == PortalFor(xs[0]);
        } else {
          assert p in rest;
          var i :| 0 <= i < |xs[1..]| && xs[1..][i].componentType in known && p == PortalFor(xs[1..][i]);
          assert xs[i + 1].componentType in known && p == PortalFor(xs[i + 1]);
        }
      }
    }
  }
}
