/**
 * Widget and window identifiers of the accessibility tree: the `Internal`
 * representation, its two equalities, the conversions to and from accessibility
 * node ids, and the process-wide counters.
 */
module AccessibilityId {
  import opened Wrappers
  import opened Numeric

  /** `Internal`: a numbered id, a numbered and named id, or a set of ids. */
  datatype Internal = Unique(n: u64) | Custom(n: u64, name: string) | Set(members: seq<Internal>)

  /** A widget `Id` wraps one `Internal`. */
  datatype Id = Id(inner: Internal)

  /** An accessibility id names either a window node or a widget. */
  datatype A11yId = Window(node: u64) | Widget(id: Id)

  /**
   * `PartialEq for Internal`: `Unique` by number, `Custom` by name only, `Set`
   * element-wise (as vectors compare), and never across variants.
   */
  predicate Same(a: Internal, b: Internal)
    ensures Same(a, b) ==> a.Unique? == b.Unique? && a.Custom? == b.Custom? && a.Set? == b.Set?
    ensures a.Custom? && b.Custom? && a.name == b.name ==> Same(a, b)
    decreases a
  {
    match a
    case Unique(l) => b.Unique? && l == b.n
    case Custom(_, l) => b.Custom? && l == b.name
    case Set(l) =>
      b.Set? && |l| == |b.members| &&
      forall i :: 0 <= i < |l| ==> Same(l[i], b.members[i])
  }

  /** `Iterator::any(|l| l == other)` over the members of a set id. */
  predicate AnySame(members: seq<Internal>, other: Internal)
  {
    exists i :: 0 <= i < |members| && Same(members[i], other)
  }

  /**
   * `IdEq for Internal`: like `Same`, but a `Custom` matches by number or by
   * name, a `Unique` and a `Custom` match by number, and a set matches any
   * non-set id equal to one of its members.
   */
  predicate IdEq(a: Internal, b: Internal)
    ensures !a.Set? && !b.Set? && a.n == b.n ==> IdEq(a, b)
    ensures a.Custom? && b.Custom? && a.name == b.name ==> IdEq(a, b)
    ensures a.Unique? && b.Unique? ==> (IdEq(a, b) <==> a == b)
    ensures a.Custom? && b.Custom? ==> (IdEq(a, b) <==> a.n == b.n || a.name == b.name)
    ensures a.Unique? && b.Custom? ==> (IdEq(a, b) <==> a.n == b.n)
    ensures a.Custom? && b.Unique? ==> (IdEq(a, b) <==> a.n == b.n)
  {
    match (a, b)
    case (Unique(l), Unique(r)) => l == r
    case (Custom(l0, l1), Custom(r0, r1)) => l0 == r0 || l1 == r1
    case (Unique(l), Custom(r, _)) => l == r
    case (Custom(l, _), Unique(r)) => l == r
    case (Set(l), Set(r)) => |l| == |r| && forall i :: 0 <= i < |l| ==> Same(l[i], r[i])
    case (Set(l), _) => AnySame(l, b)
    case (_, Set(l)) => AnySame(l, a)
  }

  /** `IdEq for A11yId`: widgets compare with `IdEq`, everything else structurally. */
  predicate A11yIdEq(a: A11yId, b: A11yId)
  {
    match (a, b)
    case (Widget(x), Widget(y)) => IdEq(x.inner, y.inner)
    case (Window(x), Window(y)) => x == y
    case _ => false
  }

  /** `From<u64> for Id`. */
  function IdFromU64(v: u64): (r: Id)
    ensures r == Id(Unique(v))
    ensures IdToU64(r) == v
  {
    Id(Unique(v))
  }

  /** `From<Id> for u64`; a set id has no number and the conversion panics. */
  function IdToU64(id: Id): (r: u64)
    requires !id.inner.Set?
    ensures IdEq(Unique(r), id.inner) && IdEq(id.inner, Unique(r))
  {
    id.inner.n
  }

  /** `From<u64> for A11yId`. */
  function A11yFromU64(v: u64): (r: A11yId)
    ensures r.Window? && r.node == v
  {
    Window(v)
  }

  /** `From<Id> for A11yId`; asserts that the id is not a set. */
  function A11yFromId(id: Id): (r: A11yId)
    requires !id.inner.Set?
    ensures r.Widget? && r.id == id
  {
    Widget(id)
  }

  /** `From<NodeId> for A11yId`: values above `u32::MAX` are window nodes. */
  function FromNodeId(v: u64): (r: A11yId)
    ensures r.Window? <==> v > U32_MAX
    ensures r.Window? ==> r.node == v
    ensures r.Widget? ==> r.id == Id(Unique(v))
  {
    if v > U32_MAX then Window(v) else Widget(IdFromU64(v))
  }

  /** An accessibility id that can be turned into a node id (no set inside). */
  predicate Convertible(a: A11yId)
  {
    a.Widget? ==> !a.id.inner.Set?
  }

  /** `From<A11yId> for NodeId`. */
  function ToNodeId(a: A11yId): (r: u64)
    requires Convertible(a)
    ensures a.Window? && a.node > U32_MAX ==> FromNodeId(r) == a
    ensures a.Widget? && r <= U32_MAX ==> A11yIdEq(FromNodeId(r), a)
    ensures a.Widget? && a.id.inner.Custom? && r <= U32_MAX ==> FromNodeId(r) != a
  {
    match a
    case Window(v) => v
    case Widget(id) => IdToU64(id)
  }

  /** A node id survives the trip through `A11yId` unchanged. */
  lemma NodeIdRoundTrip(v: u64)
    ensures Convertible(FromNodeId(v))
    ensures ToNodeId(FromNodeId(v)) == v
  {
  }

  /**
   * `A11yId -> NodeId -> A11yId` is the identity on window nodes above
   * `u32::MAX` and on unique widgets at or below it.
   */
  lemma A11yIdRoundTrip(a: A11yId)
    requires (a.Window? && a.node > U32_MAX) || (a.Widget? && a.id.inner.Unique? && a.id.inner.n <= U32_MAX)
    ensures Convertible(a) && FromNodeId(ToNodeId(a)) == a
  {
  }

  /** A custom widget loses its name on the round trip and comes back as a unique id. */
  lemma CustomLosesName(n: u64, name: string)
    requires n <= U32_MAX
    ensures FromNodeId(ToNodeId(Widget(Id(Custom(n, name))))) == Widget(Id(Unique(n)))
  {
  }

  /** `PartialEq` is reflexive. */
  lemma {:induction false} SameReflexive(a: Internal)
    ensures Same(a, a)
    decreases a
  {
    if a.Set? {
      forall i | 0 <= i < |a.members|
        ensures Same(a.members[i], a.members[i])
      {
        SameReflexive(a.members[i]);
      }
    }
  }

  /** `PartialEq` is symmetric. */
  lemma {:induction false} SameSymmetric(a: Internal, b: Internal)
    requires Same(a, b)
    ensures Same(b, a)
    decreases a
  {
    if a.Set? {
      forall i | 0 <= i < |b.members|
        ensures Same(b.members[i], a.members[i])
      {
        SameSymmetric(a.members[i], b.members[i]);
      }
    }
  }

  /** Whatever `PartialEq` calls equal, `IdEq` calls equal too. */
  lemma SameImpliesIdEq(a: Internal, b: Internal)
    requires Same(a, b)
    ensures IdEq(a, b)
  {
  }

  /** `IdEq` is symmetric. */
  lemma IdEqSymmetric(a: Internal, b: Internal)
    requires IdEq(a, b)
    ensures IdEq(b, a)
  {
    match (a, b)
    case (Set(l), Set(r)) =>
      forall i | 0 <= i < |r|
        ensures Same(r[i], l[i])
      {
        SameSymmetric(l[i], r[i]);
      }
    case _ =>
  }

  /** A set id is `IdEq` to each of its non-set members, from either side. */
  lemma SetMatchesMembers(l: seq<Internal>, i: nat)
    requires i < |l| && !l[i].Set?
    ensures IdEq(Set(l), l[i]) && IdEq(l[i], Set(l))
  {
    SameReflexive(l[i]);
  }

  /**
   * `IdEq` is not transitive: a custom id bridges two ids that share neither
   * number nor name.
   */
  lemma IdEqNotTransitive()
    ensures IdEq(Custom(1, "a"), Custom(1, "b"))
    ensures IdEq(Custom(1, "b"), Custom(2, "b"))
    ensures !IdEq(Custom(1, "a"), Custom(2, "b"))
  {
  }

  /**
   * What `Hash for Internal` feeds to the hasher: a number, a string, or a
   * length-prefixed list of member hashes (as `Vec` hashes).
   */
  datatype HashInput = Word(v: u64) | Text(s: string) | Items(items: seq<HashInput>)

  /** `Hash for Internal` as written: a `Custom` id hashes its number. */
  function HashOf(a: Internal): (r: HashInput)
    ensures a.Custom? ==> r == Word(a.n)
    ensures !r.Text?
    ensures a.Set? ==> r.Items? && |r.items| == |a.members|
    decreases a
  {
    match a
    case Unique(n) => Word(n)
    case Custom(n, _) => Word(n)
    case Set(l) => Items(seq(|l|, i requires 0 <= i < |l| => HashOf(l[i])))
  }

  /**
   * As written, two ids that `PartialEq` calls equal can feed different values
   * to the hasher, which breaks the `Hash`/`Eq` agreement hash maps rely on.
   */
  lemma HashDisagreesWithEq()
    ensures Same(Custom(1, "a"), Custom(2, "a"))
    ensures HashOf(Custom(1, "a")) != HashOf(Custom(2, "a"))
  {
  }

  /** `Hash for Internal` hashing what `PartialEq` compares: a `Custom` id hashes its name. */
  function HashKey(a: Internal): HashInput
    decreases a
  {
    match a
    case Unique(n) => Word(n)
    case Custom(_, name) => Text(name)
    case Set(l) => Items(seq(|l|, i requires 0 <= i < |l| => HashKey(l[i])))
  }

  /** With `HashKey`, equal ids always feed equal values to the hasher. */
  lemma {:induction false} HashKeyAgreesWithEq(a: Internal, b: Internal)
    requires Same(a, b)
    ensures HashKey(a) == HashKey(b)
    decreases a
  {
    if a.Set? {
      var l, r := a.members, b.members;
      forall i | 0 <= i < |l|
        ensures HashKey(l[i]) == HashKey(r[i])
      {
        HashKeyAgreesWithEq(l[i], r[i]);
      }
      assert HashKey(a).items == HashKey(b).items;
    }
  }

  /** The process-wide counters `NEXT_ID` and `NEXT_WINDOW_ID`. */
  class IdCounters {
    var nextId: u64
    var nextWindowId: u64

    constructor ()
      ensures nextId == 1 && nextWindowId == 1
    {
      nextId := 1;
      nextWindowId := 1;
    }

    /** `Id::next`: a `fetch_add(1)` on the widget counter. */
    method Next() returns (n: u64)
      modifies this
      ensures n == old(nextId)
      ensures nextId == WrappingInc64(n)
      ensures nextWindowId == old(nextWindowId)
    {
      n := nextId;
      nextId := WrappingInc64(nextId);
    }

    /** `Id::reset`: the widget counter starts over at 1. */
    method Reset()
      modifies this
      ensures nextId == 1
      ensures nextWindowId == old(nextWindowId)
    {
      nextId := 1;
    }

    /** `Id::unique`: a fresh unique id carrying the counter's value. */
    method Unique() returns (id: Id)
      modifies this
      ensures id == Id(Internal.Unique(old(nextId)))
      ensures nextId == WrappingInc64(old(nextId))
      ensures nextWindowId == old(nextWindowId)
    {
      var n := Next();
      id := Id(Internal.Unique(n));
    }

    /** `Id::new(name)`: a custom id carrying the counter's value and the name. */
    method New(name: string) returns (id: Id)
      modifies this
      ensures id == Id(Custom(old(nextId), name))
      ensures nextId == WrappingInc64(old(nextId))
      ensures nextWindowId == old(nextWindowId)
    {
      var n := Next();
      id := Id(Custom(n, name));
    }

    /**
     * `window_node_id`: `u32::MAX` plus a wrapping `fetch_add(1)` on the window
     * counter. Once the counter passes `u64::MAX - u32::MAX` the addition
     * overflows, which panics; that outcome is `None`.
     */
    method WindowNodeId() returns (v: Option<u64>)
      modifies this
      ensures old(nextWindowId) <= U64_MAX - U32_MAX ==> v == Some(U32_MAX + old(nextWindowId))
      ensures old(nextWindowId) > U64_MAX - U32_MAX ==> v.None?
      ensures 1 <= old(nextWindowId) && v.Some? ==> v.value > U32_MAX
      ensures nextWindowId == WrappingInc64(old(nextWindowId))
      ensures nextId == old(nextId)
    {
      var n := nextWindowId;
      nextWindowId := WrappingInc64(nextWindowId);
      if n <= U64_MAX - U32_MAX {
        v := Some(U32_MAX + n);
      } else {
        v := None;
      }
    }
  }

  /** Two successive `Id::unique()` calls give different ids, as the file's test asserts. */
  lemma SuccessiveUniqueDiffer(n: u64)
    ensures !Same(Unique(n), Unique(WrappingInc64(n)))
  {
  }

  /** A window node id never equals the node id of a unique widget within `u32` range. */
  lemma WindowAndWidgetNodesDisjoint(counter: u64, widget: u64)
    requires 1 <= counter <= U64_MAX - U32_MAX
    requires widget <= U32_MAX
    ensures ToNodeId(Widget(IdFromU64(widget))) != U32_MAX + counter
    ensures FromNodeId(U32_MAX + counter).Window?
  {
  }
}
