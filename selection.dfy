/** The widget's two pieces of user-edited state: the set of selected product
    identifiers and the map of per-product quantities.

    The selection is a JavaScript `Set`, which iterates in insertion order; it
    is modelled as a sequence without duplicates, where `add` appends and
    `delete` removes one element and keeps the order of the others. */
module Selection {
  import opened Products

  /** The identifier the toggle handler refuses to deselect: the literal 1,
      whatever the main product's identifier is. */
  const LockedId: int := 1

  const MinQuantity: int := 1
  const MaxQuantity: int := 10

  predicate NoDuplicates(s: seq<int>) {
    forall i, j :: 0 <= i < j < |s| ==> s[i] != s[j]
  }

  /** The set a selection sequence stands for. */
  function Members(s: seq<int>): set<int> {
    set x | x in s
  }

  /** `Set.prototype.delete`: `s` without `x`, the other elements in their order. */
  function Without(s: seq<int>, x: int): (r: seq<int>)
    ensures forall y :: y in r <==> y in s && y != x
    ensures NoDuplicates(s) ==> NoDuplicates(r)
    ensures x !in s ==> r == s
    ensures |r| <= |s|
  {
    if s == [] then []
    else if s[0] == x then Without(s[1..], x)
    else
      assert s[0] !in s[1..] || !NoDuplicates(s);
      [s[0]] + Without(s[1..], x)
  }

  /** `delete` keeps the order of the remaining elements: removing the
      element at position `k` of a duplicate-free sequence leaves what comes
      before it followed by what comes after it. */
  lemma {:induction false} WithoutKeepsOrder(s: seq<int>, k: nat)
    requires NoDuplicates(s)
    requires k < |s|
    ensures Without(s, s[k]) == s[..k] + s[k + 1..]
  {
    var rest := s[1..];
    assert NoDuplicates(rest) by {
      forall i, j | 0 <= i < j < |rest| ensures rest[i] != rest[j] {
        assert rest[i] == s[i + 1] && rest[j] == s[j + 1];
      }
    }
    if k == 0 {
      assert s[0] !in rest by {
        forall i | 0 <= i < |rest| ensures rest[i] != s[0] {
          assert rest[i] == s[i + 1];
        }
      }
    } else {
      assert rest[k - 1] == s[k];
      assert s[0] != s[k];
      WithoutKeepsOrder(rest, k - 1);
      assert s[..k] == [s[0]] + rest[..k - 1];
      assert s[k + 1..] == rest[k..];
    }
  }

  /** Deleting an element that was just added at the end gives back the sequence it was added to. */
  lemma {:induction false} WithoutAppended(s: seq<int>, x: int)
    requires x !in s
    ensures Without(s + [x], x) == s
  {
    if s != [] {
      assert (s + [x])[1..] == s[1..] + [x];
      WithoutAppended(s[1..], x);
    }
  }

  /** `handleProductToggle`: nothing happens for the locked identifier while
      `autoSelectMain` is set; otherwise a selected identifier is deleted and an
      unselected one is added. The identifier need not belong to the bundle. */
  function ToggledSelection(sel: seq<int>, id: int, autoSelectMain: bool): (r: seq<int>)
    ensures id == LockedId && autoSelectMain ==> r == sel
    ensures !(id == LockedId && autoSelectMain) ==>
      (id in r <==> id !in sel) && forall x :: x != id ==> (x in r <==> x in sel)
    ensures NoDuplicates(sel) ==> NoDuplicates(r)
  {
    if id == LockedId && autoSelectMain then sel
    else if id in sel then Without(sel, id)
    else sel + [id]
  }

  /** Toggling an unlocked identifier twice gives back the same selection set;
      when the identifier was not selected it gives back the very same sequence
      (when it was, it comes back at the end, as a JavaScript `Set` re-adds it). */
  lemma {:induction false} ToggleTwiceRestores(sel: seq<int>, id: int, autoSelectMain: bool)
    requires NoDuplicates(sel)
    requires !(id == LockedId && autoSelectMain)
    ensures Members(ToggledSelection(ToggledSelection(sel, id, autoSelectMain), id, autoSelectMain)) == Members(sel)
    ensures id !in sel ==> ToggledSelection(ToggledSelection(sel, id, autoSelectMain), id, autoSelectMain) == sel
  {
    var once := ToggledSelection(sel, id, autoSelectMain);
    var twice := ToggledSelection(once, id, autoSelectMain);
    if id !in sel {
      WithoutAppended(sel, id);
    } else {
      assert twice == Without(sel, id) + [id];
    }
  }

  /** The selection after the toggles `ids`, applied in order. */
  function ToggleAll(sel: seq<int>, ids: seq<int>, autoSelectMain: bool): seq<int>
    decreases |ids|
  {
    if ids == [] then sel
    else ToggleAll(ToggledSelection(sel, ids[0], autoSelectMain), ids[1..], autoSelectMain)
  }

  /** While `autoSelectMain` is set, no toggle (of any identifier) can remove
      the locked identifier from a selection that holds it. */
  lemma {:induction false} LockedIdStaysSelected(sel: seq<int>, ids: seq<int>)
    requires LockedId in sel
    ensures LockedId in ToggleAll(sel, ids, true)
    decreases |ids|
  {
    if ids != [] {
      LockedIdStaysSelected(ToggledSelection(sel, ids[0], true), ids[1..]);
    }
  }

  /** Every stored quantity lies in [1, 10]. */
  predicate QuantitiesInRange(q: map<int, int>) {
    forall id :: id in q ==> MinQuantity <= q[id] <= MaxQuantity
  }

  /** `handleQuantityChange`: a quantity outside [1, 10] is ignored; one inside
      is stored for `id`, whether or not `id` belongs to the bundle. */
  function QuantityUpdated(q: map<int, int>, id: int, n: int): (r: map<int, int>)
    ensures (n < MinQuantity || n > MaxQuantity) ==> r == q
    ensures MinQuantity <= n <= MaxQuantity ==>
      r.Keys == q.Keys + {id} && r[id] == n &&
      forall k :: k in q && k != id ==> r[k] == q[k]
    ensures QuantitiesInRange(q) ==> QuantitiesInRange(r)
  {
    if n < MinQuantity || n > MaxQuantity then q else q[id := n]
  }

  /** `quantities.get(id) || 1`: the stored quantity, or 1 when none is stored
      (or when the stored value is the falsy 0). */
  function Qty(q: map<int, int>, id: int): (r: int)
    ensures id in q && q[id] != 0 ==> r == q[id]
    ensures id !in q ==> r == 1
    ensures id in q && q[id] == 0 ==> r == 1
    ensures QuantitiesInRange(q) ==> MinQuantity <= r <= MaxQuantity
  {
    if id in q && q[id] != 0 then q[id] else 1
  }

  /** The mount effect: a fresh map with quantity 1 for every product of the bundle. */
  method InitialQuantities(ps: seq<Product>) returns (m: map<int, int>)
    ensures m.Keys == IdsOf(ps)
    ensures forall id :: id in m ==> m[id] == 1
  {
    m := map[];
    var i := 0;
    while i < |ps|
      invariant 0 <= i <= |ps|
      invariant m.Keys == IdsOf(ps[..i])
      invariant forall id :: id in m ==> m[id] == 1
    {
      assert ps[..i + 1] == ps[..i] + [ps[i]];
      m := m[ps[i].id := 1];
      i := i + 1;
    }
    assert ps[..i] == ps;
  }
}
