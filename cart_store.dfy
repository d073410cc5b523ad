/** The cart store's contents and the pure rules behind each cart operation.
    A cart is an ordered list of lines; each line is a copy of a catalog product
    together with a quantity. */
module CartStore {
  import opened Catalog

  /** A cart line: the product's fields copied at add time, plus `qty`. */
  datatype Line = Line(id: int, name: string, price: nat, image: string, qty: int)

  /** The line that adding product `p` for the first time appends. */
  function NewLine(p: Product): Line {
    Line(p.id, p.name, p.price, p.image, 1)
  }

  /** A line is a catalog product's copy with a positive quantity. */
  predicate LineOk(l: Line) {
    l.qty >= 1 && Find(l.id).Some? && l == NewLine(Find(l.id).value).(qty := l.qty)
  }

  /** At most one line per product id. */
  predicate UniqueIds(s: seq<Line>) {
    forall i, j :: 0 <= i < j < |s| ==> s[i].id != s[j].id
  }

  /** The store's invariant: one line per id, every line present has qty >= 1,
      and every line copies its catalog product. */
  predicate WellFormed(s: seq<Line>) {
    UniqueIds(s) && forall l :: l in s ==> LineOk(l)
  }

  // ---------------------------------------------------------------------------
  // Lookup

  /** Index of the first line with id `id`, as the cart's `find` scans it. */
  function IndexOf(s: seq<Line>, id: int): (r: Option<nat>)
    ensures r.Some? ==> r.value < |s| && s[r.value].id == id
    ensures r.Some? ==> forall j :: 0 <= j < r.value ==> s[j].id != id
    ensures r.None? <==> forall j :: 0 <= j < |s| ==> s[j].id != id
  {
    if s == [] then None
    else if s[0].id == id then Some(0)
    else match IndexOf(s[1..], id)
      case Some(k) => Some(k + 1)
      case None => None
  }

  /** In a cart with unique ids, the line found for `s[i].id` is line `i`. */
  lemma IndexOfUnique(s: seq<Line>, i: nat)
    requires UniqueIds(s) && i < |s|
    ensures IndexOf(s, s[i].id) == Some(i)
  {
  }

  // ---------------------------------------------------------------------------
  // Reductions

  /** Left fold of `f` over the lines, as `reduce` with initial value 0 sums them. */
  function Sum(s: seq<Line>, f: Line -> int): int {
    if s == [] then 0 else Sum(s[..|s| - 1], f) + f(s[|s| - 1])
  }

  function Qty(l: Line): int { l.qty }

  function Subtotal(l: Line): int { l.price * l.qty }

  /** The badge count: the sum of the quantities. */
  function Count(s: seq<Line>): int { Sum(s, Qty) }

  /** The cart total in cents: the sum of price times quantity. */
  function Total(s: seq<Line>): int { Sum(s, Subtotal) }

  /** How many units of product `id` the cart holds, over every line with that id. */
  function QtyOf(s: seq<Line>, id: int): int {
    Sum(s, QtyFor(id))
  }

  /** A line's units of product `id`. */
  function QtyFor(id: int): Line -> int {
    (l: Line) => if l.id == id then l.qty else 0
  }

  lemma {:induction false} SumAppend(a: seq<Line>, b: seq<Line>, f: Line -> int)
    ensures Sum(a + b, f) == Sum(a, f) + Sum(b, f)
  {
    if b == [] {
      assert a + b == a;
    } else {
      SumAppend(a, b[..|b| - 1], f);
      assert (a + b)[..|a + b| - 1] == a + b[..|b| - 1];
    }
  }

  lemma SumSingle(l: Line, f: Line -> int)
    ensures Sum([l], f) == f(l)
  {
    assert [l][..0] == [];
  }

  /** Replacing line `i` changes a sum by exactly that line's difference. */
  lemma SumUpdate(s: seq<Line>, i: nat, l: Line, f: Line -> int)
    requires i < |s|
    ensures Sum(s[i := l], f) == Sum(s, f) - f(s[i]) + f(l)
  {
    var before, after := s[..i], s[i + 1..];
    calc {
      Sum(s[i := l], f);
      { assert s[i := l] == (before + [l]) + after; }
      Sum((before + [l]) + after, f);
      { SumAppend(before + [l], after, f); SumAppend(before, [l], f); SumSingle(l, f); }
      Sum(before, f) + f(l) + Sum(after, f);
      { SumRemove(s, i, f); SumAppend(before, after, f); }
      Sum(s, f) - f(s[i]) + f(l);
    }
  }

  /** Removing line `i` drops exactly that line's contribution. */
  lemma SumRemove(s: seq<Line>, i: nat, f: Line -> int)
    requires i < |s|
    ensures Sum(s[..i] + s[i + 1..], f) == Sum(s, f) - f(s[i])
  {
    var before, after := s[..i], s[i + 1..];
    calc {
      Sum(s, f);
      {
        assert before + [s[i]] == s[..i + 1];
        assert s[..i + 1] + after == s;
      }
      Sum((before + [s[i]]) + after, f);
      { SumAppend(before + [s[i]], after, f); }
      Sum(before + [s[i]], f) + Sum(after, f);
      { SumAppend(before, [s[i]], f); SumSingle(s[i], f); }
      Sum(before, f) + f(s[i]) + Sum(after, f);
      { SumAppend(before, after, f); }
      Sum(before + after, f) + f(s[i]);
    }
  }

  /** With every qty >= 1 the count is at least the number of lines, and the
      total is never negative. */
  lemma {:induction false} CountAndTotalBounds(s: seq<Line>)
    requires forall l :: l in s ==> l.qty >= 1
    ensures Count(s) >= |s| && Total(s) >= 0
    ensures Count(s) == 0 <==> s == []
  {
    if s != [] {
      var init := s[..|s| - 1];
      assert forall l :: l in init ==> l in s;
      CountAndTotalBounds(init);
      assert s[|s| - 1] in s;
    }
  }

  /** Over a cart with unique ids, the units of product `id` are the qty of its one line, or 0. */
  lemma {:induction false} QtyOfUnique(s: seq<Line>, id: int)
    requires UniqueIds(s)
    ensures IndexOf(s, id).None? ==> QtyOf(s, id) == 0
    ensures IndexOf(s, id).Some? ==> QtyOf(s, id) == s[IndexOf(s, id).value].qty
  {
    if s != [] {
      var init := s[..|s| - 1];
      QtyOfUnique(init, id);
      if s[|s| - 1].id == id {
        IndexOfUnique(s, |s| - 1);
      }
    }
  }

  // ---------------------------------------------------------------------------
  // Remove

  /** The lines whose id is not `id`, in their original order (the cart's `filter`). */
  function FilterOut(s: seq<Line>, id: int): (r: seq<Line>)
    ensures forall k :: 0 <= k < |r| ==> r[k].id != id
    ensures |r| <= |s|
  {
    if s == [] then []
    else (if s[0].id == id then [] else [s[0]]) + FilterOut(s[1..], id)
  }

  /** Filtering distributes over concatenation, so relative order is kept. */
  lemma {:induction false} FilterAppend(a: seq<Line>, b: seq<Line>, id: int)
    ensures FilterOut(a + b, id) == FilterOut(a, id) + FilterOut(b, id)
  {
    if a == [] {
      assert a + b == b;
    } else {
      assert (a + b)[1..] == a[1..] + b;
      FilterAppend(a[1..], b, id);
    }
  }

  /** The lines kept are exactly the lines with another id. */
  lemma {:induction false} FilterKeeps(s: seq<Line>, id: int)
    ensures forall l :: l in FilterOut(s, id) <==> l in s && l.id != id
  {
    if s != [] {
      FilterKeeps(s[1..], id);
      assert forall l :: l in s <==> l == s[0] || l in s[1..];
    }
  }

  /** Removing an absent id leaves the cart as it was. */
  lemma {:induction false} FilterAbsent(s: seq<Line>, id: int)
    requires forall k :: 0 <= k < |s| ==> s[k].id != id
    ensures FilterOut(s, id) == s
  {
    if s != [] {
      assert forall k :: 0 <= k < |s| - 1 ==> s[1..][k] == s[k + 1];
      FilterAbsent(s[1..], id);
    }
  }

  /** Removing twice is the same as removing once. */
  lemma FilterIdempotent(s: seq<Line>, id: int)
    ensures FilterOut(FilterOut(s, id), id) == FilterOut(s, id)
  {
    FilterAbsent(FilterOut(s, id), id);
  }

  /** In a cart with unique ids, removing the id on line `i` deletes exactly that line. */
  lemma {:induction false} FilterUnique(s: seq<Line>, i: nat)
    requires UniqueIds(s) && i < |s|
    ensures FilterOut(s, s[i].id) == s[..i] + s[i + 1..]
  {
    var id := s[i].id;
    if i == 0 {
      assert forall k :: 0 <= k < |s[1..]| ==> s[1..][k].id != id by {
        forall k | 0 <= k < |s[1..]| ensures s[1..][k].id != id {
          assert s[1..][k] == s[k + 1];
        }
      }
      FilterAbsent(s[1..], id);
    } else {
      assert s[1..][i - 1] == s[i];
      FilterUnique(s[1..], i - 1);
      assert s[..i] == [s[0]] + s[1..][..i - 1];
      assert s[i + 1..] == s[1..][i..];
    }
  }

  /** In a cart with unique ids, removing the id of line `i` lowers the total by
      exactly that line's subtotal. */
  lemma RemoveTotal(s: seq<Line>, i: nat)
    requires UniqueIds(s) && i < |s|
    ensures Total(FilterOut(s, s[i].id)) == Total(s) - s[i].price * s[i].qty
  {
    FilterUnique(s, i);
    SumRemove(s, i, Subtotal);
  }

  /** Removing one line of a well-formed cart keeps it well formed. */
  lemma DeletePreserves(s: seq<Line>, i: nat)
    requires WellFormed(s) && i < |s|
    ensures WellFormed(s[..i] + s[i + 1..])
  {
    var r := s[..i] + s[i + 1..];
    assert forall k :: 0 <= k < |r| ==> r[k] == s[if k < i then k else k + 1];
    forall a, b | 0 <= a < b < |r| ensures r[a].id != r[b].id {
      assert r[a] == s[if a < i then a else a + 1];
    }
    forall l | l in r ensures LineOk(l) {
      var k :| 0 <= k < |r| && r[k] == l;
      assert s[if k < i then k else k + 1] in s;
    }
  }

  /** Removing an id from a well-formed cart: no line has that id, the cart stays
      well formed, and the count drops by that product's units. */
  lemma RemoveEffect(s: seq<Line>, id: int)
    requires WellFormed(s)
    ensures WellFormed(FilterOut(s, id))
    ensures Count(FilterOut(s, id)) == Count(s) - QtyOf(s, id)
    ensures forall x :: QtyOf(FilterOut(s, id), x) == if x == id then 0 else QtyOf(s, x)
  {
    var r := FilterOut(s, id);
    QtyOfUnique(s, id);
    match IndexOf(s, id)
    case None =>
      assert forall l :: l in s ==> l.id != id;
      FilterAbsent(s, id);
      assert QtyOf(r, id) == 0;
    case Some(i) =>
      FilterUnique(s, i);
      DeletePreserves(s, i);
      SumRemove(s, i, Qty);
      forall x ensures QtyOf(r, x) == if x == id then 0 else QtyOf(s, x) {
        SumRemove(s, i, QtyFor(x));
        QtyOfUnique(r, id);
      }
  }

  // ---------------------------------------------------------------------------
  // Add

  /** Adding product `p`: one more unit on its existing line, else a new line at the end. */
  function AddLine(s: seq<Line>, p: Product): seq<Line> {
    match IndexOf(s, p.id)
    case Some(i) => s[i := s[i].(qty := s[i].qty + 1)]
    case None => s + [NewLine(p)]
  }

  /** When `p` already has line `i`, only that line's qty changes, by exactly 1. */
  lemma AddExisting(s: seq<Line>, p: Product, i: nat)
    requires UniqueIds(s) && i < |s| && s[i].id == p.id
    ensures |AddLine(s, p)| == |s|
    ensures AddLine(s, p)[i] == s[i].(qty := s[i].qty + 1)
    ensures forall j :: 0 <= j < |s| && j != i ==> AddLine(s, p)[j] == s[j]
  {
    IndexOfUnique(s, i);
  }

  /** When `p` has no line, a fresh line with qty 1 is appended after the old ones. */
  lemma AddNew(s: seq<Line>, p: Product)
    requires forall l :: l in s ==> l.id != p.id
    ensures AddLine(s, p) == s + [Line(p.id, p.name, p.price, p.image, 1)]
  {
  }

  /** Adding a catalog product keeps the cart well formed. */
  lemma AddPreserves(s: seq<Line>, p: Product)
    requires WellFormed(s) && Find(p.id) == Some(p)
    ensures WellFormed(AddLine(s, p))
  {
    var r := AddLine(s, p);
    match IndexOf(s, p.id)
    case Some(i) =>
      assert s[i] in s;
      forall l | l in r ensures LineOk(l) {
        var k :| 0 <= k < |r| && r[k] == l;
        assert k != i ==> r[k] == s[k];
      }
    case None =>
  }

  /** Adding a product raises the count by one, and adds one unit of that product
      and of no other. */
  lemma AddCount(s: seq<Line>, p: Product)
    ensures Count(AddLine(s, p)) == Count(s) + 1
    ensures forall x :: QtyOf(AddLine(s, p), x) == QtyOf(s, x) + (if x == p.id then 1 else 0)
  {
    var r := AddLine(s, p);
    match IndexOf(s, p.id)
    case Some(i) =>
      SumUpdate(s, i, r[i], Qty);
      forall x ensures QtyOf(r, x) == QtyOf(s, x) + (if x == p.id then 1 else 0) {
        SumUpdate(s, i, r[i], QtyFor(x));
      }
    case None =>
      var n := NewLine(p);
      SumAppend(s, [n], Qty);
      SumSingle(n, Qty);
      forall x ensures QtyOf(r, x) == QtyOf(s, x) + (if x == p.id then 1 else 0) {
        SumAppend(s, [n], QtyFor(x));
        SumSingle(n, QtyFor(x));
      }
  }

  /** Adding a catalog product to a well-formed cart raises the total by its price. */
  lemma AddTotal(s: seq<Line>, p: Product)
    requires WellFormed(s) && Find(p.id) == Some(p)
    ensures Total(AddLine(s, p)) == Total(s) + p.price
  {
    match IndexOf(s, p.id)
    case Some(i) =>
      var was, now := s[i], AddLine(s, p)[i];
      assert LineOk(was) by { assert s[i] in s; }
      assert now.price == p.price && now.qty == was.qty + 1;
      assert Subtotal(now) == Subtotal(was) + p.price by {
        assert p.price * (was.qty + 1) == p.price * was.qty + p.price;
      }
      SumUpdate(s, i, now, Subtotal);
    case None =>
      SumAppend(s, [NewLine(p)], Subtotal);
      SumSingle(NewLine(p), Subtotal);
  }

  /** A sequence of add-to-cart calls, applied in order. */
  function AddAll(s: seq<Line>, ids: seq<int>): seq<Line>
    requires forall k :: 0 <= k < |ids| ==> Find(ids[k]).Some?
  {
    if ids == [] then s
    else AddLine(AddAll(s, ids[..|ids| - 1]), Find(ids[|ids| - 1]).value)
  }

  /** Any sequence of adds keeps a well-formed cart well formed, and raises the count
      by the number of adds. */
  lemma {:induction false} AddAllEffect(s: seq<Line>, ids: seq<int>)
    requires WellFormed(s)
    requires forall k :: 0 <= k < |ids| ==> Find(ids[k]).Some?
    ensures WellFormed(AddAll(s, ids))
    ensures Count(AddAll(s, ids)) == Count(s) + |ids|
  {
    if ids != [] {
      AddAllEffect(s, ids[..|ids| - 1]);
      var prev, p := AddAll(s, ids[..|ids| - 1]), Find(ids[|ids| - 1]).value;
      AddPreserves(prev, p);
      AddCount(prev, p);
    }
  }

  /** `n` adds of the same product to an empty cart give one line holding qty `n`. */
  lemma {:induction false} RepeatedAdd(id: int, n: nat)
    requires Find(id).Some?
    ensures AddAll([], seq(n, _ => id)) ==
      if n == 0 then [] else [NewLine(Find(id).value).(qty := n)]
    ensures Count(AddAll([], seq(n, _ => id))) == n
  {
    if n > 0 {
      var ids := seq(n, _ => id);
      assert ids[..n - 1] == seq(n - 1, _ => id);
      RepeatedAdd(id, n - 1);
      AddAllEffect([], ids);
    }
  }

  /** Adding the 25.00 product once and the 45.00 product twice totals 115.00. */
  lemma TotalExample()
    ensures Total(AddAll([], [1, 3, 3])) == 11500
  {
    var tee, dress := Find(1).value, Find(3).value;
    FindEntry(0);
    FindEntry(2);
    assert [1, 3, 3][..2] == [1, 3] && [1, 3][..1] == [1] && [1][..0] == [];
    var s1, s2 := AddAll([], [1]), AddAll([], [1, 3]);
    assert s1 == AddLine([], tee);
    assert s2 == AddLine(s1, dress);
    assert AddAll([], [1, 3, 3]) == AddLine(s2, dress);
    AddAllEffect([], [1]);
    AddAllEffect([], [1, 3]);
    AddTotal([], tee);
    AddTotal(s1, dress);
    AddTotal(s2, dress);
  }

  // ---------------------------------------------------------------------------
  // Change quantity

  /** Adding `change` to the first line with id `id`; a result <= 0 removes every line
      with that id. An absent id changes nothing. */
  function ChangeQtyOf(s: seq<Line>, id: int, change: int): seq<Line> {
    match IndexOf(s, id)
    case None => s
    case Some(i) =>
      var bumped := s[i := s[i].(qty := s[i].qty + change)];
      if bumped[i].qty <= 0 then FilterOut(bumped, id) else bumped
  }

  /** No line for `id`: the cart is unchanged. */
  lemma ChangeAbsent(s: seq<Line>, id: int, change: int)
    requires forall l :: l in s ==> l.id != id
    ensures ChangeQtyOf(s, id, change) == s
  {
  }

  /** A change that takes line `i` to qty <= 0 deletes that line; otherwise line `i`
      holds the new qty in the same position. */
  lemma ChangePresent(s: seq<Line>, i: nat, change: int)
    requires UniqueIds(s) && i < |s|
    ensures s[i].qty + change <= 0 ==> ChangeQtyOf(s, s[i].id, change) == s[..i] + s[i + 1..]
    ensures s[i].qty + change > 0 ==>
      ChangeQtyOf(s, s[i].id, change) == s[i := s[i].(qty := s[i].qty + change)]
  {
    IndexOfUnique(s, i);
    var bumped := s[i := s[i].(qty := s[i].qty + change)];
    if bumped[i].qty <= 0 {
      assert UniqueIds(bumped) by {
        assert forall k :: 0 <= k < |s| ==> bumped[k].id == s[k].id;
      }
      FilterUnique(bumped, i);
      assert bumped[..i] == s[..i];
      assert bumped[i + 1..] == s[i + 1..];
    }
  }

  /** A change on line `i` lowers the total by that line's subtotal when the line goes,
      and otherwise moves it by the line's price times the change. */
  lemma ChangeTotal(s: seq<Line>, i: nat, change: int)
    requires UniqueIds(s) && i < |s|
    ensures Total(ChangeQtyOf(s, s[i].id, change)) ==
      if s[i].qty + change <= 0 then Total(s) - s[i].price * s[i].qty
      else Total(s) + s[i].price * change
  {
    ChangePresent(s, i, change);
    if s[i].qty + change <= 0 {
      FilterUnique(s, i);
      SumRemove(s, i, Subtotal);
    } else {
      var now := s[i].(qty := s[i].qty + change);
      assert Subtotal(now) == Subtotal(s[i]) + s[i].price * change by {
        assert s[i].price * (s[i].qty + change) == s[i].price * s[i].qty + s[i].price * change;
      }
      SumUpdate(s, i, now, Subtotal);
    }
  }

  /** Setting a line's qty to minus itself removes it from the cart. */
  lemma ChangeToZeroRemoves(s: seq<Line>, id: int)
    requires WellFormed(s) && IndexOf(s, id).Some?
    ensures forall l :: l in ChangeQtyOf(s, id, -QtyOf(s, id)) ==> l.id != id
  {
    QtyOfUnique(s, id);
  }

  /** Raising or lowering line `i` to a qty that stays positive keeps the cart well
      formed and moves that product's units, and the count, by exactly `change`. */
  lemma BumpEffect(s: seq<Line>, i: nat, change: int)
    requires WellFormed(s) && i < |s| && s[i].qty + change > 0
    ensures WellFormed(s[i := s[i].(qty := s[i].qty + change)])
    ensures forall x :: QtyOf(s[i := s[i].(qty := s[i].qty + change)], x) == QtyOf(s, x) + (if x == s[i].id then change else 0)
    ensures Count(s[i := s[i].(qty := s[i].qty + change)]) == Count(s) + change
  {
    var bumped := s[i := s[i].(qty := s[i].qty + change)];
    assert LineOk(s[i]) by { assert s[i] in s; }
    forall l | l in bumped ensures LineOk(l) {
      var k :| 0 <= k < |bumped| && bumped[k] == l;
      assert k != i ==> bumped[k] == s[k];
    }
    assert forall k :: 0 <= k < |s| ==> bumped[k].id == s[k].id;
    SumUpdate(s, i, bumped[i], Qty);
    forall x ensures QtyOf(bumped, x) == QtyOf(s, x) + (if x == s[i].id then change else 0) {
      SumUpdate(s, i, bumped[i], QtyFor(x));
    }
  }

  /** Changing a quantity keeps a well-formed cart well formed, moves the count by
      the applied change, and touches no other product. */
  lemma ChangeEffect(s: seq<Line>, id: int, change: int)
    requires WellFormed(s)
    ensures WellFormed(ChangeQtyOf(s, id, change))
    ensures var q := QtyOf(s, id);
      QtyOf(ChangeQtyOf(s, id, change), id) == if q == 0 || q + change <= 0 then 0 else q + change
    ensures forall x :: x != id ==> QtyOf(ChangeQtyOf(s, id, change), x) == QtyOf(s, x)
    ensures Count(ChangeQtyOf(s, id, change)) ==
      Count(s) - QtyOf(s, id) + QtyOf(ChangeQtyOf(s, id, change), id)
  {
    QtyOfUnique(s, id);
    match IndexOf(s, id)
    case None =>
    case Some(i) =>
      ChangePresent(s, i, change);
      if s[i].qty + change <= 0 {
        FilterUnique(s, i);
        RemoveEffect(s, id);
      } else {
        assert s[i] in s;
        BumpEffect(s, i, change);
        assert QtyOf(ChangeQtyOf(s, id, change), id) == s[i].qty + change;
      }
  }
}
