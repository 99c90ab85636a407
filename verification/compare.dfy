/** The compare page's selection: an ordered list of at most three products with
    distinct ids, changed only by toggling a product and by clearing. */
module Compare {
  import opened Wrappers
  import opened Strings
  import opened Products

  type Selection = seq<Product>

  /** How many products can be compared side by side. */
  const MaxSelected: nat := 3

  /** The selection invariant: bounded and free of duplicate ids. */
  ghost predicate Valid(sel: Selection) {
    |sel| <= MaxSelected && UniqueIds(sel)
  }

  ghost predicate UniqueIds(sel: Selection) {
    forall i, j :: 0 <= i < j < |sel| ==> sel[i].id != sel[j].id
  }

  /** `selectedProducts.some(p => p.id === productId)`, scanning front to back. */
  function IsSelected(sel: Selection, id: string): (b: bool)
    ensures b <==> exists i :: 0 <= i < |sel| && sel[i].id == id
  {
    if |sel| == 0 then false
    else if sel[0].id == id then true
    else
      var b := IsSelected(sel[1..], id);
      assert b ==> exists i :: 0 <= i < |sel| && sel[i].id == id by {
        if b {
          var i :| 0 <= i < |sel[1..]| && sel[1..][i].id == id;
          assert sel[i + 1].id == id;
        }
      }
      assert (exists i :: 0 <= i < |sel| && sel[i].id == id) ==> b by {
        if exists i :: 0 <= i < |sel| && sel[i].id == id {
          var i :| 0 <= i < |sel| && sel[i].id == id;
          assert i > 0 && sel[1..][i - 1].id == id;
        }
      }
      b
  }

  /** `selectedProducts.filter(p => p.id !== id)`: every product with another id, in order. */
  function RemoveId(sel: Selection, id: string): (r: Selection)
    ensures |r| <= |sel|
    ensures forall p :: p in r ==> p in sel && p.id != id
    ensures forall p :: p in sel && p.id != id ==> p in r
  {
    if |sel| == 0 then []
    else
      var rest := RemoveId(sel[1..], id);
      assert forall p :: p in sel ==> p == sel[0] || p in sel[1..];
      if sel[0].id == id then rest else [sel[0]] + rest
  }

  /** `handleSelectProduct`: deselect a selected product, otherwise add it at the
      end if there is room, otherwise do nothing. */
  function Toggle(sel: Selection, p: Product): (r: Selection)
    ensures IsSelected(sel, p.id) ==> !IsSelected(r, p.id)
    ensures !IsSelected(sel, p.id) && |sel| < MaxSelected ==> r == sel + [p]
    ensures !IsSelected(sel, p.id) && |sel| >= MaxSelected ==> r == sel
    ensures forall q :: q in sel && q.id != p.id ==> q in r
  {
    if IsSelected(sel, p.id) then
      var r := RemoveId(sel, p.id);
      assert forall i :: 0 <= i < |r| ==> r[i] in r;
      r
    else if |sel| < MaxSelected then sel + [p]
    else sel
  }

  /** The "Clear Selection" button. */
  function Clear(sel: Selection): (r: Selection)
    ensures Valid(r)
    ensures forall id :: !IsSelected(r, id)
  {
    []
  }

  /** A product button is disabled when it is not selected and the selection is full. */
  function IsDisabled(sel: Selection, id: string): bool {
    !IsSelected(sel, id) && |sel| >= MaxSelected
  }

  /** The attributes compared row by row, in table order: technology, capacity,
      warranty, purification stages, energy consumption, dimensions, weight. */
  function ComparedAttributes(p: Product): (attrs: seq<Option<string>>)
    ensures |attrs| == 7
  {
    [p.technologyType, p.capacity, p.warranty, p.purificationStages, p.energyConsumption,
     p.dimensions, p.weight]
  }

  /** One column of the comparison table: each attribute, or `'N/A'` when it is
      absent or empty, so no cell is ever blank. */
  function ComparisonColumn(p: Product): (cells: seq<string>)
    ensures |cells| == |ComparedAttributes(p)|
    ensures forall i :: 0 <= i < |cells| ==> cells[i] != ""
    ensures forall i :: 0 <= i < |cells| && Present(ComparedAttributes(p)[i]) ==>
              cells[i] == ComparedAttributes(p)[i].value
    ensures forall i :: 0 <= i < |cells| && !Present(ComparedAttributes(p)[i]) ==>
              cells[i] == NotAvailable
  {
    var attrs := ComparedAttributes(p);
    seq(|attrs|, i requires 0 <= i < |attrs| => Display(attrs[i], NotAvailable))
  }

  /** Removing an id that no selected product has changes nothing. */
  lemma {:induction false} RemoveAbsent(sel: Selection, id: string)
    requires forall i :: 0 <= i < |sel| ==> sel[i].id != id
    ensures RemoveId(sel, id) == sel
  {
    if |sel| > 0 {
      RemoveAbsent(sel[1..], id);
      assert [sel[0]] + sel[1..] == sel;
    }
  }

  /** Removing an id held only by the first product drops that product. */
  lemma RemoveFirst(sel: Selection, id: string)
    requires |sel| > 0 && sel[0].id == id
    requires forall i :: 0 < i < |sel| ==> sel[i].id != id
    ensures RemoveId(sel, id) == sel[1..]
  {
    var tail := sel[1..];
    assert forall i :: 0 <= i < |tail| ==> tail[i] == sel[i + 1];
    RemoveAbsent(tail, id);
  }

  /** Filtering distributes over concatenation. */
  lemma {:induction false} RemoveAppend(a: Selection, b: Selection, id: string)
    ensures RemoveId(a + b, id) == RemoveId(a, id) + RemoveId(b, id)
  {
    if |a| == 0 {
      assert a + b == b;
    } else {
      assert (a + b)[1..] == a[1..] + b;
      RemoveAppend(a[1..], b, id);
    }
  }

  /** Removing an id held by exactly position `k` drops just that product and
      keeps the rest in their order. */
  lemma RemoveAt(sel: Selection, id: string, k: int)
    requires 0 <= k < |sel| && sel[k].id == id
    requires forall i :: 0 <= i < |sel| && i != k ==> sel[i].id != id
    ensures RemoveId(sel, id) == sel[..k] + sel[k + 1..]
  {
    var front, back := sel[..k], sel[k..];
    assert sel == front + back;
    RemoveAppend(front, back, id);
    RemoveAbsent(front, id);
    RemoveFirst(back, id);
  }

  /** Putting a product with a fresh id in front keeps ids distinct. */
  lemma ConsUnique(p: Product, rest: Selection)
    requires UniqueIds(rest)
    requires forall q :: q in rest ==> q.id != p.id
    ensures UniqueIds([p] + rest)
  {
    var r := [p] + rest;
    forall i, j | 0 <= i < j < |r| ensures r[i].id != r[j].id {
      assert r[j] == rest[j - 1];
      if i > 0 {
        assert r[i] == rest[i - 1];
      }
    }
  }

  /** `RemoveId` keeps a subsequence, so it keeps ids distinct. */
  lemma {:induction false} RemoveKeepsUnique(sel: Selection, id: string)
    requires UniqueIds(sel)
    ensures UniqueIds(RemoveId(sel, id))
  {
    if |sel| > 0 {
      var tail := sel[1..];
      assert UniqueIds(tail) by {
        forall i, j | 0 <= i < j < |tail| ensures tail[i].id != tail[j].id {
          assert tail[i] == sel[i + 1] && tail[j] == sel[j + 1];
        }
      }
      RemoveKeepsUnique(tail, id);
      if sel[0].id != id {
        forall q | q in RemoveId(tail, id) ensures q.id != sel[0].id {
          var m :| 0 <= m < |tail| && tail[m] == q;
          assert sel[m + 1] == q;
        }
        ConsUnique(sel[0], RemoveId(tail, id));
      }
    }
  }

  /** Toggling a selected product removes exactly that product and keeps the
      others in their original order. */
  lemma ToggleRemovesExactly(sel: Selection, p: Product, k: int)
    requires UniqueIds(sel)
    requires 0 <= k < |sel| && sel[k].id == p.id
    ensures Toggle(sel, p) == sel[..k] + sel[k + 1..]
  {
    RemoveAt(sel, p.id, k);
  }

  /** Every toggle keeps the selection bounded and free of duplicate ids. */
  lemma ToggleKeepsValid(sel: Selection, p: Product)
    requires Valid(sel)
    ensures Valid(Toggle(sel, p))
  {
    if IsSelected(sel, p.id) {
      RemoveKeepsUnique(sel, p.id);
    } else if |sel| < MaxSelected {
      var r := sel + [p];
      forall i, j | 0 <= i < j < |r| ensures r[i].id != r[j].id {
        if j == |sel| {
          assert r[i] == sel[i];
        } else {
          assert r[i] == sel[i] && r[j] == sel[j];
        }
      }
    }
  }

  /** Toggling an unselected product twice, while there is room, returns the
      selection it started from. */
  lemma ToggleTwiceRestores(sel: Selection, p: Product)
    requires !IsSelected(sel, p.id) && |sel| < MaxSelected
    ensures Toggle(Toggle(sel, p), p) == sel
  {
    var r := sel + [p];
    assert r[|sel|].id == p.id;
    RemoveAt(r, p.id, |sel|);
    assert r[..|sel|] + r[|sel| + 1..] == sel;
  }

  /** A button is disabled exactly when pressing it would change nothing. */
  lemma DisabledIffToggleIsNoop(sel: Selection, p: Product)
    ensures IsDisabled(sel, p.id) <==> Toggle(sel, p) == sel
  {
    if IsSelected(sel, p.id) {
      var i :| 0 <= i < |sel| && sel[i].id == p.id;
      assert !IsSelected(Toggle(sel, p), p.id);
    } else if |sel| < MaxSelected {
      assert |Toggle(sel, p)| == |sel| + 1;
    }
  }
}
