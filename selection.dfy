/** The era, style and material checkboxes. All three handlers share one
    shape: ticking appends the box's value, un-ticking drops every copy of
    it. */
module Selection {
  import opened JsArray
  import opened Catalog

  /** `checked ? [...sel, v] : sel.filter(e => e !== v)`. */
  function Toggle(sel: seq<string>, v: string, checked: bool): (r: seq<string>)
    ensures checked ==> |r| == |sel| + 1 && r[..|sel|] == sel && r[|sel|] == v
    ensures !checked ==> |r| <= |sel| && v !in r
  {
    if checked then sel + [v] else Filter(sel, e => e != v)
  }

  /** Un-ticking a box keeps every other ticked value, as often and in the
      order it was ticked, and drops all copies of the box's value. */
  lemma UncheckKeepsOthers(sel: seq<string>, v: string, x: string)
    ensures x in Toggle(sel, v, false) <==> x in sel && x != v
    ensures multiset(Toggle(sel, v, false))[x] == if x == v then 0 else multiset(sel)[x]
    ensures IsSubsequence(Toggle(sel, v, false), sel)
  {
    FilterMembers(sel, e => e != v, x);
    FilterCount(sel, e => e != v, x);
    FilterIsSubsequence(sel, e => e != v);
  }

  /** Ticking a box that was not ticked and un-ticking it again restores the
      selection. */
  lemma CheckThenUncheck(sel: seq<string>, v: string)
    requires v !in sel
    ensures Toggle(Toggle(sel, v, true), v, false) == sel
  {
    FilterConcat(sel, [v], e => e != v);
    forall i | 0 <= i < |sel| ensures sel[i] != v {
    }
    FilterKeepsAll(sel, e => e != v);
  }

  /** Un-ticking twice is un-ticking once. */
  lemma UncheckIdempotent(sel: seq<string>, v: string)
    ensures Toggle(Toggle(sel, v, false), v, false) == Toggle(sel, v, false)
  {
    var once := Toggle(sel, v, false);
    forall i | 0 <= i < |once| ensures once[i] != v {
    }
    FilterKeepsAll(once, e => e != v);
  }

  /** Ticking one more box widens what the dimension accepts by exactly that
      value; ticking the first box narrows it from "anything" to that value. */
  lemma CheckWidens(sel: seq<string>, v: string, x: string)
    ensures |sel| > 0 ==> (SelectionMatch(Toggle(sel, v, true), x) <==> SelectionMatch(sel, x) || x == v)
    ensures |sel| == 0 ==> (SelectionMatch(Toggle(sel, v, true), x) <==> x == v)
  {
    assert x in sel + [v] <==> x in sel || x == v;
  }

  /** Un-ticking the last ticked value lifts the constraint on that dimension. */
  lemma UncheckLastLifts(sel: seq<string>, v: string, x: string)
    requires forall i :: 0 <= i < |sel| ==> sel[i] == v
    ensures SelectionMatch(Toggle(sel, v, false), x)
  {
    var r := Toggle(sel, v, false);
    if |r| > 0 {
      assert r[0] in sel by { FilterMembers(sel, e => e != v, r[0]); }
      assert false;
    }
  }
}
