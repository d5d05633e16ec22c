/** Report lists are built the same way: a fixed table of candidate items,
    each guarded by a condition, and the list keeps the items whose
    condition holds, in table order. */
module Selection {

  datatype Entry<T> = Entry(fires: bool, item: T)

  /** The items of the entries that fire, in table order. */
  function Selected<T>(es: seq<Entry<T>>): seq<T> {
    if es == [] then []
    else Selected(es[..|es| - 1]) + (if es[|es| - 1].fires then [es[|es| - 1].item] else [])
  }

  /** How many entries fire. */
  function Fired<T>(es: seq<Entry<T>>): nat {
    if es == [] then 0
    else Fired(es[..|es| - 1]) + (if es[|es| - 1].fires then 1 else 0)
  }

  /** One step of building a list: append the entry's item if it fires. */
  function Push<T>(acc: seq<T>, e: Entry<T>): seq<T> {
    if e.fires then acc + [e.item] else acc
  }

  /** Appending one entry to the table is one more building step. */
  lemma SelectedSnoc<T>(es: seq<Entry<T>>, e: Entry<T>)
    ensures Selected(es + [e]) == Push(Selected(es), e)
  {
    assert (es + [e])[..|es|] == es;
  }

  /** One item per firing entry, so never more items than entries. */
  lemma {:induction false} SelectedLength<T>(es: seq<Entry<T>>)
    ensures |Selected(es)| == Fired(es) <= |es|
  {
    if es != [] {
      SelectedLength(es[..|es| - 1]);
    }
  }

  /** A firing entry's item sits at the position given by the number of
      firing entries before it. */
  lemma {:induction false} SelectedAt<T>(es: seq<Entry<T>>, k: nat)
    requires k < |es| && es[k].fires
    ensures Fired(es[..k]) < |Selected(es)|
    ensures Selected(es)[Fired(es[..k])] == es[k].item
  {
    var n := |es| - 1;
    var init := es[..n];
    SelectedLength(init);
    if k == n {
      assert es[..k] == init;
    } else {
      assert init[..k] == es[..k];
      SelectedAt(init, k);
    }
  }

  /** Every selected item comes from an entry that fires. */
  lemma {:induction false} SelectedFrom<T>(es: seq<Entry<T>>)
    ensures forall i :: 0 <= i < |Selected(es)| ==>
              exists k :: 0 <= k < |es| && es[k].fires && es[k].item == Selected(es)[i]
  {
    if es != [] {
      var n := |es| - 1;
      var init := es[..n];
      SelectedFrom(init);
      var r := Selected(es);
      assert r == Selected(init) + (if es[n].fires then [es[n].item] else []);
      forall i | 0 <= i < |r|
        ensures exists k :: 0 <= k < |es| && es[k].fires && es[k].item == r[i]
      {
        if i < |Selected(init)| {
          assert r[i] == Selected(init)[i];
          assert exists k :: 0 <= k < |init| && init[k].fires && init[k].item == Selected(init)[i];
          var k :| 0 <= k < |init| && init[k].fires && init[k].item == Selected(init)[i];
          assert es[k] == init[k];
        } else {
          assert es[n].fires && es[n].item == r[i];
        }
      }
    } else {
      assert Selected(es) == [];
    }
  }

  /** The list is empty exactly when no entry fires. */
  lemma SelectedEmpty<T>(es: seq<Entry<T>>)
    ensures Selected(es) == [] <==> forall k :: 0 <= k < |es| ==> !es[k].fires
  {
    if Selected(es) == [] {
      forall k | 0 <= k < |es| ensures !es[k].fires {
        if es[k].fires {
          SelectedAt(es, k);
        }
      }
    } else {
      SelectedFrom(es);
      assert exists k :: 0 <= k < |es| && es[k].fires && es[k].item == Selected(es)[0];
    }
  }

  /** With distinct items, an entry's item is listed exactly when the entry
      fires. */
  lemma SelectedMember<T>(es: seq<Entry<T>>, k: nat)
    requires k < |es|
    requires forall i, j :: 0 <= i < j < |es| ==> es[i].item != es[j].item
    ensures es[k].item in Selected(es) <==> es[k].fires
  {
    if es[k].fires {
      SelectedAt(es, k);
    } else {
      SelectedFrom(es);
    }
  }

  /** Keys that strictly increase along the table strictly increase along
      the selected list. */
  lemma {:induction false} SelectedIncreasing<T>(es: seq<Entry<T>>, key: T -> int)
    requires forall i, j :: 0 <= i < j < |es| ==> key(es[i].item) < key(es[j].item)
    ensures forall i, j :: 0 <= i < j < |Selected(es)| ==> key(Selected(es)[i]) < key(Selected(es)[j])
  {
    if es != [] {
      var n := |es| - 1;
      var init := es[..n];
      SelectedIncreasing(init, key);
      SelectedFrom(init);
      var r := Selected(es);
      forall i, j | 0 <= i < j < |r| ensures key(r[i]) < key(r[j]) {
        if j >= |Selected(init)| {
          var k :| 0 <= k < |init| && init[k].fires && init[k].item == Selected(init)[i];
          assert es[k] == init[k];
        }
      }
    }
  }
}
