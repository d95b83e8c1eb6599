/**
 * The add-on checkbox list: clicking an add-on removes it from the selection
 * when it is there and appends it otherwise. The selection is a list of ids,
 * never changed in place; each click yields a new list.
 */
module AddOnsSelector {

  /** No id occurs twice. */
  predicate NoDuplicates(ids: seq<string>)
  {
    forall i, j :: 0 <= i < j < |ids| ==> ids[i] != ids[j]
  }

  /** `ids.filter(x => x !== id)`. */
  function RemoveAll(ids: seq<string>, id: string): (r: seq<string>)
    ensures id !in r
    ensures forall x :: x != id ==> (x in r <==> x in ids)
    ensures forall x :: x != id ==> multiset(r)[x] == multiset(ids)[x]
    ensures |r| <= |ids|
    decreases |ids|
  {
    if |ids| == 0 then []
    else
      var rest := RemoveAll(ids[1..], id);
      assert ids == [ids[0]] + ids[1..];
      assert forall x :: x in ids <==> x == ids[0] || x in ids[1..];
      if ids[0] == id then rest else [ids[0]] + rest
  }

  /** `handleToggle`: the new selection after clicking add-on `id`. */
  function Toggle(ids: seq<string>, id: string): (r: seq<string>)
    ensures id in r <==> id !in ids
    ensures forall x :: x != id ==> (x in r <==> x in ids)
    ensures id !in ids ==> r == ids + [id]
  {
    if id in ids then RemoveAll(ids, id) else ids + [id]
  }

  /** Filtering distributes over concatenation, so the kept ids stay in order. */
  lemma {:induction false} RemoveAllAppend(a: seq<string>, b: seq<string>, id: string)
    ensures RemoveAll(a + b, id) == RemoveAll(a, id) + RemoveAll(b, id)
    decreases |a|
  {
    if |a| == 0 {
      assert a + b == b;
    } else {
      assert (a + b)[1..] == a[1..] + b;
      RemoveAllAppend(a[1..], b, id);
    }
  }

  /** Removing an id that is not there changes nothing. */
  lemma {:induction false} RemoveAllAbsent(ids: seq<string>, id: string)
    requires id !in ids
    ensures RemoveAll(ids, id) == ids
    decreases |ids|
  {
    if |ids| > 0 {
      assert ids == [ids[0]] + ids[1..];
      RemoveAllAbsent(ids[1..], id);
    }
  }

  /** On a list without repeats, removing a present id drops exactly one element. */
  lemma {:induction false} RemoveAllPresentOnce(ids: seq<string>, id: string)
    requires NoDuplicates(ids) && id in ids
    ensures |RemoveAll(ids, id)| == |ids| - 1
    decreases |ids|
  {
    assert ids == [ids[0]] + ids[1..];
    if ids[0] == id {
      assert id !in ids[1..] by {
        forall j | 0 <= j < |ids[1..]| ensures ids[1..][j] != id {
          assert ids[1..][j] == ids[j + 1];
        }
      }
      RemoveAllAbsent(ids[1..], id);
    } else {
      assert NoDuplicates(ids[1..]) by {
        forall i, j | 0 <= i < j < |ids[1..]| ensures ids[1..][i] != ids[1..][j] {
          assert ids[1..][i] == ids[i + 1] && ids[1..][j] == ids[j + 1];
        }
      }
      RemoveAllPresentOnce(ids[1..], id);
    }
  }

  /** Removing keeps a list free of repeats. */
  lemma {:induction false} RemoveAllNoDuplicates(ids: seq<string>, id: string)
    requires NoDuplicates(ids)
    ensures NoDuplicates(RemoveAll(ids, id))
    decreases |ids|
  {
    if |ids| > 0 {
      assert NoDuplicates(ids[1..]) by {
        forall i, j | 0 <= i < j < |ids[1..]| ensures ids[1..][i] != ids[1..][j] {
          assert ids[1..][i] == ids[i + 1] && ids[1..][j] == ids[j + 1];
        }
      }
      RemoveAllNoDuplicates(ids[1..], id);
      var rest := RemoveAll(ids[1..], id);
      if ids[0] != id {
        assert ids[0] !in ids[1..] by {
          forall j | 0 <= j < |ids[1..]| ensures ids[1..][j] != ids[0] {
            assert ids[1..][j] == ids[j + 1];
          }
        }
        var r := [ids[0]] + rest;
        forall i, j | 0 <= i < j < |r| ensures r[i] != r[j] {
          assert r[j] == rest[j - 1] && r[j] in rest;
          if i > 0 { assert r[i] == rest[i - 1]; }
        }
      }
    }
  }

  /** Toggling keeps a selection free of repeats and changes its length by one. */
  lemma ToggleNoDuplicates(ids: seq<string>, id: string)
    requires NoDuplicates(ids)
    ensures NoDuplicates(Toggle(ids, id))
    ensures |Toggle(ids, id)| == if id in ids then |ids| - 1 else |ids| + 1
  {
    if id in ids {
      RemoveAllNoDuplicates(ids, id);
      RemoveAllPresentOnce(ids, id);
    } else {
      var r := ids + [id];
      forall i, j | 0 <= i < j < |r| ensures r[i] != r[j] {
        if j == |ids| { assert r[i] in ids; }
      }
    }
  }

  /** Clicking an unselected add-on twice restores the selection exactly. */
  lemma ToggleTwiceAbsent(ids: seq<string>, id: string)
    requires id !in ids
    ensures Toggle(Toggle(ids, id), id) == ids
  {
    RemoveAllAppend(ids, [id], id);
    RemoveAllAbsent(ids, id);
    assert RemoveAll([id], id) == [];
  }

  /**
   * Clicking a selected add-on twice keeps the same set of ids but moves the
   * add-on to the end (and collapses any repeats of it).
   */
  lemma ToggleTwicePresent(ids: seq<string>, id: string)
    requires id in ids
    ensures Toggle(Toggle(ids, id), id) == RemoveAll(ids, id) + [id]
    ensures forall x :: x in Toggle(Toggle(ids, id), id) <==> x in ids
  {
  }
}
