/**
 * The key comparison of two objects (src/csv_gen.c, `has_same_keys`).
 *
 * Two objects, given as the heads of their key/value lists (null for an
 * empty list), "have the same keys" when the lists are equally long and
 * every key of the first occurs somewhere in the second. That is exactly
 * key-set equality when the first object's keys are distinct; with repeated
 * keys it is neither key-set equality nor symmetric.
 */
module SameKeys {
  import opened JsonTree
  import opened AstLists

  /** The pairs of a list given by its head; null is the empty list. */
  ghost function Items(list: ListCell?<Pair>): seq<Pair>
    reads list
  {
    if list == null then [] else list.items
  }

  ghost predicate ValidList(list: ListCell?<Pair>)
    reads list, if list == null then [] else list.spine
  {
    list != null ==> list.Valid()
  }

  /** The test `has_same_keys` makes: equal lengths, and each key of `a` found in `b`. */
  predicate SameKeys(a: seq<string>, b: seq<string>) {
    |a| == |b| && forall i :: 0 <= i < |a| ==> a[i] in b
  }

  predicate DistinctKeys(s: seq<string>) {
    forall i, j :: 0 <= i < j < |s| ==> s[i] != s[j]
  }

  function KeySet(s: seq<string>): set<string> {
    set k | k in s
  }

  /** A list of `n` keys has at most `n` different keys, and exactly `n` when none repeats. */
  lemma {:induction false} KeySetSize(s: seq<string>)
    ensures |KeySet(s)| <= |s|
    ensures DistinctKeys(s) ==> |KeySet(s)| == |s|
    decreases |s|
  {
    if |s| > 0 {
      KeySetSize(s[1..]);
      assert KeySet(s) == {s[0]} + KeySet(s[1..]);
      if DistinctKeys(s) {
        assert s[0] !in KeySet(s[1..]) by {
          forall j | 0 <= j < |s| - 1 ensures s[1..][j] != s[0] {
            assert s[j + 1] != s[0];
          }
        }
        assert DistinctKeys(s[1..]) by {
          forall i, j | 0 <= i < j < |s| - 1 ensures s[1..][i] != s[1..][j] {
            assert s[i + 1] != s[j + 1];
          }
        }
      }
    }
  }

  /**
   * With distinct keys in the first object and equal lengths, the test is
   * key-set equality, both ways.
   */
  lemma DistinctSameKeys(a: seq<string>, b: seq<string>)
    requires DistinctKeys(a) && |a| == |b|
    ensures SameKeys(a, b) <==> KeySet(a) == KeySet(b)
  {
    KeySetSize(a);
    KeySetSize(b);
    if SameKeys(a, b) {
      assert KeySet(a) <= KeySet(b);
      var extra := KeySet(b) - KeySet(a);
      assert KeySet(b) == KeySet(a) + extra && KeySet(a) * extra == {};
      assert |extra| == 0;
    } else {
      var i :| 0 <= i < |a| && a[i] !in b;
      assert a[i] in KeySet(a);
    }
  }

  /** Reordering the keys of the second object (same keys, same multiplicities) always passes the test. */
  lemma PermutationSameKeys(a: seq<string>, b: seq<string>)
    requires multiset(a) == multiset(b)
    ensures SameKeys(a, b)
  {
    assert |a| == |multiset(a)| == |multiset(b)| == |b|;
    forall i | 0 <= i < |a| ensures a[i] in b {
      assert a[i] in multiset(a);
    }
  }

  /** Repeated keys: ["a", "a"] passes against ["a", "b"], the other way round it fails. */
  lemma NotSymmetric()
    ensures SameKeys(["a", "a"], ["a", "b"])
    ensures !SameKeys(["a", "b"], ["a", "a"])
    ensures KeySet(["a", "a"]) != KeySet(["a", "b"])
  {
    assert "b" in KeySet(["a", "b"]);
    assert ["a", "b"][1] !in ["a", "a"];
  }

  /** Cell `i` of a valid list holds pair `i` and links to cell `i + 1`, or to null when it is the last. */
  lemma CellAt(list: ListCell?<Pair>, i: int)
    requires ValidList(list) && list != null && 0 <= i < |list.spine|
    ensures list.spine[i].item == Items(list)[i]
    ensures list.spine[i].next == if i + 1 < |list.spine| then list.spine[i + 1] else null
  {
  }

  /** The number of cells from `list` to the end (the counting loops). */
  method Length(list: ListCell?<Pair>) returns (count: int)
    requires ValidList(list)
    ensures count == |Items(list)|
  {
    count := 0;
    var temp := list;
    while temp != null
      invariant count <= |Items(list)| == if list == null then 0 else |list.spine|
      invariant temp == if list != null && count < |list.spine| then list.spine[count] else null
      decreases if list == null then 0 else |list.spine| - count
    {
      CellAt(list, count);
      count := count + 1;
      temp := temp.next;
    }
    assert list != null ==> |list.items| == |list.spine|;
  }

  /** The inner search: whether some cell of `list` holds the key. */
  method Contains(list: ListCell?<Pair>, key: string) returns (found: bool)
    requires ValidList(list)
    ensures found <==> key in Keys(Items(list))
  {
    var temp := list;
    ghost var i := 0;
    while temp != null
      invariant i <= |Items(list)| == if list == null then 0 else |list.spine|
      invariant temp == if list != null && i < |list.spine| then list.spine[i] else null
      invariant forall k :: 0 <= k < i ==> Items(list)[k].key != key
      decreases if list == null then 0 else |list.spine| - i
    {
      CellAt(list, i);
      if temp.item.key == key {
        assert Keys(Items(list))[i] == key;
        return true;
      }
      temp := temp.next;
      i := i + 1;
    }
    found := false;
  }

  /** The second half of `has_same_keys`: whether every key of `list1`, in turn, is found in `list2`. */
  method EveryKeyFound(list1: ListCell?<Pair>, list2: ListCell?<Pair>) returns (all: bool)
    requires ValidList(list1) && ValidList(list2)
    ensures all <==> forall k :: 0 <= k < |Items(list1)| ==> Items(list1)[k].key in Keys(Items(list2))
  {
    var temp1 := list1;
    ghost var i := 0;
    while temp1 != null
      invariant i <= |Items(list1)| == if list1 == null then 0 else |list1.spine|
      invariant temp1 == if list1 != null && i < |list1.spine| then list1.spine[i] else null
      invariant forall k :: 0 <= k < i ==> Items(list1)[k].key in Keys(Items(list2))
      decreases if list1 == null then 0 else |list1.spine| - i
    {
      CellAt(list1, i);
      var found := Contains(list2, temp1.item.key);
      if !found {
        return false;
      }
      temp1 := temp1.next;
      i := i + 1;
    }
    return true;
  }

  /** `has_same_keys`: 1 when the lengths agree and every key of the first list occurs in the second, else 0. */
  method HasSameKeys(list1: ListCell?<Pair>, list2: ListCell?<Pair>) returns (r: int)
    requires ValidList(list1) && ValidList(list2)
    ensures r == if SameKeys(Keys(Items(list1)), Keys(Items(list2))) then 1 else 0
  {
    var count1 := Length(list1);
    var count2 := Length(list2);
    if count1 != count2 {
      return 0;
    }
    var all := EveryKeyFound(list1, list2);
    r := if all then 1 else 0;
  }
}
