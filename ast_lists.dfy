/**
 * The list builders the parser uses to assemble objects and arrays
 * (src/ast.c, `create_key_value_list`, `add_key_value_pair`,
 * `create_node_list`, `add_node_to_list`).
 *
 * Both lists are singly linked and returned by their head; appending walks
 * a cursor to the last cell and links a fresh cell after it. One generic
 * cell class stands for `KeyValueList` and `ASTNodeList`, which differ only
 * in what a cell holds.
 *
 * The ghost fields `spine` (the cells, head first) and `items` (what they
 * hold) are kept up to date on the head cell, which is what the builders
 * hand back.
 */
module AstLists {
  import opened JsonTree

  class ListCell<T> {
    const item: T
    var next: ListCell?<T>

    ghost var spine: seq<ListCell<T>>
    ghost var items: seq<T>

    /** The cells from this head on are linked in `spine` order, end in null and never repeat. */
    ghost predicate Valid()
      reads this, spine
    {
      && |spine| > 0
      && spine[0] == this
      && (forall i :: 0 <= i < |spine| - 1 ==> spine[i].next == spine[i + 1])
      && spine[|spine| - 1].next == null
      && (forall i, j :: 0 <= i < j < |spine| ==> spine[i] != spine[j])
      && |items| == |spine|
      && (forall i :: 0 <= i < |spine| ==> items[i] == spine[i].item)
    }

    /** A one-cell list: the `malloc` and the two field stores of the creators. */
    constructor Singleton(x: T)
      ensures Valid() && items == [x] && spine == [this]
    {
      item := x;
      next := null;
      spine := [this];
      items := [x];
    }

    /**
     * The shared body of `add_key_value_pair` and `add_node_to_list`: walk
     * to the cell whose `next` is null and link a fresh cell holding `x`.
     */
    method Append(x: T)
      requires Valid()
      modifies this, spine
      ensures Valid()
      ensures items == old(items) + [x]
      ensures |spine| == |old(spine)| + 1 && spine[..|old(spine)|] == old(spine)
      ensures fresh(spine[|spine| - 1])
    {
      var current := this;
      ghost var i := 0;
      while current.next != null
        invariant 0 <= i < |spine| && current == spine[i]
        invariant current.next == if i < |spine| - 1 then spine[i + 1] else null
        decreases |spine| - i
      {
        current := current.next;
        i := i + 1;
      }
      ghost var cells := spine;
      var cell := new ListCell.Singleton(x);
      current.next := cell;
      assert forall k :: 0 <= k < |cells| - 1 ==> cells[k].next == cells[k + 1];
      spine := spine + [cell];
      items := items + [x];
    }
  }

  type KeyValueList = ListCell<Pair>
  type NodeList = ListCell<Json>

  /** `create_key_value_list`: a list holding just the given pair. */
  method CreateKeyValueList(pair: Pair) returns (list: KeyValueList)
    ensures fresh(list) && list.Valid() && list.items == [pair] && list.next == null
  {
    list := new ListCell.Singleton(pair);
  }

  /** `add_key_value_pair`: the same head, now with the pair last and the earlier pairs unchanged. */
  method AddKeyValuePair(list: KeyValueList, pair: Pair) returns (head: KeyValueList)
    requires list.Valid()
    modifies list, list.spine
    ensures head == list && head.Valid()
    ensures head.items == old(list.items) + [pair]
  {
    list.Append(pair);
    head := list;
  }

  /** `create_node_list`: a list holding just the given node. */
  method CreateNodeList(node: Json) returns (list: NodeList)
    ensures fresh(list) && list.Valid() && list.items == [node] && list.next == null
  {
    list := new ListCell.Singleton(node);
  }

  /** `add_node_to_list`: the same head, now with the node last and the earlier nodes unchanged. */
  method AddNodeToList(list: NodeList, node: Json) returns (head: NodeList)
    requires list.Valid()
    modifies list, list.spine
    ensures head == list && head.Valid()
    ensures head.items == old(list.items) + [node]
  {
    list.Append(node);
    head := list;
  }
}
