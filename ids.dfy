/** Sequential object ids: `Object.__get_next_object_id` (prefix `objxx`,
    src/stage/object.py) and `SerializerContext.get_next_object_id` (prefix
    `objx`, src/stage/serializer/context.py) both format a counter that starts
    at 1 and grows by one per id. */
module Ids {
  import opened Strings

  class IdCounter {
    const prefix: string
    var next: nat
    /** Every id handed out so far, in order. */
    ghost var issued: seq<string>

    ghost predicate Valid()
      reads this
    {
      next == |issued| + 1 &&
      forall k :: 0 <= k < |issued| ==> issued[k] == prefix + NatToString(k + 1)
    }

    constructor(prefix: string)
      ensures Valid() && this.prefix == prefix && next == 1 && issued == []
    {
      this.prefix := prefix;
      next := 1;
      issued := [];
    }

    /** The next id: the prefix and the counter in decimal; the counter then grows by one. */
    method NextId() returns (id: string)
      requires Valid()
      modifies this
      ensures Valid()
      ensures id == prefix + NatToString(old(next)) && next == old(next) + 1
      ensures issued == old(issued) + [id]
      ensures id !in old(issued)
    {
      id := prefix + NatToString(next);
      forall k | 0 <= k < |issued|
        ensures issued[k] != id
      {
        PrefixedNamesDistinct(prefix, k + 1, next);
      }
      issued := issued + [id];
      next := next + 1;
    }

    /** No id is handed out twice. */
    lemma IssuedDistinct()
      requires Valid()
      ensures forall i, j :: 0 <= i < j < |issued| ==> issued[i] != issued[j]
    {
      forall i, j | 0 <= i < j < |issued|
        ensures issued[i] != issued[j]
      {
        PrefixedNamesDistinct(prefix, i + 1, j + 1);
      }
    }
  }
}
