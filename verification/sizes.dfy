/**
 * The fixed, ordered table of cake sizes the customer picks from, and the
 * title lookup the order form's heading performs with
 * `sizes.find(s => s.key === sizeKey)?.title`.
 */
module Sizes {
  import opened Wrappers

  datatype Size = Size(key: string, title: string)

  /** The three categories, in the order the cards are shown. */
  const Table: seq<Size> := [
    Size("small_1_layer", "Small \U{2022} 1 layer"),
    Size("big_1_layer", "Big \U{2022} 1 layer"),
    Size("multi_layer", "2+ layers")
  ]

  /** `key` is the key of one of the table's entries. */
  predicate IsSizeKey(key: string) {
    exists i :: 0 <= i < |Table| && Table[i].key == key
  }

  predicate DistinctKeys(table: seq<Size>) {
    forall i, j :: 0 <= i < j < |table| ==> table[i].key != table[j].key
  }

  /** No entry before index `i` has the key. */
  predicate FirstWithKey(table: seq<Size>, i: nat, key: string)
    requires i <= |table|
  {
    forall j :: 0 <= j < i ==> table[j].key != key
  }

  /** `table.find(s => s.key === key)`: the first entry with that key, if any. */
  function Find(table: seq<Size>, key: string): (r: Option<Size>)
    ensures r.Some? <==> exists i :: 0 <= i < |table| && table[i].key == key
    ensures r.Some? ==> r.value.key == key && r.value in table
    ensures r.Some? ==> exists i :: 0 <= i < |table| && table[i] == r.value && FirstWithKey(table, i, key)
  {
    if |table| == 0 then None
    else if table[0].key == key then Some(table[0])
    else
      var r := Find(table[1..], key);
      assert forall i :: 0 < i < |table| ==> table[i] == table[1..][i - 1];
      r
  }

  /** In a table whose keys are distinct, looking up an entry's key finds that very entry. */
  lemma {:induction false} FindEntry(table: seq<Size>, i: nat)
    requires DistinctKeys(table) && i < |table|
    ensures Find(table, table[i].key) == Some(table[i])
  {
    if i > 0 {
      assert table[0].key != table[i].key;
      assert table[1..][i - 1] == table[i];
      FindEntry(table[1..], i - 1);
    }
  }

  /** `sizes.find(s => s.key === key)?.title`, with `None` for `undefined`. */
  function Title(key: string): Option<string> {
    match Find(Table, key)
    case Some(size) => Some(size.title)
    case None => None
  }

  lemma TableKeysDistinct()
    ensures DistinctKeys(Table)
  {
  }

  /** Every card's key finds that card's own title. */
  lemma CardTitle(i: nat)
    requires i < |Table|
    ensures IsSizeKey(Table[i].key)
    ensures Title(Table[i].key) == Some(Table[i].title)
  {
    TableKeysDistinct();
    FindEntry(Table, i);
  }

  /** The heading finds a title exactly for the table's keys. */
  lemma TitleIffSizeKey(key: string)
    ensures Title(key).Some? <==> IsSizeKey(key)
  {
  }
}
