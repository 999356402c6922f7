/** The template filters `pluck` and `get_item`. */
module CustomTags {
  import opened Wrappers
  import opened PyValue

  type Dict = map<Value, Value>

  /** `d.get(key)`: the mapped value, `None` when the key is absent. */
  function Get(d: Dict, key: Value): Value {
    if key in d then d[key] else PyNone
  }

  /** `pluck`: the key's value of each dictionary, in list order. */
  function Pluck(dicts: seq<Dict>, key: Value): (r: seq<Value>)
    ensures |r| == |dicts|
    ensures forall i :: 0 <= i < |dicts| ==> (key in dicts[i] ==> r[i] == dicts[i][key])
    ensures forall i :: 0 <= i < |dicts| ==> (key !in dicts[i] ==> r[i] == PyNone)
  {
    seq(|dicts|, i requires 0 <= i < |dicts| => Get(dicts[i], key))
  }

  /** Plucking distributes over concatenation of the lists. */
  lemma PluckConcat(a: seq<Dict>, b: seq<Dict>, key: Value)
    ensures Pluck(a + b, key) == Pluck(a, key) + Pluck(b, key)
  {
  }

  /** `get_item`: the argument may be `None` or any dictionary; only a
      non-empty dictionary and a truthy key are looked up, and a missing key
      maps to itself. */
  function GetItem(dictionary: Option<Dict>, key: Value): (r: Value)
    ensures (dictionary.Some? && dictionary.value != map[] && Truthy(key) && key in dictionary.value)
            ==> r == dictionary.value[key]
    ensures (dictionary.Some? && dictionary.value != map[] && Truthy(key) && key !in dictionary.value)
            ==> r == key
    ensures dictionary.None? || dictionary.value == map[] || !Truthy(key) ==> r == key
  {
    if dictionary.Some? && dictionary.value != map[] && Truthy(key) then
      if key in dictionary.value then dictionary.value[key] else key
    else key
  }

  /** `get_item` returns something other than the key only for a present key
      mapped to a different value. */
  lemma GetItemChangesOnlyPresentKeys(dictionary: Option<Dict>, key: Value)
    ensures GetItem(dictionary, key) != key
            ==> (dictionary.Some? && key in dictionary.value && dictionary.value[key] == GetItem(dictionary, key))
  {
  }
}
