/** Python dictionaries keyed by resource name: their value semantics and a heap object holding one. */
module Dicts {
  import opened Wrappers

  /**
   * The contents of `m` after `m.update(update)`: every key of `update` takes
   * its value from `update` (the later write wins), every other key of `m`
   * keeps its value, and no other key appears.
   */
  function Merge<V>(m: map<string, V>, update: map<string, V>): (r: map<string, V>)
    ensures r.Keys == m.Keys + update.Keys
    ensures forall k :: k in update ==> r[k] == update[k]
    ensures forall k :: k in m && k !in update ==> r[k] == m[k]
  {
    m + update
  }

  /** A mutable dictionary object; two references to one Dict see the same entries. */
  class Dict<V> {
    var entries: map<string, V>

    /** `{}`: a new, empty dictionary. */
    constructor ()
      ensures entries == map[]
    {
      entries := map[];
    }

    /** `dict.update`, in place. */
    method Update(update: map<string, V>)
      modifies this
      ensures entries == Merge(old(entries), update)
    {
      entries := Merge(entries, update);
    }
  }

  /**
   * Python's `d or {}` on an optional dictionary: the object itself when it is
   * present and non-empty, otherwise a new empty dictionary.
   */
  method OrEmpty<V>(d: Option<Dict<V>>) returns (r: Dict<V>)
    ensures d.Some? && d.value.entries != map[] ==> r == d.value
    ensures d.None? || d.value.entries == map[] ==> fresh(r) && r.entries == map[]
  {
    if d.Some? && d.value.entries != map[] {
      r := d.value;
    } else {
      r := new Dict();
    }
  }
}
