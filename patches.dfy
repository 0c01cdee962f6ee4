/**
 * Settings dictionaries are updated shallowly with `dict.update`. A plugin's
 * settings are a record with one field per key, and a patch is the same record
 * with optional fields: `None` stands for a key absent from the patch.
 */
module Patches {

  datatype Option<T> = None | Some(value: T)

  /**
   * One setting after a shallow `dict.update`: a key present in the patch
   * overwrites the stored value, an absent key leaves it as it was.
   */
  function Override<T>(current: T, patch: Option<T>): (r: T)
    ensures patch.None? ==> r == current
    ensures patch.Some? ==> r == patch.value
  {
    if patch.Some? then patch.value else current
  }

  /** Two patches applied one after the other equal one patch in which the later wins. */
  function Then<T>(first: Option<T>, second: Option<T>): Option<T>
  {
    if second.Some? then second else first
  }

  lemma OverrideThen<T>(current: T, first: Option<T>, second: Option<T>)
    ensures Override(Override(current, first), second) == Override(current, Then(first, second))
    ensures Override(Override(current, first), first) == Override(current, first)
  {
  }
}
