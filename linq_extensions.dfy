/** The IndexOf extension over an enumerable: a linear search with a
    caller-chosen result for "not found". */
module LinqExtensions {

  /** The position of the first element equal to `item`, or `defaultValue`
      (-1 unless given) when there is none. */
  method IndexOf<T(==)>(list: seq<T>, item: T, defaultValue: int := -1) returns (index: int)
    ensures item in list ==>
      && 0 <= index < |list| && list[index] == item
      && forall j :: 0 <= j < index ==> list[j] != item
    ensures item !in list ==> index == defaultValue
  {
    var i := 0;
    while i < |list|
      invariant i <= |list|
      invariant forall j :: 0 <= j < i ==> list[j] != item
    {
      if list[i] == item {
        return i;
      }
      i := i + 1;
    }
    return defaultValue;
  }

  /** IndexOf with the default left out answers -1 for a missing item. */
  method IndexOfOrMinusOne<T(==)>(list: seq<T>, item: T) returns (index: int)
    ensures item in list ==> 0 <= index < |list| && list[index] == item
    ensures item !in list ==> index == -1
  {
    index := IndexOf(list, item);
  }
}
