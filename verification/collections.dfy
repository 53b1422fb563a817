/** The mutable list the chat panel keeps its messages in. */
module Collections {

  /** The message of the ArgumentOutOfRangeException that Collection<T> and List<T> raise
      for an index that is not that of an element. */
  const IndexOutOfRangeMessage: string :=
    "Index was out of range. Must be non-negative and less than the size of the collection.\r\nParameter name: index"

  /**
   * System.Collections.ObjectModel.ObservableCollection<T>: an ordered list changed in
   * place (its change notifications are not modelled).
   */
  class ObservableList<T> {
    var items: seq<T>

    constructor ()
      ensures items == []
    {
      items := [];
    }

    method Add(x: T)
      modifies this
      ensures items == old(items) + [x]
    {
      items := items + [x];
    }

    /** RemoveAt raises ArgumentOutOfRangeException, reported here as ok == false,
        when the index is not that of an element. */
    method RemoveAt(index: int) returns (ok: bool)
      modifies this
      ensures ok == (0 <= index < |old(items)|)
      ensures items == if ok then old(items)[..index] + old(items)[index + 1..] else old(items)
    {
      ok := 0 <= index < |items|;
      if ok {
        items := items[..index] + items[index + 1..];
      }
    }

    method Clear()
      modifies this
      ensures items == []
    {
      items := [];
    }
  }
}
