/** Small shared datatypes used by every screen of the dashboard model. */
module Common {

  /** A value that may be absent: JavaScript's `undefined`/`null` for optional fields. */
  datatype Option<+T> = None | Some(value: T)

  /** A list filter as the screens' select boxes hold it: the sentinel 'all', or one concrete value. */
  datatype Choice<+T> = All | Only(choice: T)

  /** `filter === 'all' || item.field === filter` */
  predicate Admits<T(==)>(c: Choice<T>, v: T)
  {
    match c
    case All => true
    case Only(w) => w == v
  }

  /** A sort request of a table header: the column key and its direction. */
  datatype Direction = Asc | Desc
  datatype SortConfig<+K> = SortConfig(key: K, direction: Direction)

  /** `requestSort`/`handleSort` of the list screens: descending only when the same key is currently
      sorted ascending, ascending in every other case (no sort yet, other key, or currently descending). */
  function RequestSort<K(==)>(current: Option<SortConfig<K>>, key: K): (r: SortConfig<K>)
    ensures r.key == key
    ensures r.direction == Desc <==> current.Some? && current.value.key == key && current.value.direction == Asc
  {
    match current
    case Some(SortConfig(k, Asc)) => if k == key then SortConfig(key, Desc) else SortConfig(key, Asc)
    case _ => SortConfig(key, Asc)
  }

  /** Two clicks on a fresh column give descending order; a third click returns to ascending. */
  lemma RequestSortCycle<K>(key: K)
    ensures RequestSort(None, key).direction == Asc
    ensures RequestSort(Some(RequestSort(None, key)), key).direction == Desc
    ensures RequestSort(Some(RequestSort(Some(RequestSort(None, key)), key)), key).direction == Asc
  {
  }
}
