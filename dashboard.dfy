/** What the order and customer dashboards share: the sort and view state with
    its `handleSortChange` / `toggleViewMode` rules, the comparator shapes, and
    the wrapping of a fetched value into a list. */
module Dashboard {
  import opened Js
  import opened Seqs

  datatype Direction = Asc | Desc
  datatype ViewMode = Grid | Table

  /** `sortDirection === 'asc' ? 'desc' : 'asc'`. */
  function Flip(d: Direction): (r: Direction)
    ensures r != d
  {
    if d == Asc then Desc else Asc
  }

  /** `viewMode === 'grid' ? 'table' : 'grid'`. */
  function Other(m: ViewMode): (r: ViewMode)
    ensures r != m
  {
    if m == Grid then Table else Grid
  }

  /** Two toggles restore the view. */
  lemma ToggleTwice(m: ViewMode)
    ensures Other(Other(m)) == m
  {
  }

  /** `handleSortChange(value)`: the same key flips the direction, another key
      is selected ascending. */
  function NextSort(sortBy: string, direction: Direction, value: string): (r: (string, Direction))
    ensures r.0 == value
    ensures value == sortBy ==> r.1 != direction
    ensures value != sortBy ==> r.1 == Asc
  {
    if value == sortBy then (sortBy, Flip(direction)) else (value, Asc)
  }

  /** Choosing the current key twice restores the state. */
  lemma SameKeyTwice(sortBy: string, direction: Direction)
    ensures var once := NextSort(sortBy, direction, sortBy);
      NextSort(once.0, once.1, sortBy) == (sortBy, direction)
  {
  }

  /** Choosing a new key and then it again sorts by it descending, whatever the
      direction was. */
  lemma NewKeyThenAgain(sortBy: string, direction: Direction, value: string)
    requires value != sortBy
    ensures var once := NextSort(sortBy, direction, value);
      NextSort(once.0, once.1, value) == (value, Desc)
  {
  }

  /** The sort and view state of one dashboard. */
  class ViewState {
    var sortBy: string
    var direction: Direction
    var viewMode: ViewMode

    constructor (sortBy: string, direction: Direction)
      ensures this.sortBy == sortBy && this.direction == direction && viewMode == Grid
    {
      this.sortBy := sortBy;
      this.direction := direction;
      viewMode := Grid;
    }

    method HandleSortChange(value: string)
      modifies this
      ensures (sortBy, direction) == NextSort(old(sortBy), old(direction), value)
      ensures viewMode == old(viewMode)
    {
      if value == sortBy {
        direction := if direction == Asc then Desc else Asc;
      } else {
        sortBy := value;
        direction := Asc;
      }
    }

    method ToggleViewMode()
      modifies this
      ensures viewMode == Other(old(viewMode))
      ensures sortBy == old(sortBy) && direction == old(direction)
    {
      viewMode := if viewMode == Grid then Table else Grid;
    }
  }

  /** `asc ? key(a) - key(b) : key(b) - key(a)` over numeric keys. */
  function Numeric<T>(key: T -> int, direction: Direction): (T, T) -> int {
    ByKey(key, direction == Asc)
  }

  /** `asc ? key(a).localeCompare(key(b)) : key(b).localeCompare(key(a))`. */
  function Textual<T>(key: T -> string, direction: Direction, compare: (string, string) -> int): (T, T) -> int {
    (a: T, b: T) => if direction == Asc then compare(key(a), key(b)) else compare(key(b), key(a))
  }

  /** A comparator for an unknown key: every pair compares equal. */
  function Unordered<T>(): (T, T) -> int {
    (a: T, b: T) => 0
  }

  /** Sorting by a numeric key orders the list by it, in the chosen direction. */
  lemma {:induction false} NumericSortOrders<T(!new)>(s: seq<T>, key: T -> int, direction: Direction)
    ensures var r := Sort(s, Numeric(key, direction));
      forall i, j :: 0 <= i < j < |r| ==>
        (direction == Asc ==> key(r[i]) <= key(r[j])) && (direction == Desc ==> key(r[i]) >= key(r[j]))
  {
    var cmp := Numeric(key, direction);
    ByKeyIsTotalPreorder(key, direction == Asc);
    SortSorted(s, cmp);
    var r := Sort(s, cmp);
    forall i, j | 0 <= i < j < |r|
      ensures (direction == Asc ==> key(r[i]) <= key(r[j])) && (direction == Desc ==> key(r[i]) >= key(r[j]))
    {
      assert cmp(r[i], r[j]) <= 0;
    }
  }

  /** `Array.isArray(data) ? data : [data]`: a single value becomes a one-element list. */
  function AsList(data: Json): (r: seq<Json>)
    ensures data.JArr? ==> r == data.items
    ensures !data.JArr? ==> |r| == 1 && r[0] == data
  {
    if data.JArr? then data.items else [data]
  }
}
