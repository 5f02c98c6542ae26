/** Editing the remembered layout by hand: what the settings page allows, and what that guarantees the server. */
module Presenter {
  import opened Core
  import opened Config

  ghost predicate CellsDistinct(layouts: seq<ScreenLayout>) {
    forall i, j :: 0 <= i < j < |layouts| ==> layouts[i].cell != layouts[j].cell
  }

  /** Some row other than the ignored one has the cell. */
  predicate Occupied(layouts: seq<ScreenLayout>, cell: GridPosition, ignored: nat) {
    exists i :: 0 <= i < |layouts| && i != ignored && layouts[i].cell == cell
  }

  /** Two remembered screens never get the same cell. */
  lemma RememberedCellsDiffer(layouts: seq<ScreenLayout>, a: ScreenKey, b: ScreenKey)
    requires CellsDistinct(layouts) && a != b
    requires FindLayout(layouts, a).Some? && FindLayout(layouts, b).Some?
    ensures FindLayout(layouts, a) != FindLayout(layouts, b)
  {
    assert LayoutIndex(layouts, a) != LayoutIndex(layouts, b);
  }

  class SettingsPresenter {
    var screens: seq<ScreenLayout>
    var hasError: bool

    constructor ()
      ensures CellsDistinct(screens) && screens == [] && !hasError
    {
      screens := [];
      hasError := false;
    }

    method CellIsOccupied(cell: GridPosition, ignoredRow: Option<nat>) returns (occupied: bool)
      ensures occupied <==> Occupied(screens, cell, if ignoredRow.Some? then ignoredRow.value else |screens|)
    {
      for row := 0 to |screens|
        invariant forall i :: 0 <= i < row && ignoredRow != Some(i) ==> screens[i].cell != cell
      {
        if ignoredRow == Some(row) {
          continue;
        }
        if screens[row].cell == cell {
          return true;
        }
      }
      return false;
    }

    /** Places a screen, or moves it if it is already listed; refused when another row has the cell. */
    method AddScreen(ownerId: string, screenIndex: int, x: int, y: int)
      modifies this
      ensures old(CellsDistinct(screens)) ==> CellsDistinct(screens)
      ensures hasError <==>
              (|| ownerId == "" || screenIndex < 0
               || Occupied(old(screens), GridPosition(x, y),
                           LayoutIndex(old(screens), ScreenKey(ownerId, screenIndex))))
      ensures hasError ==> screens == old(screens)
      ensures !hasError ==>
                var key := ScreenKey(ownerId, screenIndex);
                && FindLayout(screens, key) == Some(GridPosition(x, y))
                && forall k :: k != key ==> FindLayout(screens, k) == FindLayout(old(screens), k)
    {
      if ownerId == "" || screenIndex < 0 {
        hasError := true;
        return;
      }
      var key := ScreenKey(ownerId, screenIndex);
      var existingRow: Option<nat> := None;
      for row := 0 to |screens|
        invariant existingRow.None? && screens == old(screens)
        invariant forall i :: 0 <= i < row ==> screens[i].key != key
      {
        if screens[row].key == key {
          existingRow := Some(row);
          LayoutIndexUnique(screens, key, row);
          break;
        }
      }
      var occupied := CellIsOccupied(GridPosition(x, y), existingRow);
      if occupied {
        hasError := true;
        return;
      }
      forall k ensures FindLayout(UpsertLayout(screens, ScreenLayout(key, GridPosition(x, y))), k)
                    == if k == key then Some(GridPosition(x, y)) else FindLayout(screens, k) {
        FindAfterUpsert(screens, ScreenLayout(key, GridPosition(x, y)), k);
      }
      screens := UpsertLayout(screens, ScreenLayout(key, GridPosition(x, y)));
      hasError := false;
    }

    method MoveScreen(row: int, x: int, y: int)
      modifies this
      ensures old(CellsDistinct(screens)) ==> CellsDistinct(screens)
      ensures hasError <==> !(0 <= row < |old(screens)|) || Occupied(old(screens), GridPosition(x, y), row)
      ensures screens == if hasError then old(screens)
                         else old(screens)[row := old(screens)[row].(cell := GridPosition(x, y))]
    {
      if row < 0 || row >= |screens| {
        hasError := true;
        return;
      }
      var occupied := CellIsOccupied(GridPosition(x, y), Some(row));
      if occupied {
        hasError := true;
        return;
      }
      screens := screens[row := screens[row].(cell := GridPosition(x, y))];
      hasError := false;
    }

    method RemoveScreen(row: int)
      modifies this
      ensures old(CellsDistinct(screens)) ==> CellsDistinct(screens)
      ensures hasError <==> !(0 <= row < |old(screens)|)
      ensures screens == if hasError then old(screens) else old(screens)[..row] + old(screens)[row + 1..]
    {
      if row < 0 || row >= |screens| {
        hasError := true;
        return;
      }
      screens := screens[..row] + screens[row + 1..];
      hasError := false;
    }
  }
}
