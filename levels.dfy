/**
 * The seven fader stops of the mixer and the dB strings it accepts for them
 * (`levels()` in xr12/xair.go), and the `range` scan the actions use to look a stop up.
 */
module Levels {
  import opened Wrappers
  import opened Format

  const Level1: int := 1
  const Level2: int := 2
  const Level3: int := 3
  const Level4: int := 4
  const Level5: int := 5
  const Level6: int := 6
  const Level7: int := 7

  /** The table, built by one insert per stop. */
  function LevelTable(): map<int, string>
  {
    map[][Level1 := "-35"][Level2 := "-15"][Level3 := "-5"][Level4 := "-2.4"]
         [Level5 := "0"][Level6 := "2.4"][Level7 := "5"]
  }

  /** The table has exactly the stops 1..7, with these strings in this order. */
  lemma LevelTableContents()
    ensures LevelTable().Keys == {1, 2, 3, 4, 5, 6, 7}
    ensures LevelTable()[1] == "-35" && LevelTable()[2] == "-15" && LevelTable()[3] == "-5"
    ensures LevelTable()[4] == "-2.4" && LevelTable()[5] == "0" && LevelTable()[6] == "2.4"
    ensures LevelTable()[7] == "5"
  {
  }

  /** The dB string for a stop; any integer outside the table has none. */
  function LevelDb(level: int): (db: Option<string>)
    ensures db.Some? <==> 1 <= level <= 7
    ensures db.Some? ==> IsAscii(db.value) && db.value != ""
  {
    if level in LevelTable() then Some(LevelTable()[level]) else None
  }

  /** Distinct stops have distinct dB strings. */
  lemma LevelDbInjective(l1: int, l2: int)
    requires LevelDb(l1).Some? && LevelDb(l1) == LevelDb(l2)
    ensures l1 == l2
  {
  }

  /**
   * An order in which `range` may visit the table: Go leaves it unspecified, so the
   * model accepts any listing of exactly the table's keys.
   */
  ghost predicate IsRangeOrder(order: seq<int>)
  {
    forall k :: k in order <==> k in LevelTable()
  }

  /**
   * `for i, value := range levels() { if level == i { ... return } }`: visits the keys
   * in `order` and stops at the first one equal to `level`. At most one key matches,
   * so the result does not depend on the order.
   */
  method FindLevel(order: seq<int>, level: int) returns (db: Option<string>)
    requires IsRangeOrder(order)
    ensures db == LevelDb(level)
  {
    var levels := LevelTable();
    for k := 0 to |order|
      invariant forall j :: 0 <= j < k ==> order[j] != level
    {
      var i := order[k];
      var value := levels[i];
      if level == i {
        return Some(value);
      }
    }
    return None;
  }
}
