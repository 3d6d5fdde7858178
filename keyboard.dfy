/**
 * The store keyboard layout of `handle_language` (app.py): the store buttons
 * are split into rows of three, the last row taking what is left.
 */
module Keyboard {

  /** `no_of_cols` */
  const Columns: nat := 3

  /**
   * `[xs[i:i+no_of_cols] for i in range(0, len(xs), no_of_cols)]`: each row
   * takes the next `Columns` buttons, and the last row takes what is left.
   */
  function StoreRows<T>(buttons: seq<T>): (rows: seq<seq<T>>)
    ensures forall k :: 0 <= k < |rows| ==> 0 < |rows[k]| <= Columns
    ensures forall k :: 0 <= k < |rows| - 1 ==> |rows[k]| == Columns
    decreases |buttons|
  {
    if buttons == [] then []
    else if |buttons| <= Columns then [buttons]
    else [buttons[..Columns]] + StoreRows(buttons[Columns..])
  }

  function Flatten<T>(rows: seq<seq<T>>): seq<T> {
    if rows == [] then [] else rows[0] + Flatten(rows[1..])
  }

  /** Reading the rows left to right gives back every button, in order. */
  lemma {:induction false} StoreRowsFlatten<T>(buttons: seq<T>)
    ensures Flatten(StoreRows(buttons)) == buttons
    decreases |buttons|
  {
    if |buttons| > Columns {
      var rest := StoreRows(buttons[Columns..]);
      assert ([buttons[..Columns]] + rest)[1..] == rest;
      StoreRowsFlatten(buttons[Columns..]);
      assert buttons == buttons[..Columns] + buttons[Columns..];
    }
  }

  /**
   * The layout is the only one of its shape: any rows of `Columns` buttons
   * but the last, which holds 1 to `Columns`, that read back as the buttons
   * are the rows `StoreRows` gives.
   */
  lemma {:induction false} StoreRowsUnique<T>(rows: seq<seq<T>>, buttons: seq<T>)
    requires forall k :: 0 <= k < |rows| ==> 0 < |rows[k]| <= Columns
    requires forall k :: 0 <= k < |rows| - 1 ==> |rows[k]| == Columns
    requires Flatten(rows) == buttons
    ensures rows == StoreRows(buttons)
    decreases |rows|
  {
    if rows != [] {
      var tail := rows[1..];
      assert buttons == rows[0] + Flatten(tail);
      if tail == [] {
        assert buttons == rows[0];
        assert rows == [buttons];
      } else {
        assert Flatten(tail) == tail[0] + Flatten(tail[1..]);
        assert |rows[0]| == Columns && |tail[0]| > 0;
        assert buttons[..Columns] == rows[0] && buttons[Columns..] == Flatten(tail);
        forall k | 0 <= k < |tail|
          ensures 0 < |tail[k]| <= Columns
          ensures k < |tail| - 1 ==> |tail[k]| == Columns
        {
          assert tail[k] == rows[k + 1];
        }
        StoreRowsUnique(tail, buttons[Columns..]);
        assert rows == [rows[0]] + tail;
      }
    }
  }
}
