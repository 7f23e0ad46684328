/**
 * Building the `IN (...)` list of a batched query: `','.join([piece] * n)` and
 * the number of `%s` parameter markers in the result, which must match the
 * number of values passed to `cursor.execute`.
 */
module Placeholders {

  /** `','.join([piece] * n)`. */
  function JoinRepeat(piece: string, n: nat): string {
    if n == 0 then ""
    else if n == 1 then piece
    else JoinRepeat(piece, n - 1) + "," + piece
  }

  /** The number of `%s` markers in `s`. */
  function Markers(s: string): nat {
    if |s| < 2 then 0
    else Markers(s[..|s| - 1]) + (if s[|s| - 2] == '%' && s[|s| - 1] == 's' then 1 else 0)
  }

  /** No marker straddles `a + b` when `a` does not end in `%`. */
  lemma {:induction false} MarkersAppend(a: string, b: string)
    requires a == [] || a[|a| - 1] != '%'
    ensures Markers(a + b) == Markers(a) + Markers(b)
    decreases |b|
  {
    if b == [] {
      assert a + b == a;
    } else {
      var init := b[..|b| - 1];
      assert (a + b)[..|a + b| - 1] == a + init;
      MarkersAppend(a, init);
      if |b| == 1 {
        assert Markers(b) == 0;
        if |a| >= 1 {
          assert (a + b)[|a + b| - 2] == a[|a| - 1];
        }
      } else {
        assert (a + b)[|a + b| - 2] == b[|b| - 2];
        assert (a + b)[|a + b| - 1] == b[|b| - 1];
        assert b[..|b| - 1] == init;
      }
    }
  }

  /**
   * `n` copies of a piece that does not end in `%` carry `n` times its markers,
   * and the list is non-empty and ends like the piece when `n > 0`.
   */
  lemma {:induction false} JoinRepeatMarkers(piece: string, n: nat)
    requires piece != [] && piece[|piece| - 1] != '%'
    ensures Markers(JoinRepeat(piece, n)) == n * Markers(piece)
    ensures n > 0 ==> JoinRepeat(piece, n) != [] && JoinRepeat(piece, n)[|JoinRepeat(piece, n)| - 1] == piece[|piece| - 1]
  {
    if n > 1 {
      var prev := JoinRepeat(piece, n - 1);
      JoinRepeatMarkers(piece, n - 1);
      MarkersAppend(prev, ",");
      MarkersAppend(prev + ",", piece);
      assert Markers(",") == 0;
      var next := prev + "," + piece;
      assert JoinRepeat(piece, n) == next;
      assert n * Markers(piece) == (n - 1) * Markers(piece) + Markers(piece);
      assert next[|next| - 1] == piece[|piece| - 1];
    }
  }

  /** The `IN` list of `fetch_and_insert_relay_data`: one `%s` per deposit id. */
  function InList(n: nat): (q: string)
    ensures Markers(q) == n
  {
    JoinRepeatMarkers("%s", n);
    assert Markers("%s") == 1 by { assert "%s"[..1] == "%"; }
    JoinRepeat("%s", n)
  }

  /** The row-constructor list of `insert_relay_data`: one `(%s,%s)` per combination. */
  function PairList(n: nat): (q: string)
    ensures Markers(q) == 2 * n
  {
    JoinRepeatMarkers("(%s,%s)", n);
    assert Markers("(%s,%s)") == 2 by {
      assert "(%s,%s)"[..6] == "(%s,%s";
      assert "(%s,%s"[..5] == "(%s,%";
      assert "(%s,%"[..4] == "(%s,";
      assert "(%s,"[..3] == "(%s";
      assert "(%s"[..2] == "(%";
      assert "(%"[..1] == "(";
    }
    JoinRepeat("(%s,%s)", n)
  }
}
