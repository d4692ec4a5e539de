/** The 3x3 board both games share: cells are numbered 0..8 row by row, and
    each cell reads the label of its row and the label of its column from the
    page. */
module Board {
  import opened Wrappers

  /** `document.querySelectorAll(...)[i]?.textContent`: the i-th label, or
      nothing when there is no such label. */
  function LabelAt(labels: seq<string>, i: int): (r: Option<string>)
    ensures r.Some? <==> 0 <= i < |labels|
    ensures r.Some? ==> r.value == labels[i]
  {
    if 0 <= i < |labels| then Some(labels[i]) else None
  }

  /** The row label of cell `c`: that of row `floor(c / 3)`. */
  function RowLabel(rowLabels: seq<string>, c: nat): Option<string> {
    LabelAt(rowLabels, c / 3)
  }

  /** The column label of cell `c`: that of column `c % 3`. */
  function ColLabel(colLabels: seq<string>, c: nat): Option<string> {
    LabelAt(colLabels, c % 3)
  }

  /** On a full board (three row labels, three column labels) cell `3 * r + k`
      reads the label of row `r` and the label of column `k`. */
  lemma CellReadsItsLabels(rowLabels: seq<string>, colLabels: seq<string>, r: nat, k: nat)
    requires |rowLabels| == 3 && |colLabels| == 3 && r < 3 && k < 3
    ensures RowLabel(rowLabels, 3 * r + k) == Some(rowLabels[r])
    ensures ColLabel(colLabels, 3 * r + k) == Some(colLabels[k])
  {
    assert (3 * r + k) / 3 == r && (3 * r + k) % 3 == k;
  }

  /** What the board shows: nine cells, each empty or holding a name. Every
      shown name is marked used, and no name is shown in two cells. */
  ghost predicate Layout(cells: seq<Option<string>>, used: set<string>) {
    && |cells| == 9
    && (forall c :: 0 <= c < 9 && cells[c].Some? ==> cells[c].value in used)
    && (forall c, d :: 0 <= c < d < 9 && cells[c].Some? ==> cells[c] != cells[d])
  }

  /** Showing a name not yet used in a cell, and marking it used, keeps the
      layout. */
  lemma PlacingKeepsLayout(cells: seq<Option<string>>, used: set<string>, c: nat, name: string)
    requires Layout(cells, used) && c < 9 && name !in used
    ensures Layout(cells[c := Some(name)], used + {name})
  {
    var cells' := cells[c := Some(name)];
    forall d, e | 0 <= d < e < 9 && cells'[d].Some? ensures cells'[d] != cells'[e] {
      if d == c {
        assert cells'[e] == cells[e];
      } else if e == c {
        assert cells'[d] == cells[d];
      } else {
        assert cells'[d] == cells[d] && cells'[e] == cells[e];
      }
    }
  }

  /** The empty board. */
  lemma EmptyLayout()
    ensures Layout(seq(9, _ => None), {})
  {
  }
}
