// One presidents grid in play (grid.js): nine cells, nine guesses, and the set
// of presidents already placed. The board's records, its three row and three
// column labels and the current year are fixed when the grid is built.

module PresidentGame {
  import opened Wrappers
  import opened Presidents
  import opened Board

  /** Whether `p` belongs in cell `c`: it fits both of the cell's labels. */
  predicate Fits(records: seq<President>, rowLabels: seq<string>, colLabels: seq<string>,
                 currentYear: int, c: nat, p: President)
  {
    p in records && CellAccepts(p, RowLabel(rowLabels, c), ColLabel(colLabels, c), currentYear)
  }

  /** Some president of that name fits cell `c`. */
  ghost predicate Placeable(records: seq<President>, rowLabels: seq<string>, colLabels: seq<string>,
                            currentYear: int, c: nat, name: string)
  {
    exists p: President :: p.name == name && Fits(records, rowLabels, colLabels, currentYear, c, p)
  }

  /** Every name on the board is that of a president who fits its cell. */
  ghost predicate AllPlaceable(records: seq<President>, rowLabels: seq<string>, colLabels: seq<string>,
                               currentYear: int, cells: seq<Option<string>>)
  {
    forall c :: 0 <= c < |cells| && cells[c].Some? ==>
      Placeable(records, rowLabels, colLabels, currentYear, c, cells[c].value)
  }

  /** Placing a president in a cell they fit keeps every name placeable. */
  lemma PlacingKeepsPlaceable(records: seq<President>, rowLabels: seq<string>, colLabels: seq<string>,
                              currentYear: int, cells: seq<Option<string>>, c: nat, p: President)
    requires AllPlaceable(records, rowLabels, colLabels, currentYear, cells) && c < |cells|
    requires Fits(records, rowLabels, colLabels, currentYear, c, p)
    ensures AllPlaceable(records, rowLabels, colLabels, currentYear, cells[c := Some(p.name)])
  {
    var cells' := cells[c := Some(p.name)];
    forall d | 0 <= d < |cells'| && cells'[d].Some?
      ensures Placeable(records, rowLabels, colLabels, currentYear, d, cells'[d].value)
    {
      if d == c {
        assert Placeable(records, rowLabels, colLabels, currentYear, c, p.name);
      } else {
        assert cells'[d] == cells[d];
      }
    }
  }

  class Session {
    const records: seq<President>
    const rowLabels: seq<string>
    const colLabels: seq<string>
    const currentYear: int
    var guessesLeft: nat
    /** `usedPresidents`: the names already placed. */
    var used: set<string>
    /** What each of the nine cells shows: the name placed there, if any. */
    var cells: seq<Option<string>>

    /** Nine cells; every placed name is marked used, no name sits in two
        cells, and each placed name is that of a president who fits its cell. */
    ghost predicate Valid()
      reads this
    {
      Layout(cells, used) && AllPlaceable(records, rowLabels, colLabels, currentYear, cells)
    }

    /** A fresh grid: nine guesses, nothing placed. */
    constructor (records: seq<President>, rowLabels: seq<string>, colLabels: seq<string>, currentYear: int)
      ensures Valid()
      ensures this.records == records && this.rowLabels == rowLabels
      ensures this.colLabels == colLabels && this.currentYear == currentYear
      ensures guessesLeft == 9 && used == {} && cells == seq(9, _ => None)
    {
      this.records := records;
      this.rowLabels := rowLabels;
      this.colLabels := colLabels;
      this.currentYear := currentYear;
      guessesLeft := 9;
      used := {};
      cells := seq(9, _ => None);
    }

    /** `handleGuess` on cell `c` (grid.js:722-761). Every guess costs one
        (the count stops at 0); the typed name is looked up by full or last
        name; an unknown or already used president changes nothing else; a
        president who fits both of the cell's labels is placed in it. */
    method Guess(c: nat, input: string) returns (placed: bool)
      requires Valid() && c < 9
      modifies this
      ensures Valid()
      ensures guessesLeft == if old(guessesLeft) > 0 then old(guessesLeft) - 1 else 0
      ensures var m := FindPresident(records, input);
              placed <==> m.Some? && m.value.name !in old(used)
                          && CellAccepts(m.value, RowLabel(rowLabels, c), ColLabel(colLabels, c), currentYear)
      ensures placed ==>
                var name := FindPresident(records, input).value.name;
                cells == old(cells)[c := Some(name)] && used == old(used) + {name}
      ensures !placed ==> cells == old(cells) && used == old(used)
    {
      var found := FindPresident(records, input);
      guessesLeft := if guessesLeft > 0 then guessesLeft - 1 else 0;
      if found.None? || found.value.name in used {
        return false;
      }
      var p := found.value;
      placed := Fitting(c, p);
      if placed {
        Place(c, p);
      }
    }

    /** `matchMatchesLabel` on the cell's row label and then on its column label. */
    method Fitting(c: nat, p: President) returns (ok: bool)
      ensures ok == CellAccepts(p, RowLabel(rowLabels, c), ColLabel(colLabels, c), currentYear)
    {
      ok := MatchesLabel(Some(p), RowLabel(rowLabels, c), currentYear)
            && MatchesLabel(Some(p), ColLabel(colLabels, c), currentYear);
    }

    /** Shows `p` in cell `c` and marks the name used. */
    method Place(c: nat, p: President)
      requires Valid() && c < 9 && p.name !in used
      requires Fits(records, rowLabels, colLabels, currentYear, c, p)
      modifies this`cells, this`used
      ensures Valid()
      ensures cells == old(cells)[c := Some(p.name)] && used == old(used) + {p.name}
    {
      PlacingKeepsLayout(cells, used, c, p.name);
      PlacingKeepsPlaceable(records, rowLabels, colLabels, currentYear, cells, c, p);
      cells := cells[c := Some(p.name)];
      used := used + {p.name};
    }

    /** The give-up button (grid.js:589-594): no guesses remain. */
    method GiveUp()
      requires Valid()
      modifies this`guessesLeft
      ensures Valid() && guessesLeft == 0
    {
      guessesLeft := 0;
    }
  }

  /** Every name on the board is one of the answers the "view answers" list
      shows for its cell. */
  lemma PlacedIsValidAnswer(s: Session, c: nat)
    requires s.Valid() && c < 9 && s.cells[c].Some?
    ensures exists p: President :: p.name == s.cells[c].value
              && p in ValidAnswers(s.records, RowLabel(s.rowLabels, c), ColLabel(s.colLabels, c), s.currentYear)
  {
    var p: President :| p.name == s.cells[c].value && Fits(s.records, s.rowLabels, s.colLabels, s.currentYear, c, p);
    assert p in ValidAnswers(s.records, RowLabel(s.rowLabels, c), ColLabel(s.colLabels, c), s.currentYear);
  }
}
