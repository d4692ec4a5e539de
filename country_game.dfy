// One countries grid in play (geo.js): nine cells, nine guesses, and the set
// of countries already placed. The board's records and its three row and
// three column labels are fixed when the grid is built.

module CountryGame {
  import opened Wrappers
  import opened Text
  import opened Countries
  import opened Board

  /** `/name/.test((label || "").toLowerCase())`: the label mentions "name". */
  predicate NameLabel(title: Option<string>) {
    Contains(Lower(title.GetOr("")), "name")
  }

  /** How `handleGuess` counts a row or a column as satisfied: the matcher
      holds, or the label mentions "name" (geo.js:432-433). */
  predicate Satisfies(k: Country, title: Option<string>) {
    MatchGeoLabel(Some(k), title) || NameLabel(title)
  }

  /** Whether country `k` belongs in cell `c`: it satisfies both of the
      cell's labels. */
  predicate Fits(records: seq<Country>, rowLabels: seq<string>, colLabels: seq<string>, c: nat, k: Country) {
    k in records && Satisfies(k, RowLabel(rowLabels, c)) && Satisfies(k, ColLabel(colLabels, c))
  }

  /** Some country of that name fits cell `c`. */
  ghost predicate Placeable(records: seq<Country>, rowLabels: seq<string>, colLabels: seq<string>, c: nat, name: string) {
    exists k: Country :: k.name == name && Fits(records, rowLabels, colLabels, c, k)
  }

  /** Every name on the board is that of a country that fits its cell. */
  ghost predicate AllPlaceable(records: seq<Country>, rowLabels: seq<string>, colLabels: seq<string>,
                               cells: seq<Option<string>>)
  {
    forall c :: 0 <= c < |cells| && cells[c].Some? ==> Placeable(records, rowLabels, colLabels, c, cells[c].value)
  }

  /** Placing a country in a cell it fits keeps every name placeable. */
  lemma PlacingKeepsPlaceable(records: seq<Country>, rowLabels: seq<string>, colLabels: seq<string>,
                              cells: seq<Option<string>>, c: nat, k: Country)
    requires AllPlaceable(records, rowLabels, colLabels, cells) && c < |cells|
    requires Fits(records, rowLabels, colLabels, c, k)
    ensures AllPlaceable(records, rowLabels, colLabels, cells[c := Some(k.name)])
  {
    var cells' := cells[c := Some(k.name)];
    forall d | 0 <= d < |cells'| && cells'[d].Some?
      ensures Placeable(records, rowLabels, colLabels, d, cells'[d].value)
    {
      if d == c {
        assert Placeable(records, rowLabels, colLabels, c, k.name);
      } else {
        assert cells'[d] == cells[d];
      }
    }
  }

  class Session {
    const records: seq<Country>
    const rowLabels: seq<string>
    const colLabels: seq<string>
    var guessesLeft: nat
    /** `usedEntities`: the names already placed. */
    var used: set<string>
    /** What each of the nine cells shows: the name placed there, if any. */
    var cells: seq<Option<string>>

    /** Nine cells; every placed name is marked used, no name sits in two
        cells, and each placed name is that of a country that fits its cell. */
    ghost predicate Valid()
      reads this
    {
      Layout(cells, used) && AllPlaceable(records, rowLabels, colLabels, cells)
    }

    /** A fresh grid: nine guesses, nothing placed. */
    constructor (records: seq<Country>, rowLabels: seq<string>, colLabels: seq<string>)
      ensures Valid()
      ensures this.records == records && this.rowLabels == rowLabels && this.colLabels == colLabels
      ensures guessesLeft == 9 && used == {} && cells == seq(9, _ => None)
    {
      this.records := records;
      this.rowLabels := rowLabels;
      this.colLabels := colLabels;
      guessesLeft := 9;
      used := {};
      cells := seq(9, _ => None);
    }

    /** `handleGuess` on cell `c` (geo.js:399-444), with the lookup reading
        each country's alias list. Every guess costs one (the count stops at
        0); an unknown or already used country changes nothing else; a
        country that satisfies both of the cell's labels is placed in it. */
    method Guess(c: nat, input: string) returns (placed: bool)
      requires Valid() && c < 9
      modifies this
      ensures Valid()
      ensures guessesLeft == if old(guessesLeft) > 0 then old(guessesLeft) - 1 else 0
      ensures var m := FindCountry(records, input);
              placed <==> m.Some? && m.value.name !in old(used)
                          && Satisfies(m.value, RowLabel(rowLabels, c)) && Satisfies(m.value, ColLabel(colLabels, c))
      ensures placed ==>
                var name := FindCountry(records, input).value.name;
                cells == old(cells)[c := Some(name)] && used == old(used) + {name}
      ensures !placed ==> cells == old(cells) && used == old(used)
    {
      var found := FindCountry(records, input);
      guessesLeft := if guessesLeft > 0 then guessesLeft - 1 else 0;
      if found.None? || found.value.name in used {
        return false;
      }
      var k := found.value;
      placed := Fitting(c, k);
      if placed {
        Place(c, k);
      }
    }

    /** `okRow && okCol`, each written as the page writes it: when the label
        matches or names a name, `true`, and otherwise the matcher again. The
        second test adds nothing, so a side holds exactly when `Satisfies`
        does. */
    method Fitting(c: nat, k: Country) returns (ok: bool)
      ensures ok == (Satisfies(k, RowLabel(rowLabels, c)) && Satisfies(k, ColLabel(colLabels, c)))
    {
      var row := RowLabel(rowLabels, c);
      var col := ColLabel(colLabels, c);
      var okRow := if MatchGeoLabel(Some(k), row) || NameLabel(row) then true else MatchGeoLabel(Some(k), row);
      var okCol := if MatchGeoLabel(Some(k), col) || NameLabel(col) then true else MatchGeoLabel(Some(k), col);
      ok := okRow && okCol;
    }

    /** Shows `k` in cell `c` and marks the name used. */
    method Place(c: nat, k: Country)
      requires Valid() && c < 9 && k.name !in used
      requires Fits(records, rowLabels, colLabels, c, k)
      modifies this`cells, this`used
      ensures Valid()
      ensures cells == old(cells)[c := Some(k.name)] && used == old(used) + {k.name}
    {
      PlacingKeepsLayout(cells, used, c, k.name);
      PlacingKeepsPlaceable(records, rowLabels, colLabels, cells, c, k);
      cells := cells[c := Some(k.name)];
      used := used + {k.name};
    }
  }

  /** Every name on the board is that of a country that satisfies its
      cell's row and column labels. */
  lemma PlacedSatisfiesLabels(s: Session, c: nat)
    requires s.Valid() && c < 9 && s.cells[c].Some?
    ensures exists k: Country :: k.name == s.cells[c].value && k in s.records
              && Satisfies(k, RowLabel(s.rowLabels, c)) && Satisfies(k, ColLabel(s.colLabels, c))
  {
    var k: Country :| k.name == s.cells[c].value && Fits(s.records, s.rowLabels, s.colLabels, c, k);
  }

  /** A label that mentions "name" in any case is satisfied by every
      country, whatever the matcher says of it. */
  lemma NameLabelAcceptsEveryCountry(k: Country, title: string)
    requires Contains(Lower(title), "name")
    ensures Satisfies(k, Some(title))
  {
  }
}
