/** The country grid's label matcher, `matchGeoLabel` (geo.js:149-252), and
    the two cell readers its loader uses, `yes` and `num` (geo.js:65-69). */
module Countries {
  import opened Wrappers
  import opened Text
  import opened Search
  import opened Scan
  import Label

  // ----- Records -----

  /** One loaded country row (geo.js:100-134), with the lower-cased copies the
      matcher reads. `aliasesLc` is the alias list the guess lookup reads. */
  datatype Country = Country(
    name: string,
    nameLc: string,
    capitalLc: string,
    continentLc: string,
    regionLc: string,
    populationRank: Option<int>,
    areaRank: Option<int>,
    borderCount: Option<int>,
    nameInCapital: bool,
    landlocked: bool,
    onEquator: bool,
    islandNation: bool,
    bordersChina: bool,
    bordersRussia: bool,
    hostsOlympics: bool,
    worldCupWinner: bool,
    nato: bool,
    primaryReligion: string,
    aliasesLc: seq<string>)

  // ----- Cell readers -----

  /** `yes(v)`: the trimmed, lower-cased cell reads "yes". A missing cell is "". */
  predicate Yes(v: string) {
    Lower(Trim(v)) == "yes"
  }

  predicate NumChar(c: char) { IsDigit(c) || c == '-' }

  /** `String(v).replace(/[^0-9-]/g, "")`. */
  function KeepNumChars(s: string): (r: string)
    ensures |r| <= |s|
    ensures forall i :: 0 <= i < |r| ==> NumChar(r[i])
  {
    if s == [] then []
    else if NumChar(s[0]) then [s[0]] + KeepNumChars(s[1..])
    else KeepNumChars(s[1..])
  }

  /** `parseInt(k, 10)` on a string of digits and minus signs: an optional
      leading minus, then the run of digits; no digit there is `NaN`. */
  function ParseInt(k: string): Option<int> {
    if |k| > 0 && k[0] == '-' then
      var d := DigitEnd(k, 1);
      if d == 1 then None else Some(-(DigitsValue(k[1..d]) as int))
    else
      var d := DigitEnd(k, 0);
      if d == 0 then None else Some(DigitsValue(k[..d]))
  }

  /** `num(v)`: the integer the cell spells once everything but digits and
      minus signs is dropped, or nothing when that is not a number. */
  function Num(v: string): Option<int> {
    ParseInt(KeepNumChars(v))
  }

  // ----- Recognisers -----

  /** The seven continents of the continent rule, in the order the
      alternation lists them. */
  const Continents: seq<string> :=
    ["africa", "asia", "europe", "oceania", "north america", "south america", "antarctica"]

  /** The first continent name that starts at `w`. */
  function ContinentNameAt(l: string, w: nat, k: nat): (r: Option<string>)
    decreases |Continents| - k
    ensures r.Some? ==> r.value in Continents && StartsAt(l, w, r.value)
  {
    if k >= |Continents| then None
    else if StartsAt(l, w, Continents[k]) then Some(Continents[k])
    else ContinentNameAt(l, w, k + 1)
  }

  /** `\s*(africa|asia|...)` from `q`. */
  function ContinentTail(l: string, q: nat): (r: Option<string>)
    ensures r.Some? ==> r.value in Continents && Contains(l, r.value)
  {
    if q > |l| then None else ContinentNameAt(l, WsEnd(l, q), 0)
  }

  /** The end of the run of `:` and ` ` characters that starts at `i`. */
  function ColonSpaceEnd(s: string, i: nat): (r: nat)
    requires i <= |s|
    decreases |s| - i
    ensures i <= r <= |s|
    ensures forall k :: i <= k < r ==> s[k] == ':' || s[k] == ' '
    ensures r < |s| ==> s[r] != ':' && s[r] != ' '
  {
    if i < |s| && (s[i] == ':' || s[i] == ' ') then ColonSpaceEnd(s, i + 1) else i
  }

  /** `(?:in|continent[: ]+)\s*(africa|...|antarctica)` tried at `p`. Giving
      back characters of `[: ]+` never helps: what it gives back is a space,
      which `\s*` takes again, or a colon, which no continent starts with. */
  function ContinentAt(l: string, p: nat): (r: Option<string>)
    ensures r.Some? ==> r.value in Continents && Contains(l, r.value)
  {
    if StartsAt(l, p, "in") && ContinentTail(l, p + 2).Some? then ContinentTail(l, p + 2)
    else if StartsAt(l, p, "continent") then
      var e := ColonSpaceEnd(l, p + 9);
      if e == p + 9 then None else ContinentTail(l, e)
    else None
  }

  /** The continent the label names, at the leftmost match. */
  function ContinentOf(l: string): (r: Option<string>)
    ensures r.Some? ==> r.value in Continents && Contains(l, r.value)
  {
    var c := FirstCapture(0, |l|, (p: nat) => ContinentAt(l, p));
    assert c.Some? ==> c.value in Continents && Contains(l, c.value) by {
      if c.Some? {
        var p :| 0 <= p <= |l| && ContinentAt(l, p) == c;
      }
    }
    c
  }

  /** `\s*([cls]+)` from `j`; when no class character follows the spaces,
      the last space is given back to the capture. */
  function SpacedCaptureAt(l: string, j: nat, cls: CharClass): Option<string> {
    if j > |l| then None
    else
      var w := WsEnd(l, j);
      if w < |l| && InClass(cls, l[w]) then Some(l[w..ClassEnd(l, w, cls)])
      else if w > j then Some(l[w - 1..w])
      else None
  }

  /** `region[: ]+\s*([a-z\s-]+)` tried at `p`: `[: ]+` is greedy, so the
      longest run is tried first and then each shorter one. */
  function RegionAt(l: string, p: nat): (r: Option<string>)
    ensures r.Some? ==> StartsAt(l, p, "region")
  {
    if !StartsAt(l, p, "region") then None
    else
      var q := p + 6;
      var e := ColonSpaceEnd(l, q);
      if e == q then None
      else LastCapture(q + 1, e, (j: nat) => SpacedCaptureAt(l, j, RegionChars))
  }

  /** The region text of the label, at the leftmost match. */
  function RegionOf(l: string): (r: Option<string>)
    ensures r.Some? ==> Contains(l, "region")
  {
    var c := FirstCapture(0, |l|, (p: nat) => RegionAt(l, p));
    assert c.Some? ==> Contains(l, "region") by {
      if c.Some? {
        var p :| 0 <= p <= |l| && RegionAt(l, p) == c;
        ContainsAt(l, "region", p);
      }
    }
    c
  }

  /** `key\s*(?:between|from)\s*(\d+)\s*(?:and|to|-|–)\s*(\d+)` tried at `p`. */
  function KeyBetweenAt(l: string, p: nat, key: string): (r: Option<(nat, nat)>)
    ensures r.Some? ==> StartsAt(l, p, key)
  {
    if StartsAt(l, p, key) then BetweenTail(l, p + |key|) else None
  }

  /** The two numbers of the leftmost `key … between A and B` match. */
  function KeyBetween(l: string, key: string): (r: Option<(nat, nat)>)
    ensures r.Some? ==> Contains(l, key)
  {
    var c := FirstCapture(0, |l|, (p: nat) => KeyBetweenAt(l, p, key));
    assert c.Some? ==> Contains(l, key) by {
      if c.Some? {
        var p :| 0 <= p <= |l| && KeyBetweenAt(l, p, key) == c;
        ContainsAt(l, key, p);
      }
    }
    c
  }

  // ----- Rank filters -----

  /** Which rank `rankMatch` reads, and so which prefix it looks for. */
  datatype RankKind = PopulationRank | AreaRank

  /** Where the rank prefix tried at `p` ends: `population\s*rank` or
      `(?:area\s*rank|largest\s*country(?:\s*rank)?)`. When the optional
      `\s*rank` is present, leaving it out never lets the rest match, since
      every operator that follows starts with another character. */
  function RankPrefixEnd(l: string, p: nat, kind: RankKind): (r: Option<nat>)
    ensures r.Some? ==> p < r.value <= |l|
  {
    match kind
    case PopulationRank =>
      if !StartsAt(l, p, "population") then None
      else
        var w := WsEnd(l, p + 10);
        if StartsAt(l, w, "rank") then Some(w + 4) else None
    case AreaRank =>
      if StartsAt(l, p, "area") then
        var w := WsEnd(l, p + 4);
        if StartsAt(l, w, "rank") then Some(w + 4) else None
      else if StartsAt(l, p, "largest") then
        var w := WsEnd(l, p + 7);
        if !StartsAt(l, w, "country") then None
        else
          var v := WsEnd(l, w + 7);
          if StartsAt(l, v, "rank") then Some(v + 4) else Some(w + 7)
      else None
  }

  /** `prefix\s*op\s*(\d+)` tried at `p`. */
  function RankCmpAt(l: string, p: nat, kind: RankKind, op: string): Option<nat> {
    match RankPrefixEnd(l, p, kind)
    case None => None
    case Some(e) => CmpTail(l, e, op)
  }

  /** The number of the leftmost `prefix\s*op\s*(\d+)` match. */
  function RankCmp(l: string, kind: RankKind, op: string): (r: Option<nat>)
    ensures r.Some? ==> Contains(l, op)
  {
    var c := FirstCapture(0, |l|, (p: nat) => RankCmpAt(l, p, kind, op));
    assert c.Some? ==> Contains(l, op) by {
      if c.Some? {
        var p :| 0 <= p <= |l| && RankCmpAt(l, p, kind, op) == c;
      }
    }
    c
  }

  /** `prefix\s*(?:between|from)…` tried at `p`. */
  function RankBetweenAt(l: string, p: nat, kind: RankKind): Option<(nat, nat)> {
    match RankPrefixEnd(l, p, kind)
    case None => None
    case Some(e) => BetweenTail(l, e)
  }

  /** The two numbers of the leftmost `prefix … between A and B` match. */
  function RankBetween(l: string, kind: RankKind): (r: Option<(nat, nat)>)
    ensures r.Some? ==> Contains(l, "between") || Contains(l, "from")
  {
    var c := FirstCapture(0, |l|, (p: nat) => RankBetweenAt(l, p, kind));
    assert c.Some? ==> Contains(l, "between") || Contains(l, "from") by {
      if c.Some? {
        var p :| 0 <= p <= |l| && RankBetweenAt(l, p, kind) == c;
      }
    }
    c
  }

  /** `rankMatch` (geo.js:222-242): a missing rank never matches; otherwise
      the first operator form the label holds, in the order `=`, `<=`, `>=`,
      `<`, `>`, between, decides; a label with none of them matches nothing. */
  function RankMatch(l: string, kind: RankKind, value: Option<int>): bool {
    if value.None? then false
    else
      var v := value.value;
      if RankCmp(l, kind, "=").Some? then v == RankCmp(l, kind, "=").value
      else if RankCmp(l, kind, "<=").Some? then v <= RankCmp(l, kind, "<=").value
      else if RankCmp(l, kind, ">=").Some? then v >= RankCmp(l, kind, ">=").value
      else if RankCmp(l, kind, "<").Some? then v < RankCmp(l, kind, "<").value
      else if RankCmp(l, kind, ">").Some? then v > RankCmp(l, kind, ">").value
      else if RankBetween(l, kind).Some? then
        Between(v, RankBetween(l, kind).value.0, RankBetween(l, kind).value.1)
      else false
  }

  // ----- The rule chain -----

  /** The yes/no columns the simple rules return unchanged. */
  datatype GeoFlag =
    | Landlocked | IslandNation | OnEquator | BordersChina | BordersRussia
    | HostsOlympics | WorldCupWinner | Nato | NameInCapital

  function FlagValue(c: Country, f: GeoFlag): bool {
    match f
    case Landlocked => c.landlocked
    case IslandNation => c.islandNation
    case OnEquator => c.onEquator
    case BordersChina => c.bordersChina
    case BordersRussia => c.bordersRussia
    case HostsOlympics => c.hostsOlympics
    case WorldCupWinner => c.worldCupWinner
    case Nato => c.nato
    case NameInCapital => c.nameInCapital
  }

  /** The simple yes/no rules in their order (geo.js:181-191). */
  function FlagOf(l: string): Option<GeoFlag> {
    if Contains(l, "landlocked") then Some(Landlocked)
    else if Contains(l, "island nation") then Some(IslandNation)
    else if Contains(l, "on the equator") || Contains(l, "equator") then Some(OnEquator)
    else if Contains(l, "borders china") then Some(BordersChina)
    else if Contains(l, "borders russia") then Some(BordersRussia)
    else if Contains(l, "hosts olympics") || Contains(l, "olympics host") then Some(HostsOlympics)
    else if Contains(l, "world cup winner") then Some(WorldCupWinner)
    else if Contains(l, "nato member") || Contains(l, "nato membership") then Some(Nato)
    else if Contains(l, "country name in capital") then Some(NameInCapital)
    else None
  }

  /** The text rules and the yes/no rules, geo.js:160-196: the verdict of the
      first that fires. */
  function TextRules(c: Country, l: string): Option<bool> {
    match WordCapture(l, "name", Letters)
    case Some(t) => Some(Contains(c.nameLc, Lower(Trim(t))))
    case None =>
      match ContinentOf(l)
      case Some(t) => Some(c.continentLc == t)
      case None =>
        match RegionOf(l)
        case Some(t) => Some(Contains(c.regionLc, Lower(Trim(t))))
        case None =>
          match FlagOf(l)
          case Some(f) => Some(FlagValue(c, f))
          case None =>
            match WordCapture(l, "capital contains", CapitalChars)
            case Some(t) => Some(Contains(c.capitalLc, Lower(Trim(t))))
            case None => None
  }

  /** The border-count rules, geo.js:199-216. Each fires only when the
      country's border count is known; otherwise the next one is tried. */
  function BorderRules(c: Country, l: string): Option<bool> {
    if c.borderCount.None? then None
    else
      var n := c.borderCount.value;
      if CmpInt1(l, "borders", "=").Some? then Some(n == CmpInt1(l, "borders", "=").value)
      else if CmpInt1(l, "borders", ">").Some? then Some(n > CmpInt1(l, "borders", ">").value)
      else if CmpInt1(l, "borders", "<").Some? then Some(n < CmpInt1(l, "borders", "<").value)
      else if KeyBetween(l, "borders").Some? then
        Some(Between(n, KeyBetween(l, "borders").value.0, KeyBetween(l, "borders").value.1))
      else None
  }

  /** The rank rules, geo.js:244-249, and the final `false`. */
  function RankRules(c: Country, l: string): bool {
    if Contains(l, "population rank") then RankMatch(l, PopulationRank, c.populationRank)
    else if Contains(l, "area rank") || Contains(l, "largest country rank") || Contains(l, "largest country") then
      RankMatch(l, AreaRank, c.areaRank)
    else false
  }

  /** The whole chain on a canonical label. */
  function Matches(c: Country, l: string): bool {
    match TextRules(c, l)
    case Some(b) => b
    case None =>
      match BorderRules(c, l)
      case Some(b) => b
      case None => RankRules(c, l)
  }

  /** `matchGeoLabel`: a missing country or a missing or empty label never
      matches; otherwise the canonical form of the label is read. */
  function MatchGeoLabel(c: Option<Country>, raw: Option<string>): (r: bool)
    ensures c.None? || raw.None? || raw == Some("") ==> !r
  {
    if c.None? || raw.None? || raw.value == "" then false
    else Matches(c.value, Label.Normalize(raw.value))
  }

  // ----- The guess lookup -----

  /** A country is named by a guess equal to its lower-case name or to one of
      its aliases. */
  predicate NamedBy(c: Country, guess: string) {
    c.nameLc == guess || guess in c.aliasesLc
  }

  /** `countryData.find(...)` in `handleGuess` (geo.js:400-404), given the
      alias lists. */
  function FindCountry(records: seq<Country>, input: string): (r: Option<Country>)
    ensures r.Some? ==> r.value in records && NamedBy(r.value, Lower(input))
    ensures r.None? <==> forall j :: 0 <= j < |records| ==> !NamedBy(records[j], Lower(input))
    ensures r.Some? ==>
      exists i :: 0 <= i < |records| && records[i] == r.value &&
        forall j :: 0 <= j < i ==> !NamedBy(records[j], Lower(input))
  {
    if records == [] then None
    else if NamedBy(records[0], Lower(input)) then Some(records[0])
    else
      var r := FindCountry(records[1..], input);
      assert forall j :: 1 <= j < |records| ==> records[j] == records[1..][j - 1];
      if r.None? then r
      else
        var i :|
          0 <= i < |records[1..]| && records[1..][i] == r.value &&
            forall j :: 0 <= j < i ==> !NamedBy(records[1..][j], Lower(input));
        assert records[i + 1] == r.value;
        r
  }

  /** What the lookup does on rows that have no alias list, as the loader
      builds them: the first row whose name differs makes
      `c.aliases_lc.includes` throw. */
  datatype Lookup = Found(country: Country) | NotFound | Threw

  function FindAsLoaded(records: seq<Country>, input: string): (r: Lookup)
    ensures r.Found? ==> |records| > 0 && r.country == records[0] && records[0].nameLc == Lower(input)
    ensures r.NotFound? <==> records == []
  {
    if records == [] then NotFound
    else if records[0].nameLc == Lower(input) then Found(records[0])
    else Threw
  }
}
