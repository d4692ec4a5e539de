/** The presidents grid's label matcher (`matchMatchesLabel` in grid.js): a
    record per president, the predicates a label can stand for, their
    evaluation, and the ordered rule chain that picks the predicate of a
    canonical label. */
module Presidents {
  import opened Wrappers
  import opened Text
  import opened Scan
  import opened PresidentShapes
  import Label

  /** The yes/no columns of the presidents data set. */
  datatype Flag =
    | Assassinated | DiedInOffice | MilitaryService | ServedInCongress | ServedInHouse
    | ServedInSenate | VicePresident | HasFacialHair | FoundingFather | SecretaryOfState
    | Governor | IvyLeague | Nobel | Impeached | CollegeDegree | LostPopularVote | ColdWar
    | OnCurrency | MountRushmore | MetQueenElizabethII | UnmarriedInOffice | TiedToWarOf1812
    | RelatedToPresident | AlliterativeName | ReElected | BornBefore1800 | Born1800To1900
    | Born1900To2000

  /** One loaded president. Numbers the data set leaves blank are `None`; a
      yes/no column missing from `flags` reads as the empty string. */
  datatype President = President(
    firstName: string,
    lastName: string,
    name: string,
    firstNameVowel: bool,
    lastNameVowel: bool,
    party: string,
    termStart: Option<int>,
    termEnd: Option<int>,
    presidencyNumber: Option<int>,
    ageAtStart: Option<int>,
    yearsInOffice: Option<real>,
    heightIn: Option<real>,
    weightLbs: Option<real>,
    birthState: string,
    flags: map<Flag, string>)

  function FlagValue(p: President, f: Flag): string {
    if f in p.flags then p.flags[f] else ""
  }

  /** `safe` and `norm` of the matcher: lower-case and trimmed. */
  function Safe(s: string): string {
    Trim(Lower(s))
  }

  /** The loader's folding of the one-letter answers of some yes/no columns
      (grid.js:134-137): `y` is read as `yes` and `n` as `no`. */
  function FoldYesNo(raw: string): (r: string)
    ensures Safe(r) == r
    ensures CheckFlag(r, false) <==> Safe(raw) in ["y", "yes", "true", "1"]
    ensures CheckFlag(r, true) <==> Safe(raw) in ["n", "no", "false", "0"]
  {
    var v := Safe(raw);
    SafeIdempotent(raw);
    if v == "y" then YesFlags(v); "yes"
    else if v == "n" then NoFlags(v); "no"
    else OtherFlags(v); v
  }

  lemma YesFlags(v: string)
    requires v == "y"
    ensures Safe("yes") == "yes"
    ensures CheckFlag("yes", false) <==> v in ["y", "yes", "true", "1"]
    ensures CheckFlag("yes", true) <==> v in ["n", "no", "false", "0"]
  {
    SafeOfWord("yes");
  }

  lemma NoFlags(v: string)
    requires v == "n"
    ensures Safe("no") == "no"
    ensures CheckFlag("no", false) <==> v in ["y", "yes", "true", "1"]
    ensures CheckFlag("no", true) <==> v in ["n", "no", "false", "0"]
  {
    SafeOfWord("no");
  }

  /** A safe value other than "y" and "n" reads as it stands. */
  lemma OtherFlags(v: string)
    requires Safe(v) == v && v != "y" && v != "n"
    ensures CheckFlag(v, false) <==> v in ["y", "yes", "true", "1"]
    ensures CheckFlag(v, true) <==> v in ["n", "no", "false", "0"]
  {
  }

  /** `safe` leaves a safe value unchanged. */
  lemma SafeIdempotent(s: string)
    ensures Safe(Safe(s)) == Safe(s)
  {
    LowerOfTrim(Lower(s));
    LowerIdempotent(s);
    TrimIdempotent(Lower(s));
  }

  /** A word of lower-case letters is safe as it stands. */
  lemma SafeOfWord(w: string)
    requires forall i :: 0 <= i < |w| ==> IsLowerAscii(w[i])
    ensures Safe(w) == w
  {
    assert Lower(w) == w;
    TrimFixes(w);
  }

  const YesWords: seq<string> := ["yes", "true", "1"]
  const NoWords: seq<string> := ["no", "false", "0"]

  /** `checkFlag`: an affirmative answer, or with `negated` a negative one. */
  function CheckFlag(v: string, negated: bool): bool {
    Safe(v) in (if negated then NoWords else YesWords)
  }

  datatype NameField = FirstName | LastName
  datatype NumField = TermStart | TermEnd | PresidencyNumber | AgeAtStart
  datatype Measure = Height | Weight

  /** What a label can ask of a president. */
  datatype Pred =
    | LetterRange(nameField: NameField, lo: char, hi: char)
    | StartsWithVowel(vowelField: NameField)
    | NameContains(nameTarget: string)
    | PartyContains(partyTarget: string)
    | PartyIs(party: string)
    | NoParty
    | NumRange(rangeField: NumField, lo': int, hi': int)
    | NumCompare(cmpField: NumField, op: Cmp, bound: int)
    | YearsCompare(yearsOp: Cmp, years: real)
    | FlagHolds(flag: Flag, negated: bool)
    | FlagIsNo(noFlag: Flag)
    | MeasureCompare(measure: Measure, measureOp: Cmp, amount: real)
    | BirthStateContains(stateTarget: string)
    | Never

  function NameOf(p: President, f: NameField): string {
    match f
    case FirstName => Safe(p.firstName)
    case LastName => Safe(p.lastName)
  }

  function NumValue(p: President, f: NumField): Option<int> {
    match f
    case TermStart => p.termStart
    case TermEnd => p.termEnd
    case PresidencyNumber => p.presidencyNumber
    case AgeAtStart => p.ageAtStart
  }

  /** A missing number is read as 0 (`parseInt(x) || 0`, `x || 0`). */
  function NumOf(p: President, f: NumField): int {
    NumValue(p, f).GetOr(0)
  }

  function MeasureOf(p: President, m: Measure): Option<real> {
    match m
    case Height => p.heightIn
    case Weight => p.weightLbs
  }

  /** The first letter of `name`, upper-cased, lies in [lo, hi]; an empty name has none. */
  predicate InitialIn(name: string, lo: char, hi: char) {
    |name| > 0 && lo <= UpperChar(name[0]) <= hi
  }

  /** Whether president `p` satisfies `pr`. */
  function Eval(pr: Pred, p: President): bool {
    match pr
    case LetterRange(f, lo, hi) => InitialIn(NameOf(p, f), lo, hi)
    case StartsWithVowel(f) => if f == FirstName then p.firstNameVowel else p.lastNameVowel
    case NameContains(t) => Contains(Safe(p.name), t) || Contains(Safe(p.lastName), t)
    case PartyContains(t) => Contains(Safe(p.party), t)
    case PartyIs(t) => Safe(p.party) == t
    case NoParty => Safe(p.party) == "none" || Safe(p.party) == ""
    case NumRange(f, lo, hi) => lo <= NumOf(p, f) <= hi
    case NumCompare(f, op, n) => CmpInt(op, NumOf(p, f), n)
    case YearsCompare(op, x) => CmpReal(op, p.yearsInOffice.GetOr(0.0), x)
    case FlagHolds(f, neg) => CheckFlag(FlagValue(p, f), neg)
    case FlagIsNo(f) => Safe(FlagValue(p, f)) == "no"
    case MeasureCompare(m, op, x) => MeasureOf(p, m).Some? && CmpReal(op, MeasureOf(p, m).value, x)
    case BirthStateContains(t) => Contains(Safe(p.birthState), t)
    case Never => false
  }

  /** The name rules, grid.js:267-301. */
  function NameRules(l: string): Option<Pred> {
    if Contains(l, "first name starts with a-j") || Contains(l, "first name a-j") then
      Some(LetterRange(FirstName, 'A', 'J'))
    else if Contains(l, "first name starts with k-z") || Contains(l, "first name k-z") then
      Some(LetterRange(FirstName, 'K', 'Z'))
    else if Contains(l, "first name starts with vowel") || Contains(l, "first name vowel") then
      Some(StartsWithVowel(FirstName))
    else if Contains(l, "last name starts with vowel") || Contains(l, "last name vowel")
         || Contains(l, "last name begins with vowel") then
      Some(StartsWithVowel(LastName))
    else if Contains(l, "served past 1850") then Some(NumCompare(TermStart, Gt, 1850))
    else if Contains(l, "served past 1900") then Some(NumCompare(TermStart, Gt, 1900))
    else if Contains(l, "last name a-j") then Some(LetterRange(LastName, 'A', 'J'))
    else if Contains(l, "last name k-z") then Some(LetterRange(LastName, 'K', 'Z'))
    else
      match WordCapture(l, "name", Letters)
      case Some(t) => Some(NameContains(Lower(Trim(t))))
      case None => None
  }

  /** The party rules, grid.js:304-309. */
  function PartyRules(l: string): Option<Pred> {
    if Contains(l, "federalist") then Some(PartyContains("federalist"))
    else if Contains(l, "democratic-republican") then Some(PartyContains("democratic-republican"))
    else if Contains(l, "republican") then Some(PartyIs("republican"))
    else if Contains(l, "democratic") then Some(PartyIs("democratic"))
    else if Contains(l, "whig") then Some(PartyIs("whig"))
    else if Contains(l, "none") || Contains(l, "independent") then Some(NoParty)
    else None
  }

  /** `present` in a year range stands for the year after `currentYear`. */
  function UpperYearValue(u: UpperYear, currentYear: int): int {
    match u
    case Year(y) => y
    case Present => currentYear + 1
  }

  /** The term-year, presidency-number, years-in-office and age rules,
      grid.js:312-384. */
  function TermRules(l: string, currentYear: int): Option<Pred> {
    match ServedFromRange(l)
    case Some((lo, hi)) => Some(NumRange(TermStart, lo, UpperYearValue(hi, currentYear)))
    case None =>
      if Contains(l, "18th century") then Some(NumRange(TermStart, 1701, 1800))
      else if Contains(l, "19th century") then Some(NumRange(TermStart, 1801, 1900))
      else if Contains(l, "20th century") then Some(NumRange(TermStart, 1901, 2000))
      else if Contains(l, "21st century") then Some(NumRange(TermStart, 2001, 2100))
      else if StartBefore(l).Some? then Some(NumCompare(TermStart, Lt, StartBefore(l).value))
      else if StartAfter(l).Some? then Some(NumCompare(TermStart, Gt, StartAfter(l).value))
      else if StartPast(l).Some? then Some(NumCompare(TermStart, Gt, StartPast(l).value))
      else if EndBefore(l).Some? then Some(NumCompare(TermEnd, Lt, EndBefore(l).value))
      else if EndAfter(l).Some? then Some(NumCompare(TermEnd, Gt, EndAfter(l).value))
      else if EndBetween(l).Some? then
        Some(NumRange(TermEnd, EndBetween(l).value.0, EndBetween(l).value.1))
      else if Contains(l, "ended in 19th century") then Some(NumRange(TermEnd, 1801, 1900))
      else if Contains(l, "ended in 20th century") then Some(NumRange(TermEnd, 1901, 2000))
      else if Contains(l, "ended in 21st century") then Some(NumRange(TermEnd, 2001, 2100))
      else if PresidencyRange(l).Some? then
        Some(NumRange(PresidencyNumber, PresidencyRange(l).value.0, PresidencyRange(l).value.1))
      else if Contains(l, "served more than 5 years") then Some(YearsCompare(Gt, 5.0))
      else if Contains(l, "served less than 5 years") then Some(YearsCompare(Lt, 5.0))
      else if Contains(l, "served more than 4 years") then Some(YearsCompare(Gt, 4.0))
      else if Contains(l, "served less than 4 years") then Some(YearsCompare(Lt, 4.0))
      else if YearsInOffice(l, ">").Some? then Some(YearsCompare(Gt, YearsInOffice(l, ">").value))
      else if YearsInOffice(l, "<").Some? then Some(YearsCompare(Lt, YearsInOffice(l, "<").value))
      else if CmpInt1(l, "age at start", ">").Some? then
        Some(NumCompare(AgeAtStart, Gt, CmpInt1(l, "age at start", ">").value))
      else if CmpInt1(l, "age at start", "<").Some? then
        Some(NumCompare(AgeAtStart, Lt, CmpInt1(l, "age at start", "<").value))
      else if Inaugurated(l, "older than").Some? then
        Some(NumCompare(AgeAtStart, Gt, Inaugurated(l, "older than").value))
      else if Inaugurated(l, "younger than").Some? then
        Some(NumCompare(AgeAtStart, Lt, Inaugurated(l, "younger than").value))
      else if Inaugurated(l, "age").Some? then
        Some(NumCompare(AgeAtStart, Eq, Inaugurated(l, "age").value))
      else None
  }

  /** `serve(d)? <prep> (the )?<office>`, as four literal phrases. */
  predicate Served(l: string, prep: string, office: string) {
    || Contains(l, "serve " + prep + " " + office)
    || Contains(l, "served " + prep + " " + office)
    || Contains(l, "serve " + prep + " the " + office)
    || Contains(l, "served " + prep + " the " + office)
  }

  /** The yes/no rules in their order, grid.js:406-486: the first whose
      phrase the label holds decides which column is tested. */
  function FlagOf(l: string): Option<Flag> {
    if Contains(l, "assassin") then Some(Assassinated)
    else if Contains(l, "die in office") || Contains(l, "died in office") then Some(DiedInOffice)
    else if Served(l, "in", "military") then Some(MilitaryService)
    else if Served(l, "in", "congress") then Some(ServedInCongress)
    else if Served(l, "in", "house") then Some(ServedInHouse)
    else if Served(l, "in", "senate") then Some(ServedInSenate)
    else if Served(l, "as", "vice president") || Contains(l, "vice president") then Some(VicePresident)
    else if Contains(l, "facial hair") then Some(HasFacialHair)
    else if Contains(l, "founding father") then Some(FoundingFather)
    else if Served(l, "as", "secretary of state") || Contains(l, "secretary of state") then
      Some(SecretaryOfState)
    else if Contains(l, "governor") then Some(Governor)
    else if Contains(l, "ivy") then Some(IvyLeague)
    else if Contains(l, "nobel") then Some(Nobel)
    else if Contains(l, "impeach") then Some(Impeached)
    else if Contains(l, "college degree") then Some(CollegeDegree)
    else if Contains(l, "without popular vote") || Contains(l, "lost popular vote") then
      Some(LostPopularVote)
    else if Contains(l, "cold war") then Some(ColdWar)
    else if Contains(l, "currency") then Some(OnCurrency)
    else if Contains(l, "mount rushmore") then Some(MountRushmore)
    else if Contains(l, "met queen elizabeth ii") then Some(MetQueenElizabethII)
    else if Contains(l, "unmarried while in office") || Contains(l, "unmarried in office")
         || Contains(l, "no spouse in office") then Some(UnmarriedInOffice)
    else if Contains(l, "tied to war of 1812") || Contains(l, "related to the war of 1812")
         || (Contains(l, "war of 1812") && (Contains(l, "tied") || Contains(l, "related"))) then
      Some(TiedToWarOf1812)
    else if Contains(l, "related to another president") || Contains(l, "related to a president")
         || Contains(l, "related to president") || Contains(l, "presidential relative")
         || Contains(l, "family of a president") then Some(RelatedToPresident)
    else if Contains(l, "alliterative name") || Contains(l, "alliterative")
         || Contains(l, "same first and last initial") || Contains(l, "matching initials") then
      Some(AlliterativeName)
    else None
  }

  /** The weight rule, grid.js:509-540: needs a pound figure and one of the
      operator phrases; otherwise the label falls through to the next rules. */
  function WeightRule(l: string): Option<Pred> {
    if !(Contains(l, "pound") || Contains(l, "lbs")) then None
    else
      match ExtractPounds(l)
      case None => None
      case Some(n) =>
        if Contains(l, "or greater") || Contains(l, "or more") || Contains(l, "at least")
           || Contains(l, ">=") || (exists p :: 0 <= p < |l| && GreaterThanOrEqualAt(l, p)) then
          Some(MeasureCompare(Weight, Ge, n as real))
        else if (exists p :: 0 <= p < |l| && SpaceGreaterDigitAt(l, p))
                || (exists p :: 0 <= p < |l| && GreaterThanNumberAt(l, p)) then
          Some(MeasureCompare(Weight, Gt, n as real))
        else if Contains(l, "less than") || Contains(l, "under") || Contains(l, "<") then
          Some(MeasureCompare(Weight, Lt, n as real))
        else if Contains(l, "exactly") then Some(MeasureCompare(Weight, Eq, n as real))
        else None
  }

  /** The yes/no, height, weight, re-election, birth-year and birth-state
      rules, grid.js:387-559, on the label `L` and the negation of `l`. */
  function FlagRules(l: string): Option<Pred> {
    FlagRulesWith(l, FlagNegated(l))
  }

  /** The same rules with grid.js's own negation test, which reads the
      synonym "no spouse in office" as negated. */
  function FlagRulesAsWritten(l: string): Option<Pred> {
    FlagRulesWith(l, Negated(l))
  }

  /** The rules of grid.js:406-559 once the negation of the label is known. */
  function FlagRulesWith(l: string, neg: bool): Option<Pred> {
    var L := Safe(l);
    match FlagOf(L)
    case Some(f) => Some(FlagHolds(f, neg))
    case None =>
      if Contains(L, "6 feet or taller") || Contains(L, "at least 6 feet")
         || Contains(L, ">= 6 feet") || Contains(L, "six feet or taller") then
        Some(MeasureCompare(Height, Ge, 72.0))
      else if Contains(L, "shorter than 6 feet") || Contains(L, "under 6 feet")
              || Contains(L, "< 6 feet") || Contains(L, "under six feet") then
        Some(MeasureCompare(Height, Lt, 72.0))
      else if WeightRule(L).Some? then WeightRule(L)
      else if Contains(L, "won re-election") || Contains(L, "won reelection") then
        Some(FlagHolds(ReElected, false))
      else if Contains(L, "not re-elected") || Contains(L, "not reelected")
              || Contains(L, "lost re-election") || Contains(L, "lost reelection") then
        Some(FlagIsNo(ReElected))
      else if Contains(L, "born before 1800") then Some(FlagHolds(BornBefore1800, false))
      else if Contains(L, "born 1800 - 1900") then Some(FlagHolds(Born1800To1900, false))
      else if Contains(L, "born 1900-2000") then Some(FlagHolds(Born1900To2000, false))
      else
        match WordCapture(L, "born in", Letters)
        case Some(t) => Some(BirthStateContains(Lower(Trim(t))))
        case None => None
  }

  /** The whole rule chain on a canonical label: the first rule that fires
      decides, and a label no rule recognises asks for the impossible. */
  function Compile(l: string, currentYear: int): Pred {
    if NameRules(l).Some? then NameRules(l).value
    else if PartyRules(l).Some? then PartyRules(l).value
    else if TermRules(l, currentYear).Some? then TermRules(l, currentYear).value
    else FlagRules(l).GetOr(Never)
  }

  /** `matchMatchesLabel`: a missing president or a missing or empty label
      never matches; otherwise the canonical label's predicate decides. */
  function MatchesLabel(p: Option<President>, raw: Option<string>, currentYear: int): (r: bool)
    ensures p.None? || raw.None? || raw == Some("") ==> !r
    ensures p.Some? && raw.Some? && raw.value != "" ==>
              r == Eval(Compile(Label.Normalize(raw.value), currentYear), p.value)
  {
    if p.None? || raw.None? || raw.value == "" then false
    else Eval(Compile(Label.Normalize(raw.value), currentYear), p.value)
  }

  /** A president answers to `guess` when the lower-cased full name or last
      name equals it (handleGuess, grid.js:724-728). */
  predicate NamedBy(p: President, guess: string) {
    Lower(p.name) == guess || Lower(p.lastName) == guess
  }

  /** The first index at or after `from` of a record named by `guess`. */
  function FirstNamed(records: seq<President>, guess: string, from: nat): (r: Option<nat>)
    decreases |records| - from
    ensures r.Some? ==> from <= r.value < |records| && NamedBy(records[r.value], guess)
    ensures r.Some? ==> forall j :: from <= j < r.value ==> !NamedBy(records[j], guess)
    ensures r.None? ==> forall j :: from <= j < |records| ==> !NamedBy(records[j], guess)
  {
    if from >= |records| then None
    else if NamedBy(records[from], guess) then Some(from)
    else FirstNamed(records, guess, from + 1)
  }

  /** `presidentData.find(...)` on the lower-cased input. */
  function FindPresident(records: seq<President>, input: string): (r: Option<President>)
    ensures r.Some? ==> r.value in records && NamedBy(r.value, Lower(input))
    ensures r.None? <==> forall j :: 0 <= j < |records| ==> !NamedBy(records[j], Lower(input))
    ensures r.Some? ==>
      exists i :: 0 <= i < |records| && records[i] == r.value &&
        forall j :: 0 <= j < i ==> !NamedBy(records[j], Lower(input))
  {
    match FirstNamed(records, Lower(input), 0)
    case Some(i) => assert records[i] in records; Some(records[i])
    case None => None
  }

  /** A president fits a cell when it matches both the row and the column label. */
  predicate CellAccepts(p: President, rowLabel: Option<string>, colLabel: Option<string>, currentYear: int) {
    MatchesLabel(Some(p), rowLabel, currentYear) && MatchesLabel(Some(p), colLabel, currentYear)
  }

  /** The "view answers" list (grid.js:859-861): the records that fit the
      cell. */
  function ValidAnswers(records: seq<President>, rowLabel: Option<string>, colLabel: Option<string>,
                        currentYear: int): (r: seq<President>)
    ensures |r| <= |records|
    ensures forall p :: p in r <==> p in records && CellAccepts(p, rowLabel, colLabel, currentYear)
  {
    if records == [] then []
    else
      var rest := ValidAnswers(records[1..], rowLabel, colLabel, currentYear);
      assert forall p :: p in records <==> p == records[0] || p in records[1..];
      if CellAccepts(records[0], rowLabel, colLabel, currentYear) then [records[0]] + rest else rest
  }
}
