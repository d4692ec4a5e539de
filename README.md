# Presidents and countries trivia grids: label matchers and guess transitions

This project models the core of two 3x3 trivia grids, one for US presidents (`grid.js`) and one for countries (`geo.js`). Each cell of a board sits under a row label and a column label, such as "Republican" × "Served in Congress" or "in Europe" × "Landlocked". A guess fills the cell only when the named entity satisfies both labels.

What is modelled:

- **The president label matcher**, `matchMatchesLabel` (`Presidents.MatchesLabel`).
  - A raw label is canonicalised (`Label.Normalize`): lower-cased, the en dash and curly double quotes folded, each run of whitespace collapsed to one space, and the result trimmed.
  - The canonical label is compiled by the ordered rule chain (`Presidents.Compile`) into a predicate (`Presidents.Pred`). The rule groups are names (`NameRules`), parties (`PartyRules`), term, number, years and age (`TermRules`), and flags, height, weight, re-election and birth (`FlagRules`). A label that no rule recognises compiles to `Never`.
  - `Presidents.Eval` evaluates the predicate on a president record.
  - The helpers `checkFlag` (`Presidents.CheckFlag`) and `extractPounds` (`PresidentShapes.ExtractPounds`) are modelled too.
  - The yes/no flags take their negation from the pattern at grid.js:403. `PresidentShapes.Negated` is that pattern as written, and `Presidents.FlagRulesAsWritten` is the flag stage with it. Because the pattern also matches the opening "no" of the synonym "no spouse in office", the model's chain uses `PresidentShapes.FlagNegated` instead, which leaves only that synonym un-negated (`Presidents.FlagRules`; see Findings).
- **The regular expressions.** Each is written as an explicit recogniser for the label shapes it accepts: an "attempt at position p" function plus a leftmost (`Search.FirstCapture`) or greedy (`Search.LastCapture`) search. The recognisers live in `Scan`, `PresidentShapes` and `Countries`.
- **The country label matcher**, `matchGeoLabel` (`Countries.MatchGeoLabel`), together with its inner `rankMatch` (`Countries.RankMatch`). It uses the same canonicalisation. The chain is `TextRules`, then `BorderRules`, then `RankRules`.
- **The loader helpers.** From `geo.js` these are `yes` (`Countries.Yes`) and `num` (`Countries.Num`). From `grid.js` it is the y→yes / n→no folding (`Presidents.FoldYesNo`).
- **The guess transitions**, `handleGuess` of both games and the give-up button. These are classes with the game state as fields (`PresidentGame.Session`, `CountryGame.Session`).
  - The state is the guess count, the set of used names and the nine cells.
  - The invariant `Valid()` says three things: every shown name is used, no name appears twice, and every shown name belongs to an entity that satisfies its cell's labels.
- **The "view answers" filter** (`Presidents.ValidAnswers`).

## Model

| member | source | states |
|---|---|---|
| Label.Normalize | grid.js:248-254 | the canonical label is normalized: single-spaced, no leading or trailing space, no upper-case ASCII, no en dash and no curly quote (what it is made of is stated by the five lemmas below and `NormalizeFixesNormalized`) |
| Label.NormalizeWord | grid.js:248-251 | a label without whitespace is canonicalised character by character: lower-cased, dash and quotes folded, nothing dropped |
| Label.NormalizeJoin | grid.js:252-253 | two words separated by any run of whitespace canonicalise to the two canonical words joined by one space |
| Label.NormalizeLeading | grid.js:252-253 | leading whitespace is dropped |
| Label.NormalizeTrailing | grid.js:252-253 | trailing whitespace is dropped |
| Label.NormalizeIdempotent | grid.js:248-254 | canonicalising a canonical label changes nothing |
| Label.NormalizeFixesNormalized | geo.js:152-157 | a label already in canonical form is its own canonical form |
| Label.FoldPunctuation | grid.js:250-251 | each en dash becomes `-` and each curly double quote becomes `"`, character by character |
| Label.CollapseSpaces | grid.js:252 | the result is single-spaced and starts with a space exactly when the input starts with whitespace; its characters other than spaces are non-whitespace characters of the input, and leaving out whitespace, result and input read the same |
| Label.SpacelessCollapse | grid.js:252 | a string without whitespace is left as it is |
| Label.CollapseRun | grid.js:252 | a leading run of whitespace, of any length, becomes exactly one space |
| Label.CollapseRunBetween | grid.js:252 | a run of whitespace between two non-whitespace characters becomes exactly one space, and the text on both sides is collapsed on its own |
| Label.CollapseAppend | grid.js:252 | after a non-whitespace character, collapsing works on the two parts independently |
| Label.CollapseFixesSingleSpaced | grid.js:252 | a single-spaced string is left as it is |
| Label.TrimKeepsNormalized | grid.js:253 | trimming a single-spaced clean string yields a normalized one |
| Label.NormalizedHasNoLineTerminator | grid.js:248-254 | a canonical label has no line terminator, so `.` in the patterns matches each of its characters |
| Presidents.MatchesLabel | grid.js:246-254 | a missing president or a missing or empty label never matches; otherwise the verdict is the compiled predicate of the canonical label evaluated on the president |
| PresidentFacts.MatchesCanonicalLabel | grid.js:246-563 | on a non-empty canonical label the matcher is the evaluation of the compiled rule chain |
| PresidentFacts.MatchesLabelSeesCanonicalForm | grid.js:248-254 | the matcher gives a raw label and its canonical form the same verdict |
| PresidentReadback.LetterlessLabelMatchesNobody | grid.js:246-563 | a label without a single ASCII letter (a bare number, say) matches no president, whatever the president |
| PresidentReadback.LetterlessLabelAsksForNothing | grid.js:267-561 | every rule phrase holds a letter, so a letterless label fires no name, party, term or flag rule and compiles to the impossible predicate |
| PresidentReadback.NormalizeAddsNoLetter | grid.js:248-254 | canonicalising a letterless label leaves it letterless |
| PresidentFacts.FirstNameAToJ | grid.js:267-270 | "first name a-j" accepts exactly the presidents whose upper-cased first initial is in A..J; an empty first name is rejected |
| PresidentFacts.FirstNameKToZ | grid.js:271-274 | "first name k-z" accepts exactly initials K..Z; an empty first name is rejected |
| PresidentFacts.LastNameAToJ | grid.js:288-291 | "last name a-j", reached past the earlier name rules, accepts exactly last initials A..J |
| PresidentFacts.LastNameKToZ | grid.js:292-295 | "last name k-z" accepts exactly last initials K..Z |
| PresidentFacts.NameRulesNeedName | grid.js:267-301 | a label mentioning neither "name" nor "served past" fires no name rule |
| PresidentFacts.NameContainsDecidesFirst | grid.js:297-301 | a "name …" label not caught by the fixed name phrases compiles to name containment on the trimmed capture, and accepts exactly the presidents whose full or last name contains it |
| PresidentFacts.FixedNamePhrasesAbsent | grid.js:267-301 | without "a-j", "k-z", "vowel" and "served past" the name rules reduce to the name-contains capture |
| PresidentFacts.DemocraticRepublicanComesFirst | grid.js:305-307 | "democratic-republican" is tested by containment before "republican" and "democratic", although it contains both words |
| PresidentFacts.RepublicanIsExact | grid.js:306 | "republican" alone accepts exactly party "republican" |
| PresidentFacts.NoPartyLabel | grid.js:309 | "none"/"independent" accepts exactly party "none" or an empty party |
| PresidentFacts.EighteenthCenturyIsInclusive | grid.js:318 | "18th century" accepts exactly term starts 1701 through 1800 |
| PresidentFacts.NineteenthCenturyIsInclusive | grid.js:319 | reached past "18th century", "19th century" accepts exactly term starts 1801 through 1900 |
| PresidentFacts.TwentiethCenturyIsInclusive | grid.js:320 | reached past the earlier centuries, "20th century" accepts exactly term starts 1901 through 2000 |
| PresidentFacts.TwentyFirstCenturyIsInclusive | grid.js:321 | reached past the earlier centuries, "21st century" accepts exactly term starts 2001 through 2100 |
| PresidentFacts.CenturyReadsStart | grid.js:318-321 | outside "served from", a label naming the 19th, 20th or 21st century tests the term start |
| PresidentFacts.EndedInCenturyReadsStart | grid.js:318-347 | the "ended in Nth century" rules are unreachable: such a label is read by the start-of-term century rule |
| PresidentReadback.ServedFromYearsRule | grid.js:313-317 | "served from A to B" compiles to the inclusive range [A, B] on the term start |
| PresidentReadback.ServedFromPresentRule | grid.js:313-317 | "served from A to present" ranges up to the current year plus one |
| PresidentReadback.ServedFromDigits | grid.js:313 | the range recogniser reads back both years of "served from D to E" for 3- and 4-digit D and E |
| PresidentReadback.ServedFromDigitsToPresent | grid.js:313-315 | the range recogniser reads back "served from D to present" |
| PresidentReadback.ServedFromDecides | grid.js:313-317 | once the range recogniser fires, the term rules yield that range with `present` resolved |
| PresidentFacts.MissingNumberReadsAsZero | grid.js:261-264 | a missing term year, presidency number or age is compared as 0 |
| PresidentFacts.MissingYearsReadAsZero | grid.js:263 | missing years in office are compared as 0 |
| PresidentFacts.MissingMeasureNeverMatches | grid.js:488-540 | a missing height or weight fails every height and weight test |
| PresidentFacts.CheckFlagExclusive | grid.js:394-397 | `checkFlag` never holds both plain and negated, and a blank value fails both |
| Presidents.FoldYesNo | grid.js:134-137 | a folded cell is already in the normal form `checkFlag` compares; it passes the plain flag test exactly when the raw cell reads `y`, `yes`, `true` or `1`, and the negated one exactly when it reads `n`, `no`, `false` or `0` |
| Presidents.SafeIdempotent | grid.js:256 | normalising a value twice is normalising it once |
| PresidentReadback.ExtractPoundsReadback | grid.js:505-508 | `extractPounds` reads back `n` from a label with no digit before "n pounds" or "n lbs" |
| PresidentReadback.ExtractPoundsDigits | grid.js:505-508 | the unit may follow any non-empty digit string, and the digits' value is returned |
| PresidentTerms.ServedBeforeReads | grid.js:323-324 | the start-before recogniser reads back "served before D" for every 4-digit D |
| PresidentTerms.ServedBeforeDecides | grid.js:323-324 | past the year rules, a fired start-before comparison yields "term start < n" |
| PresidentTerms.ServedBeforeRule | grid.js:323-324 | "served before A" compiles to "term start < A" and accepts exactly the presidents whose term start, missing read as 0, is below A, for every 4-digit A |
| PresidentTerms.ServedAfterReads | grid.js:326-327 | the start-after recogniser reads back "served after D" for every 4-digit D |
| PresidentTerms.ServedAfterDecides | grid.js:326-327 | past the year rules and a silent start-before, a fired start-after comparison yields "term start > n" |
| PresidentTerms.ServedAfterRule | grid.js:326-327 | "served after A" accepts exactly the presidents whose term start is above A, for every 4-digit A |
| PresidentTerms.StartedPastReads | grid.js:329-330 | the start-past recogniser reads back "started past D" for every 4-digit D |
| PresidentTerms.StartedPastDecides | grid.js:329-330 | past the year rules and the silent before/after forms, a fired start-past comparison yields "term start > n" |
| PresidentTerms.StartedPastRule | grid.js:329-330 | "started past A" accepts exactly the presidents whose term start is above A, for every 4-digit A |
| PresidentTerms.EndedBeforeReads | grid.js:332-333 | the end-before recogniser reads back "ended before D" for every 4-digit D |
| PresidentTerms.EndedBeforeDecides | grid.js:332-333 | past the year and start rules, a fired end-before comparison yields "term end < n" |
| PresidentTerms.EndedBeforeRule | grid.js:332-333 | "ended before A" accepts exactly the presidents whose term end, missing read as 0, is below A, for every 4-digit A |
| PresidentTerms.EndedAfterReads | grid.js:335-336 | the end-after recogniser reads back "ended after D" for every 4-digit D |
| PresidentTerms.EndedAfterDecides | grid.js:335-336 | past the year and start rules and a silent end-before, a fired end-after comparison yields "term end > n" |
| PresidentTerms.EndedAfterRule | grid.js:335-336 | "ended after A" accepts exactly the presidents whose term end is above A, for every 4-digit A |
| PresidentTerms.YearPairReads | grid.js:338-339 | the year-pair pattern reads the first four digits, a separator between optional spaces, and the first four digits after it |
| PresidentTerms.EndedBetweenReads | grid.js:338-339 | the end-between recogniser reads back both years of "ended between D and E" for 4-digit D and E |
| PresidentTerms.EndedBetweenDecides | grid.js:338-343 | a fired end-between range, reached past the earlier end comparisons, yields the inclusive range on the term end |
| PresidentTerms.EndedBetweenRule | grid.js:338-343 | "ended between A and B" accepts exactly the presidents whose term end lies in [A, B], for 4-digit A and B |
| PresidentTerms.PresidencyRangeReads | grid.js:349-350 | the presidency-number recogniser reads back both numbers of "presidency number D-E" for all digit strings D and E |
| PresidentTerms.PresidencyRangeDecides | grid.js:349-356 | past the year, start and end rules, a fired presidency-number range yields the inclusive range on the number |
| PresidentTerms.PresidencyNumberRule | grid.js:349-356 | "presidency number A-B" accepts exactly the presidents whose number, missing read as 0, lies in [A, B], for all numbers A and B |
| PresidentTerms.YearsInOfficeReads | grid.js:364-365 | the years-in-office recogniser reads back "years in office > D" for every digit string D |
| PresidentTerms.YearsInOfficeDecides | grid.js:364-365 | past the year, start, end and number rules, a fired years-in-office comparison yields "years > x" |
| PresidentTerms.YearsInOfficeRule | grid.js:364-368 | "years in office > N" accepts exactly the presidents whose years in office, missing read as 0, exceed N, for every number N |
| PresidentTerms.TenureVerdict | grid.js:364-368 | a label reaching the term rules with "years > x" compiles to it and accepts exactly years in office above x |
| PresidentTerms.TenureEval | grid.js:364-368 | "years > x" holds exactly when the years in office, missing read as 0, exceed x |
| PresidentTerms.AgeAtStartReads | grid.js:371-372 | the age-at-start recogniser reads back "age at start > D" for every digit string D |
| PresidentTerms.AgeAtStartDecides | grid.js:371-372 | past the earlier term rules, a fired age-at-start comparison yields "age at start > n" |
| PresidentTerms.AgeAtStartRule | grid.js:371-375 | "age at start > N" accepts exactly the presidents whose age at start, missing read as 0, exceeds N, for every number N |
| PresidentTerms.InauguratedOlderReads | grid.js:377-378 | the inauguration recogniser reads back "inaugurated older than D" for every digit string D |
| PresidentTerms.InauguratedOlderDecides | grid.js:377-378 | past the earlier term rules, a fired "inaugurated older than" yields "age at start > n" |
| PresidentTerms.InauguratedOlderRule | grid.js:377-384 | "inaugurated older than N" accepts exactly the presidents whose age at start exceeds N, for every number N |
| PresidentTerms.NumCompareVerdict | grid.js:323-384 | a label whose term rules give a number comparison compiles to it, and its verdict is the comparison of the stored number, missing read as 0 |
| PresidentTerms.NumCompareEval | grid.js:261-264 | a number comparison compares the stored number, missing read as 0 |
| PresidentTerms.NumRangeVerdict | grid.js:338-356 | a label whose term rules give a number range compiles to it and accepts exactly the numbers inside it, both ends included |
| PresidentTerms.NumRangeEval | grid.js:341-356 | a number range holds exactly when the stored number, missing read as 0, lies between its ends, both included |
| PresidentFlags.NotOpensNegation | grid.js:403 | a label opening with the word "not" is negated, by the pattern as written and by the intended test |
| PresidentFlags.NotWordNegates | grid.js:403 | the word "not" anywhere in a label, bounded by non-word characters, negates it under both tests |
| PresidentFlags.NegationNeedsMarker | grid.js:403 | a label containing none of "no", "n't" and "n’t" is negated by neither test |
| PresidentFlags.UnmarkedNotNegated | grid.js:403 | a label spelled without 'o' and without either apostrophe is negated by neither test |
| PresidentFlags.NegationOnlyOpens | grid.js:403 | in a label whose only "no" opens it and that has no "n't", a negation word can only be the opening "not" or "no" |
| PresidentFlags.OpeningNoRunsOn | grid.js:403 | an opening "no" followed by a word character other than 't', with no other "no" and no "n't", negates neither test |
| PresidentFlags.NobelNotNegated | grid.js:403-431 | "nobel prize winner" is negated by neither test, since its "no" runs on into a word |
| PresidentFlags.FlagNegatedAgrees | grid.js:403-453 | the intended negation test agrees with the pattern as written on every label without "no spouse in office" |
| PresidentFlags.FlagRuleVerdict | grid.js:400-486 | a label that reaches the yes/no flags with flag f compiles to `checkFlag` of f with the label's negation, and that is its verdict on every president |
| PresidentFlags.CompileByFlagRules | grid.js:400-561 | past the name, party and term rules the compiled predicate is the flag stage's, or `Never` when it is silent |
| PresidentFlags.FlagRuleDecides | grid.js:400-486 | the flag stage turns a phrase naming flag f into the test of f, negated exactly when the intended negation test says so |
| PresidentFlags.AsWrittenDecides | grid.js:400-486 | as written, the flag stage negates a phrase's flag exactly when the negation pattern matches |
| PresidentFlags.FlagOfMilitary | grid.js:406-410 | without an assassination or death-in-office phrase, "serve(d) in (the) military" names the military-service flag |
| PresidentFlags.FlagOfNobel | grid.js:406-431 | past the death and office phrases, "nobel" names the Nobel flag |
| PresidentFlags.FlagOfUnmarried | grid.js:406-456 | past the death, office and distinction phrases, "no spouse in office" names the unmarried-in-office flag |
| PresidentFlags.AssassinatedRule | grid.js:394-406 | "assassinated" compiles to the plain assassinated flag and accepts exactly the presidents whose normalised value is "yes", "true" or "1" |
| PresidentFlags.MilitaryRule | grid.js:394-410 | "did not serve in the military" compiles to the negated military flag and accepts exactly the presidents whose normalised value is "no", "false" or "0" |
| PresidentFlags.NobelRule | grid.js:394-431 | "nobel prize winner" compiles to the plain Nobel flag, not the negated one, and accepts exactly the presidents whose normalised value is "yes", "true" or "1" |
| PresidentFlags.NoSpouseAsWritten | grid.js:403-456 | as written, "no spouse in office" compiles to the NEGATED unmarried-in-office flag |
| PresidentFlags.NoSpouseMarriedMatches | grid.js:394-456 | a president married in office (unmarried value "no") passes the negated unmarried test and fails the plain one |
| PresidentFlags.NoSpouseRule | grid.js:394-456 | with the intended negation test, "no spouse in office" compiles to the plain unmarried flag and accepts exactly the presidents whose normalised unmarried value is "yes", "true" or "1" |
| PresidentRecords.TallDecides | grid.js:489-496 | with no flag phrase, any of the four "6 feet or taller" phrases yields "height >= 72 in", as written and as intended |
| PresidentRecords.ShortDecides | grid.js:497-504 | with no flag and no tall phrase, any of the four "under 6 feet" phrases yields "height < 72 in" |
| PresidentRecords.WeightDecides | grid.js:509-540 | with no flag and no height phrase, a fired weight rule decides |
| PresidentRecords.AtLeastPounds | grid.js:505-521 | a label with "lbs", a pound figure n and "at least" gives "weight >= n" |
| PresidentRecords.ReElectedDecides | grid.js:543-544 | past the height and weight rules, "won re-election"/"won reelection" yields the plain re-elected flag |
| PresidentRecords.NotReElectedDecides | grid.js:546-547 | without a "won" phrase, "not re-elected" or "lost re-election" (either spelling) yields a test that the re-elected value is exactly no |
| PresidentRecords.BornBefore1800Decides | grid.js:550 | past the re-election rules, "born before 1800" yields the plain born-before-1800 flag |
| PresidentRecords.BornInDecides | grid.js:555-559 | past the birth-year phrases, "born in" followed by letters yields containment of the trimmed, lower-cased capture in the birth state |
| PresidentRecords.RecordVerdict | grid.js:488-561 | past the name, party and term rules, a label the record stage decides compiles to that stage's predicate |
| PresidentRecords.TallVerdict | grid.js:489-496 | a canonical label reaching the record stage with "6 feet or taller" compiles to "height >= 72 in" |
| PresidentRecords.WeightVerdict | grid.js:509-540 | a canonical label reaching the weight rule compiles to what that rule gives |
| PresidentRecords.ReElectedVerdict | grid.js:543-544 | a canonical label reaching the re-election rule with "won re-election" compiles to the plain re-elected flag |
| PresidentRecords.BornEarlyVerdict | grid.js:550 | a canonical label reaching the birth rules with "born before 1800" compiles to the plain born-before-1800 flag and accepts exactly the presidents whose normalised value is "yes", "true" or "1" |
| PresidentRecords.BornInVerdict | grid.js:555-559 | a canonical label reaching the birth-state rule compiles to containment of its capture |
| PresidentRecords.MeasureEval | grid.js:488-540 | "measure >= x" holds exactly when the measure is known and at least x |
| PresidentRecords.HeavyRule | grid.js:505-521 | "at least N lbs" compiles to "weight >= N" and accepts exactly the presidents with a known weight of at least N pounds, for every number N |
| PresidentRecords.TallRule | grid.js:489-496 | "6 feet or taller" accepts exactly the presidents with a known height of at least 72 inches |
| PresidentRecords.WonReElectionRule | grid.js:394-544 | "won re-election" compiles to the plain re-elected flag and accepts exactly the presidents whose normalised value is "yes", "true" or "1" |
| PresidentRecords.BornEarlyRule | grid.js:394-550 | "born before 1800" compiles to the plain born-before-1800 flag and accepts exactly the presidents whose normalised value is "yes", "true" or "1" |
| PresidentRecords.BornInOhioRule | grid.js:555-559 | "born in ohio" accepts exactly the presidents whose normalised birth state contains "ohio" |
| Presidents.FindPresident | grid.js:724-728 | the found president is in the records and is named by the lower-cased guess through its full or last name; nothing is found exactly when no record is so named; the one found is the first so named |
| Presidents.ValidAnswers | grid.js:859-861 | a president is listed exactly when it is in the records and matches both labels |
| PresidentGame.Session.Guess | grid.js:722-761 | the guess count drops by one with a floor of 0; the cell is filled and the name used exactly when the guess names a known, unused president who matches both labels; otherwise cells and used set are unchanged; the invariant is kept |
| PresidentGame.Session.Place | grid.js:756-758 | the chosen cell shows the name, the name is added to the used set, and the invariant is kept |
| PresidentGame.Session.GiveUp | grid.js:589-594 | no guesses remain and the board is kept |
| PresidentGame.Session.constructor | grid.js:679-680 | a fresh board has nine guesses, no used names and nine empty cells |
| PresidentGame.PlacedIsValidAnswer | grid.js:859-861 | every shown name is one of the answers the "view answers" list gives for its cell |
| PresidentGame.PlacingKeepsPlaceable | grid.js:754-758 | filling a cell with a president who fits it keeps every shown name fitting its cell |
| Board.PlacingKeepsLayout | grid.js:744-758 | showing an unused name and marking it used keeps names used and distinct |
| Board.CellReadsItsLabels | grid.js:749-753 | on a full board, cell `3r + k` is checked against the label of row `r` and the label of column `k` |
| Countries.MatchGeoLabel | geo.js:149-157 | a missing country or a missing or empty label never matches |
| CountryFacts.MatchesCanonicalGeoLabel | geo.js:149-252 | on a non-empty canonical label the matcher is the rule chain |
| CountryFacts.GeoLabelSeesCanonicalForm | geo.js:152-157 | raw and canonical labels get the same verdict |
| CountryFacts.NameRuleDecidesFirst | geo.js:160-164 | a "name …" label is decided by containment of the trimmed capture in the lower-cased name, before every other rule |
| CountryFacts.CountryNameInCapitalIsNameRule | geo.js:160-191 | "country name in capital" is caught by the name rule, so the stored name-in-capital flag never influences it |
| CountryFacts.ContinentIsExact | geo.js:167-171 | the continent captured is one of the seven, and the label accepts exactly the countries of that continent |
| CountryFacts.RegionIsContainment | geo.js:174-178 | a region label accepts exactly the countries whose region contains the trimmed capture |
| CountryFacts.FlagRuleReturnsStoredValue | geo.js:181-191 | a yes/no label returns the stored boolean unchanged |
| CountryFacts.BorderRulesNeedCount | geo.js:199-216 | the border rules fire only when the border count is known; otherwise control falls through to the rank rules |
| CountryFacts.BorderBetweenIsInclusive | geo.js:211-216 | "borders between a and b" is the inclusive, order-independent range, and both ends are accepted |
| Scan.BetweenSymmetric | geo.js:215 | the between test does not depend on the order of its bounds and includes both |
| CountryFacts.MissingRankNeverMatches | geo.js:224 | a missing rank never matches |
| CountryFacts.RankEqualityFirst | geo.js:225-226 | an `=` form decides first, by equality |
| CountryFacts.RankBetweenIsInclusive | geo.js:235-240 | when no single operator applies, between is inclusive and order-independent |
| CountryFacts.RankWithoutOperatorFails | geo.js:241 | a rank label with no operator form matches nothing |
| CountryReadback.ContinentReadback | geo.js:167-171 | "in C" reads back the continent C, for each of the seven |
| CountryReadback.RegionReadback | geo.js:174-178 | "region: R" reads back R for every region text R that starts with a non-space character from the region pattern's class |
| CountryReadback.BetweenTailReads | geo.js:211-213 | ` between A and B` at the end of a label reads back the values of the digit strings A and B |
| CountryReadback.BordersBetweenReadback | geo.js:211-213 | "borders between A and B" reads back A and B for all numbers A and B |
| CountryReadback.BordersBetweenMatches | geo.js:199-216 | "borders between A and B" accepts exactly the countries with a known border count between A and B, inclusive, in either order |
| CountryReadback.BordersEqualReadback | geo.js:199-202 | "borders = N" reads back N for every number N |
| CountryReadback.BordersEqualMatches | geo.js:199-202 | "borders = N" accepts exactly the countries whose border count is N |
| CountryReadback.RankBetweenReadback | geo.js:235-240 | "population rank between A and B" reads back A and B for all numbers A and B |
| CountryReadback.RankBetweenRule | geo.js:235-249 | the rank rules accept "population rank between A and B" for exactly the countries with a known population rank between A and B, inclusive, in either order |
| CountryReadback.RankRangeMatchesNothing | geo.js:222-249 | "population rank A-B" (no `between`/`from`, no operator) matches no country, for all numbers A and B |
| CountryFacts.YesIgnoresCase | geo.js:65 | `yes` gives a value and its lower-cased form the same verdict |
| CountryFacts.NumReadsDecimal | geo.js:66-69 | `num` reads back every decimal numeral |
| CountryFacts.NumReadsNegativeDecimal | geo.js:66-69 | `num` reads back a minus sign followed by a numeral as the negative number |
| CountryFacts.NumReadsDigits | geo.js:66-69 | `num` of a non-empty digit string is that string's value |
| CountryFacts.NumNeedsDigit | geo.js:66-69 | a value without digits reads as no number |
| CountryFacts.KeepNumCharsAppend | geo.js:67 | the clean-up before `parseInt` works character by character: it distributes over concatenation |
| CountryFacts.NumSkipsOther | geo.js:67 | a character other than a digit or a minus sign, wherever it stands, does not change what `num` reads |
| CountryFacts.NumKeepsNumChar | geo.js:67 | a digit or a minus sign is kept, in its place |
| Countries.FindCountry | geo.js:400-404 | the found country is in the records and is named by the lower-cased guess through its name or an alias; nothing is found exactly when no record is so named; the one found is the first so named |
| Countries.FindAsLoaded | geo.js:400-404 | as loaded, the lookup succeeds only on a first record whose name matches, and finds nothing only when there are no records |
| CountryFacts.AliasLookupThrows | geo.js:400-404 | with the loader's records the lookup throws at the first record whose name differs, where the alias-aware lookup finds the country |
| CountryFacts.FirstRowFoundByBoth | geo.js:400-404 | both lookups agree when the first record matches |
| CountryGame.Session.Guess | geo.js:399-444 | the guess count drops by one with a floor of 0; the cell is filled and the name used exactly when the guess names a known, unused country that satisfies both labels; otherwise cells and used set are unchanged; the invariant is kept |
| CountryGame.Session.Fitting | geo.js:432-435 | each side, written as "true when the label matches or names a name, else the matcher again", comes to the label matching the country or mentioning "name"; the verdict is both sides together |
| CountryGame.Session.Place | geo.js:436-439 | the chosen cell shows the name, the name is used, and the invariant is kept |
| CountryGame.Session.constructor | geo.js:356-357 | a fresh board has nine guesses, no used names and nine empty cells |
| CountryGame.PlacedSatisfiesLabels | geo.js:432-440 | every shown name belongs to a country of the records that satisfies its row and column labels |
| CountryGame.PlacingKeepsPlaceable | geo.js:435-440 | filling a cell with a country that satisfies its labels keeps every shown name satisfying its cell |
| CountryGame.NameLabelAcceptsEveryCountry | geo.js:432-433 | a label mentioning "name" in any case counts as satisfied by every country |

## Left out

- Fetching Wikipedia images, the daily grid files and the CSV, `localStorage`, the DOM, the modals, sharing and `setTimeout` are I/O or UI and are not part of this model.
- `index.js` is not part of this model. It is a data-generation script with no matching logic.
- The current year is a parameter (`currentYear`); wall-clock day computation and path routing are left out.
- The loader column lookups with their header-typo fallbacks are left out. Records have a fixed schema, with `Option` for numbers that may be missing.
- Years in office, height and weight are `real` values with exact comparisons; floating-point rounding is not modelled.
- Integer parsing has no overflow and no precision limit; `parseInt` of a stored number is taken to be that number.
- Case mapping is ASCII-only, which covers every phrase the rules test.
- Only the label shapes the rules compare against are modelled as recognisers; there is no general regular-expression engine.
- The cell index is a parameter below 9. The page's active-cell lookup is UI.
- PresidentGame.Session.Guess: the guess is one atomic step. In `grid.js` it is not: after the used-name and label checks, `handleGuess` awaits the image fetch (grid.js:755) and only then fills whatever cell is active and marks the name used (grid.js:756-758). While the fetch is pending, a click on another cell moves the active cell (grid.js:664-666), and a second guess of the same president passes the used-name check. Such an interleaving can show a president in a cell whose labels were not checked, or in two cells; the invariant `Valid()` holds only for guesses that do not overlap. The countries game awaits nothing inside `handleGuess` and is not affected.
- The UI disables guessing once no guesses remain and does not reopen a filled cell. `handleGuess` itself checks neither, so the model leaves both guards out and the board has no terminal state.
- CountryGame.Session.Guess uses the alias-aware lookup `Countries.FindCountry`, with aliases given per record. The loader as written never builds them; see Findings.
- The suggestion list and autocomplete are UI and are left out.

Code followed where a prose description of the game says otherwise:

- "Population Rank 1-50" has no `between`/`from` keyword and no operator, so it matches nothing: its canonical form "population rank 1-50" is an instance of `CountryReadback.RankRangeMatchesNothing`.
- `checkFlag` with and without negation is not a complement: a blank value fails both (`PresidentFacts.CheckFlagExclusive`).
- "country name in capital" never reaches its yes/no rule, because the name rule catches it first (`CountryFacts.CountryNameInCapitalIsNameRule`).
- The "ended in Nth century" rules are unreachable (`PresidentFacts.EndedInCenturyReadsStart`).

## Findings

| source | as written | input that shows it | evidently intended | confidence | as-written member | corrected member |
|---|---|---|---|---|---|---|
| geo.js:400-404 | the guess lookup calls `c.aliases_lc.includes(guess)` on every record whose lower-cased name differs, but the loader (geo.js:100-136) never sets `aliases_lc`, so the call throws before the guess count is decremented; the suggestion filter reads `c.aliases_lc.flatMap` (geo.js:296) and throws the same way, so the list that holds the guess buttons (geo.js:320) is not drawn | records whose first row is "France" and whose second row is "Spain", with the guess "spain" | records carry an alias list, and the lookup finds the first country named by the guess or by one of its aliases | not executed | Countries.FindAsLoaded (CountryFacts.AliasLookupThrows) | Countries.FindCountry (CountryGame.Session.Guess) |
| grid.js:403-456 | the negation test `/\b(not\|no\|…)\b/` is applied to every yes/no label and matches the opening word "no" of the synonym "no spouse in office" (grid.js:453), so that label tests the unmarried-in-office column negated: it accepts the presidents married in office and rejects the unmarried ones | the label "no spouse in office" and a president whose unmarried-in-office value is "no" | the synonym tests the unmarried-in-office column affirmatively, like "unmarried in office" | not executed | Presidents.FlagRulesAsWritten (PresidentFlags.NoSpouseAsWritten, PresidentFlags.NoSpouseMarriedMatches) | Presidents.FlagRules (PresidentFlags.NoSpouseRule) |
