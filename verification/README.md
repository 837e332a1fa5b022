# chem-match core, modelled in Dafny

chem-match is a browser game about balancing chemical equations. This project models the game's logic, leaving out its pages and components:

- **Formula parser** (`src/utils/chemistryUtils.ts`, `parseFormula`).
  - It removes state tags such as `(aq)`.
  - It then scans the formula left to right, keeping a stack of partial atom counts with one frame per open parenthesised group.
- **Balance checker** (same file):
  - `countAtomsWithCoefficients` totals one side of an equation;
  - `areAtomCountsEqual` compares two totals, treating a missing element as 0;
  - `isEquationBalanced` and `getAtomComparison` combine the two;
  - `formatAtomCounts` writes a count as text.
- **Equation catalog and its older checker** (`src/data/equations.ts`):
  - the three catalogued equations;
  - a formula reader built on the global regular expression `/([A-Z][a-z]?)(\d*)/g`;
  - `countAtoms`;
  - a strict `isEquationBalanced` that compares with `!==`;
  - `getEquationById`.
- **Player-progress store** (`src/store/gameStore.ts`): its initial state and its nine actions, on a class whose fields the actions replace.
- **Formula beautifier** (`src/utils/formulaBeautifier.tsx`, `beautifyFormula`). It cuts a formula into numbered element, subscript, superscript (charge) and plain parts.

## JavaScript behaviour made explicit

- **Counts come from `parseInt(x) || 1`.** An absent count and a count of 0 both read as 1.
  - The catalog's regular-expression reader instead uses `match[2] ? parseInt(match[2], 10) : 1`, so there "0" counts 0.
- **`\d` matches ASCII digits only.** The catalog writes formulas with Unicode subscripts ("H₂O"). Both readers see those subscripts as non-digits, so "H₂" reads as one hydrogen.
- **Plain objects used as dictionaries keep their keys in insertion order.** `AtomCount` stores the key order next to the counts, because `Object.keys` decides the order of `unbalancedElements`. `new Set([...])` keeps the first occurrence of each key.
- **Unbalanced parentheses have three outcomes in the stack parser.**
  - A `)` with no group to close pops the root frame (`stack.pop() || {}`).
  - The parse then returns `undefined` (`stack[0]` of an empty stack).
  - It throws a TypeError as soon as it writes into a frame that does not exist.
  - `Object.entries(undefined)` makes the totalling throw too.
  - An unclosed `(` silently drops its group.
- **The strict checker reads a missing key as `undefined`.** `undefined !== 0`, so an element that appears on one side only always fails that check.
- **Experience uses `Math.floor(xp / 100) + 1`.** Dafny's `/` by a positive divisor rounds down in the same way.
- **A hint costs `Math.max(0, credits - 10)`.**
- **`{ ...state, ...patch }` merges one level deep.** A `Partial<...>` argument is a record of optional fields.

## Behaviour worth knowing

- **State tags are removed wherever they stand.** `formula.replace(/\([slgaq]+\)/g, '')` drops every such tag, not only a trailing one (`FormulaParser.Strip`, `ParserProperties.ParseIgnoresStates`).
- **Unbalanced elements keep insertion order.** `getAtomComparison` lists them in first-occurrence order, the reactants' elements first; nothing sorts them (`Balance.DifferingOfCounts`, `Balance.CompareMeaning`).
- **Coefficients are not checked.** The aggregator multiplies by whatever coefficient it is given, so a coefficient of 0 leaves every element of that molecule at 0 (`Balance.ZeroCoefficient`, `Balance.ContributionOfOne`).
- **A stray `)` pops the root frame.** The parse then returns `undefined`, or throws a TypeError as soon as it writes into the missing frame (`ParserProperties.UnderflowExamples`).

## Model

| member | source | states |
|---|---|---|
| ChemTypes.AsWeighted | src/data/equations.ts:185-187 | A catalog molecule is passed on as its formula and coefficient, one entry per molecule, in order |
| Text.TakeRun | src/utils/chemistryUtils.ts:59-63 | The inner `while` loops take the longest run of matching characters from `i` and stop at the first other character or at the end |
| Text.CountOrOne | src/utils/chemistryUtils.ts:64 | `parseInt(count) \|\| 1` is exactly 1 for an empty run or a run worth 0, and the decimal value otherwise |
| Text.LessTotal | src/utils/chemistryUtils.ts:170 | The comparison used for `localeCompare` orders any two distinct strings one way or the other |
| Text.LessTransitive | src/utils/chemistryUtils.ts:170 | The comparison used for `localeCompare` is transitive, so sorting by it is well defined |
| Seqs.Dedup | src/utils/chemistryUtils.ts:101-104 | `new Set([...])` holds every element of the list, nothing else, each once |
| Seqs.DedupSnoc | src/store/gameStore.ts:183 | Adding an element to a Set appends it at the end unless it is already there, in which case nothing changes |
| Seqs.DedupPrefix | src/utils/chemistryUtils.ts:143-146 | The Set of `a` followed by more elements starts with the Set of `a`: earlier keys keep their places |
| AtomCounts.BumpCount | src/utils/chemistryUtils.ts:68 | `current[element] = (current[element] \|\| 0) + num` adds `num` to that element's entry, which starts at 0 when missing |
| AtomCounts.AddScaledCount | src/utils/chemistryUtils.ts:44-46 | Merging a popped group adds the group's counts, times the multiplier, into the frame below, element by element |
| AtomCounts.AddScaledPrefixCount | src/utils/chemistryUtils.ts:44-46 | After the first `n` entries of the group, the frame holds its old counts plus those entries times the multiplier |
| AtomCounts.TotalPermutation | src/utils/chemistryUtils.ts:86-92 | Summing the molecules' atom counts does not depend on the molecules' order |
| AtomCounts.ScaleSum | src/utils/chemistryUtils.ts:90 | Counts scaled by two coefficients and added equal the counts scaled by the coefficients' sum |
| FormulaParser.TagLength | src/utils/chemistryUtils.ts:17 | A state tag recognised at the front is `(`, one or more of `s l g a q`, then `)`; and whenever the text starts with such a tag, that tag is what is recognised |
| FormulaParser.ParseFormula | src/utils/chemistryUtils.ts:13-76 | The loop computes exactly the parse function: the atom count, `undefined` or the TypeError |
| FormulaParser.CloseAt | src/utils/chemistryUtils.ts:30-46 | A `)` and its digits are consumed, and the scan continues from the stack with the group merged |
| FormulaParser.AtomAt | src/utils/chemistryUtils.ts:47-68 | A symbol and its digits are consumed, and the scan continues from the stack with the symbol's count added to the top frame |
| FormulaParser.PopAndMerge | src/utils/chemistryUtils.ts:41-46 | Pops the group (`{}` when the stack is empty) and merges it, times the multiplier, into the frame below, or throws when that frame is missing and the group is not empty |
| FormulaParser.AddScaledInto | src/utils/chemistryUtils.ts:44-46 | The merge loop leaves the frame below with its counts plus the group's counts times the multiplier |
| FormulaParser.ScanOpenAt | src/utils/chemistryUtils.ts:26-29 | `(` pushes an empty frame and moves on by one character |
| FormulaParser.ScanSkipAt | src/utils/chemistryUtils.ts:69-72 | Any other character is skipped and nothing else changes |
| FormulaParser.ScanCloseAt | src/utils/chemistryUtils.ts:30-46 | `)` followed by a maximal digit run merges the group with that multiplier and resumes after the digits |
| FormulaParser.ScanAtomAt | src/utils/chemistryUtils.ts:47-68 | An uppercase letter, its lowercase letters and its digit run add one element into the top frame and resume after the digits |
| ParserProperties.ParsePositive | src/utils/chemistryUtils.ts:13-76 | A parsed atom count has each key once, each key with an entry, and every count at least 1 |
| ParserProperties.ScanFramesOk | src/utils/chemistryUtils.ts:23-73 | From frames with valid, positive counts, every frame of the stack keeps valid and positive counts, whatever the input |
| ParserProperties.StripAppend | src/utils/chemistryUtils.ts:17 | Removing state tags from two texts separately and joining the results is the same as removing them from the joined text, when the second text starts with neither a state letter nor `)` |
| ParserProperties.ParseIgnoresStateTag | src/utils/chemistryUtils.ts:16-17 | Appending any state tag to a formula does not change its parse |
| ParserProperties.ParseIgnoresStates | src/utils/chemistryUtils.ts:16-17 | `(s)`, `(l)`, `(g)` and `(aq)` after a formula change nothing |
| ParserProperties.ScanAppend | src/utils/chemistryUtils.ts:23-73 | Scanning a text in two pieces is scanning the first piece and then the second from where the first stopped |
| ParserProperties.UnclosedGroupDropped | src/utils/chemistryUtils.ts:75 | A `(` that is never closed, with no `)` after it, drops everything after it: a formula that parsed keeps its parse |
| ParserProperties.ScanNeverUnderflows | src/utils/chemistryUtils.ts:40-42 | When no `)` closes more groups than are open, the scan neither throws nor empties its stack |
| ParserProperties.ParseDefined | src/utils/chemistryUtils.ts:75 | Such a formula always parses to an atom count |
| ParserProperties.LoneCloseUndefined | src/utils/chemistryUtils.ts:41-42 | `")"` pops the root frame and the parse returns `undefined` |
| ParserProperties.CloseAfterAtomThrows | src/utils/chemistryUtils.ts:44-45 | `"H)"` merges a non-empty group into a missing frame and throws |
| ParserProperties.AtomAfterCloseThrows | src/utils/chemistryUtils.ts:67-68 | `")H"` writes an element into a missing frame and throws |
| ParserProperties.UnderflowExamples | src/utils/chemistryUtils.ts:30-75 | The three underflow outcomes side by side |
| FormulaRender.ScanRender | src/utils/chemistryUtils.ts:23-73 | Scanning the text of a well-formed formula tree adds exactly the tree's atoms into the current frame |
| FormulaRender.StripRender | src/utils/chemistryUtils.ts:17 | The text of a well-formed formula holds no state tag, so the tag removal leaves it alone |
| FormulaRender.BuildCount | src/utils/chemistryUtils.ts:44-46 | The atoms a tree adds are the counts of its elements plus each group's atoms times its multiplier |
| FormulaRender.ParseRender | src/utils/chemistryUtils.ts:13-76 | Every well-formed formula, nested groups included, parses to the atoms it denotes |
| FormulaRender.ParseWater | src/utils/chemistryUtils.ts:11 | `H2O` parses to `{H: 2, O: 1}` |
| FormulaRender.ParseCalciumHydroxide | src/utils/chemistryUtils.ts:11 | `Ca(OH)2` parses to `{Ca: 1, O: 2, H: 2}` |
| Balance.CountAtomsWithCoefficients | src/utils/chemistryUtils.ts:81-95 | The loop computes the total of the side, or throws when a formula does not parse to an atom count |
| Balance.TotalsCount | src/utils/chemistryUtils.ts:81-95 | Totalling succeeds exactly when every formula parses, and then it gives each element the sum of count × coefficient |
| Balance.SumPermutation | src/utils/chemistryUtils.ts:86-92 | Reordering the molecules of a side changes neither whether it parses nor its totals |
| Balance.CoefficientLinearity | src/utils/chemistryUtils.ts:86-92 | A formula listed twice totals like that formula listed once with the two coefficients added |
| Balance.ContributionOfOne | src/utils/chemistryUtils.ts:89-91 | One molecule contributes each element's count times its coefficient |
| Balance.ZeroCoefficient | src/utils/chemistryUtils.ts:90 | A coefficient of 0 keeps the formula's elements as keys, each at 0 |
| Balance.AreAtomCountsEqual | src/utils/chemistryUtils.ts:100-113 | True exactly when every element has the same count on both sides, a missing key reading as 0 |
| Balance.SameCountsProperties | src/utils/chemistryUtils.ts:107 | The comparison is reflexive and symmetric, and `{H: 2}` equals `{H: 2, O: 0}` |
| Balance.IsEquationBalanced | src/utils/chemistryUtils.ts:118-126 | The check answers exactly when every formula parses, and answers true exactly when each element totals the same on both sides |
| Balance.BalanceSymmetric | src/utils/chemistryUtils.ts:118-126 | Swapping reactants and products changes neither whether the check throws nor its verdict |
| Balance.GetAtomComparison | src/utils/chemistryUtils.ts:131-162 | The loop computes the comparison: both totals, the differing elements in Set order, and `balanced` when there are none |
| Balance.DifferingOfCounts | src/utils/chemistryUtils.ts:143-154 | The listed elements are exactly those whose counts differ, each once, the reactants' elements first, and none are listed exactly when the counts agree |
| Balance.DifferingOfCountsMembers | src/utils/chemistryUtils.ts:150-153 | An element is listed exactly when its two counts differ, a missing key reading as 0 |
| Balance.CompareMeaning | src/utils/chemistryUtils.ts:131-162 | The comparison answers exactly when every formula parses; it lists exactly the elements whose totals differ, each once, reactants' elements first, and its `balanced` equals the answer of `isEquationBalanced` |
| BalanceExamples.WaterFormationBalanced | src/utils/chemistryUtils.ts:118-162 | 2 H2 + O2 → 2 H2O is balanced and lists no element |
| BalanceExamples.WaterFormationUnbalanced | src/utils/chemistryUtils.ts:118-162 | H2 + O2 → H2O is not balanced and lists oxygen alone |
| BalanceExamples.PropaneCombustionBalanced | src/utils/chemistryUtils.ts:118-126 | C3H8 + 5 O2 → 3 CO2 + 4 H2O is balanced |
| BalanceExamples.UndefinedFormulaThrows | src/utils/chemistryUtils.ts:87-89 | A formula whose parse is `undefined` makes both checks throw |
| AtomFormat.Sort | src/utils/chemistryUtils.ts:170 | The sorted keys are a permutation of the keys |
| AtomFormat.SortSorted | src/utils/chemistryUtils.ts:170 | The sorted keys are in increasing order |
| AtomFormat.SortedUnique | src/utils/chemistryUtils.ts:170 | Two sorted lists without repeats that hold the same elements are equal, so the display order is determined |
| AtomFormat.Entries | src/utils/chemistryUtils.ts:169-171 | One `count element` entry per key, in sorted key order |
| AtomFormat.FormatDependsOnlyOnCounts | src/utils/chemistryUtils.ts:168-173 | The text depends on the counts only, not on the order in which the elements were met |
| AtomFormat.FormatAtomCounts | src/utils/chemistryUtils.ts:168-173 | The text is the entries `count element` of a sorted arrangement of the keys, joined by ", "; it is empty exactly when there are no elements, and a single entry for one element |
| AtomFormat.FormatExample | src/utils/chemistryUtils.ts:166 | `{H: 4, O: 2}` formats as `4 H, 2 O`, in either key order |
| LegacyEquations.SymbolLength | src/data/equations.ts:158 | `[A-Z][a-z]?` takes the uppercase letter, and takes the next character too exactly when it is a lowercase letter |
| LegacyEquations.MatchesSymbols | src/data/equations.ts:158-164 | Every match names an uppercase letter optionally followed by one lowercase letter |
| LegacyEquations.Exec | src/data/equations.ts:158-162 | One `exec` finds the next match from `lastIndex` and where it ends, or reports that there is none |
| LegacyEquations.ParseFormula | src/data/equations.ts:157-169 | The loop collects every match of the global expression, in order |
| LegacyEquations.MatchesAt | src/data/equations.ts:158-165 | At an uppercase letter the match is the symbol with its digit run, and the search resumes after the digits |
| LegacyEquations.AddMatchesCount | src/data/equations.ts:176-179 | Adding a molecule's matches adds each element's matched counts times the coefficient |
| LegacyEquations.CountAtoms | src/data/equations.ts:171-183 | The loops compute the catalog's total of a side |
| LegacyEquations.CountedMeaning | src/data/equations.ts:171-183 | That total gives each element the sum over molecules of its matched counts times the coefficient |
| LegacyEquations.IsEquationBalanced | src/data/equations.ts:185-198 | The strict check holds exactly when both sides count the same elements with the same totals |
| LegacyEquations.SameLookups | src/data/equations.ts:189-197 | The `!==` loop over the Set of keys holds exactly when the two counts are the same map |
| LegacyEquations.LookupsAgree | src/data/equations.ts:191-197 | The loop answers true exactly when no listed element has lookups that differ under `!==` on the two sides |
| LegacyEquations.StrictByLookups | src/data/equations.ts:189-197 | For valid counts and the deduplicated keys of both sides, equal lookups on every one of those keys is equality of the maps |
| LegacyEquations.StrictImpliesSameCounts | src/data/equations.ts:185-198 | An equation that passes the strict check has the same total for every element |
| LegacyEquations.OneSidedElementUnbalanced | src/data/equations.ts:192 | An element on one side only fails the strict check, even when its total is 0 |
| LegacyEquations.FirstWithId | src/data/equations.ts:201 | The index found is the first equation with that id, or the end of the list |
| LegacyEquations.GetEquationById | src/data/equations.ts:200-202 | Returns nothing exactly when no equation has that id, and otherwise the first equation with it |
| LegacyEquations.CatalogLookups | src/data/equations.ts:52-98 | `eq-002` is found and is a decomposition, and `eq-004` is not in the catalog |
| LegacyEquations.CatalogSynthesisPassesStrictCheck | src/data/equations.ts:4-40 | The first catalog entry is marked unbalanced, yet with its subscripts read as non-digits it passes the strict check |
| LegacyEquations.MatchesZero | src/data/equations.ts:164 | An explicit count of 0 is kept as 0 |
| LegacyEquations.MatchesOneLowercase | src/data/equations.ts:158 | `Uuo` matches `Uu` and skips the third letter |
| LegacyEquations.MatchesCalciumHydroxide | src/data/equations.ts:158 | The expression skips parentheses and the group multiplier: `Ca(OH)2` gives Ca, O, H once each |
| LegacyEquations.MatchesSubscripted | src/data/equations.ts:158 | An element followed by the subscript `₂` matches once, with count 1 |
| LegacyEquations.MatchesWaterSubscripted | src/data/equations.ts:35 | The catalog's `H₂O` matches H and O once each |
| ParserAgreement.ScanAgrees | src/utils/chemistryUtils.ts:47-68 | On formulas without parentheses, with at most one lowercase letter per symbol and no count of 0, the stack scan adds exactly the expression's matches |
| ParserAgreement.ParseAgrees | src/utils/chemistryUtils.ts:13-76 | On such formulas the two readers give the same atom count |
| ParserAgreement.SidesAgree | src/utils/chemistryUtils.ts:81-95 | On such formulas both readers total a side alike, and the stack parser never fails |
| ParserAgreement.CheckersAgree | src/utils/chemistryUtils.ts:118-126 | On such formulas the lenient check answers, compares the catalog's totals, and accepts every equation the strict check accepts |
| ParserAgreement.ZeroCountDiffers | src/utils/chemistryUtils.ts:64 | `H0` counts one hydrogen for the stack parser and zero for the expression |
| ParserAgreement.GroupDiffers | src/utils/chemistryUtils.ts:30-46 | `Ca(OH)2` multiplies the group for the stack parser and not for the expression |
| ParserAgreement.LongSymbolDiffers | src/utils/chemistryUtils.ts:53-56 | `Uuo` is one symbol for the stack parser and `Uu` for the expression |
| ParserAgreement.ZeroCoefficientDiffers | src/data/equations.ts:192 | `0 H → nothing` passes the lenient check and fails the strict one |
| Beautifier.BeautifyFormula | src/utils/formulaBeautifier.tsx:8-73 | The loop computes the parts of the formula, and nothing for the empty formula |
| Beautifier.ScanPass | src/utils/formulaBeautifier.tsx:16-69 | One iteration emits the parts of the token at `i` and the index after it |
| Beautifier.RunEndMeaning | src/utils/formulaBeautifier.tsx:27-30 | A digit or charge run ends at the first character that does not belong to it |
| Beautifier.ClosePass | src/utils/formulaBeautifier.tsx:22-33 | `)` gives a plain part and, when digits follow, one subscript part with all of them |
| Beautifier.ElementPass | src/utils/formulaBeautifier.tsx:34-55 | An element gives its symbol part and, when digits follow, one subscript part |
| Beautifier.ChargePass | src/utils/formulaBeautifier.tsx:56-64 | `^`, `+` or `-` starts one superscript part holding the following digits and signs |
| Beautifier.PassMeaning | src/utils/formulaBeautifier.tsx:16-69 | Each iteration's parts spell the characters it consumed, keep their shapes and numbering, and cannot be extended by the next character |
| Beautifier.PartsText | src/utils/formulaBeautifier.tsx:15-70 | Concatenating the parts gives back the formula, character for character |
| Beautifier.PartsTokenized | src/utils/formulaBeautifier.tsx:15-70 | The parts are numbered 0, 1, 2, … in order, each has its kind's shape, each run is maximal, and a subscript follows only an element or `)` |
| Beautifier.PartsCount | src/utils/formulaBeautifier.tsx:15-70 | A non-empty formula gives at least one part and never more parts than characters |
| Beautifier.BeautifyWater | src/utils/formulaBeautifier.tsx:4 | `H2O` gives element H, subscript 2, element O |
| GameStore.MergeStatsFields | src/store/gameStore.ts:86-89 | Each of the eleven statistics fields is overwritten when the patch supplies it and kept when the patch leaves it out |
| GameStore.MergeStatsProperties | src/store/gameStore.ts:86-89 | The empty patch changes nothing; merging twice is merging once; two merges are one merge of the overlaid patches |
| GameStore.MergePreferencesFields | src/store/gameStore.ts:120-123 | Each of the nine preference fields is overwritten when the patch supplies it and kept when the patch leaves it out |
| GameStore.MergePreferencesProperties | src/store/gameStore.ts:120-123 | The same three shallow-merge laws for preferences |
| GameStore.LevelFor | src/store/gameStore.ts:94 | The level is the one whose hundred-point band holds the experience |
| GameStore.LevelForMonotonic | src/store/gameStore.ts:94 | More experience never gives a lower level |
| GameStore.AddExperience | src/store/gameStore.ts:91-102 | Experience grows by `xp`, the level is the one earned, and nothing else changes |
| GameStore.AddExperienceProperties | src/store/gameStore.ts:91-102 | Two gains are one gain of the sum, and a non-negative gain never lowers an earned level |
| GameStore.AddPoints | src/store/gameStore.ts:104-118 | Only the counter of the chosen kind changes, by `points` |
| GameStore.AddPointsProperties | src/store/gameStore.ts:104-118 | Points of one kind add up, and points of different kinds commute |
| GameStore.Solved | src/store/gameStore.ts:139-148 | One more equation balanced, the streak one longer, the best streak the larger of the new streak and the old best, nothing else changed |
| GameStore.SolvedKeepsStreakRecorded | src/store/gameStore.ts:139-148 | After a solution the best streak is never below the current one, and it is either the new streak or the old best |
| GameStore.SolveTimesFromStart | src/store/gameStore.ts:139-148 | From the initial statistics, `n` solutions make the streak, the best streak and the solved count all `n` |
| GameStore.ChargeHint | src/store/gameStore.ts:171 | A hint takes 10 credits, never leaving fewer than 0, and changes nothing else |
| GameStore.ChargeHintsCredits | src/store/gameStore.ts:166-173 | `n` hints from `c` credits leave `max(0, c - 10n)` |
| GameStore.CompleteProperties | src/store/gameStore.ts:181-184 | The list holds the id and every earlier entry, once each, earlier entries first; completing the same id again changes nothing |
| GameStore.CompleteMembers | src/store/gameStore.ts:183 | An id is in the new list exactly when it was completed before or is the one just completed |
| GameStore.GameStore.constructor | src/store/gameStore.ts:43-83 | The store starts from the initial statistics, preferences, levels and empty lists, with hint level 0 |
| GameStore.GameStore.UpdatePlayerStats | src/store/gameStore.ts:86-89 | The statistics become the shallow merge with the patch |
| GameStore.GameStore.AddExperienceAction | src/store/gameStore.ts:91-102 | The statistics gain the experience and the earned level, and the streak invariant is kept |
| GameStore.GameStore.AddPointsAction | src/store/gameStore.ts:104-118 | The chosen counter grows by `points`, and the level and streak invariants are kept |
| GameStore.GameStore.UpdatePreferences | src/store/gameStore.ts:120-123 | The preferences become the shallow merge with the patch |
| GameStore.GameStore.SetCurrentEquation | src/store/gameStore.ts:125-129 | The equation becomes current and the hint level restarts at 0 |
| GameStore.GameStore.SubmitSolution | src/store/gameStore.ts:131-157 | Accepted exactly when an equation is current; then a solution is recorded and its id appended, repeats included; otherwise nothing changes |
| GameStore.GameStore.UseHint | src/store/gameStore.ts:159-179 | With a next hint available, it returns that hint, moves the level past it and charges for it; otherwise it returns nothing and changes nothing |
| GameStore.GameStore.CompleteEquation | src/store/gameStore.ts:181-184 | The completed list becomes the Set of the old list plus the id |
| GameStore.GameStore.ResetProgress | src/store/gameStore.ts:186-192 | Statistics, levels and both lists go back to their initial values; preferences and the current equation stay |

## Left out

- **Persistence.** The zustand `persist` middleware, its storage key and `partialize` are not modelled: they are I/O.
- **React.** Node construction, the `BeautifiedFormula` wrapper and `className` are left out. The beautifier's output is modelled as a list of numbered parts.
- **Fields that are only stored.** `currentSession`, `isDragging`, `selectedAtom` and `showTutorial` are modelled as fields with their initial values. No modelled action changes them.
- **Numbers.** JavaScript numbers are doubles; the model uses unbounded integers.
  - Overflow, `NaN` and fractional coefficients are not modelled.
  - Neither is `parseInt` losing precision on very long digit runs.
  - Volumes in the preferences are `real` values that are only stored.
- **Strings.** Strings are sequences of code points, not UTF-16 units. No formula in the catalog uses a character outside the Basic Multilingual Plane.
- **Object keys.**
  - Keys inherited from `Object.prototype` are not modelled, and nothing is lost by that: both readers only make keys that start with an ASCII uppercase letter, and every inherited property name starts with a lowercase letter or `_`.
  - Neither is JavaScript's ordering of integer-like keys first. An element symbol starts with an uppercase letter, so it is never integer-like.
- **AtomFormat.Sort.** This is an insertion sort. JavaScript's sort algorithm is not modelled; only its result is, which is the same for any correct sort of keys without repeats.
- **Text.LessTotal.** `localeCompare` is modelled as code-point order. The two agree on element symbols, which are an uppercase letter followed by lowercase letters, but not on arbitrary text.
- **Balance.AreAtomCountsEqual.** It requires both counts to be well formed: keys without repeats and an entry for each key. This is the representation invariant of every count the program builds. The JavaScript function would accept any object.
- **LegacyEquations.SameLookups.** It requires well-formed counts, for the same reason as Balance.AreAtomCountsEqual.
- **GameStore.GameStore.UseHint.**
  - A negative hint level reads `hints[-1]`, which is `undefined`. The model returns no hint there, so `null` and `undefined` are not told apart.
  - The level cannot become negative through the store's actions.
- **GameStore.GameStore.UpdatePlayerStats.** A patch field that is present but explicitly `undefined` overwrites the field with `undefined` in JavaScript. The model treats it as absent.
- **GameStore.GameStore.UpdatePreferences.** It makes the same simplification for an explicit `undefined`.
- **GameStore.GameStore.SubmitSolution.** The coefficients are ignored and every submission is accepted, as in the code. The coefficients do not reach the model.
