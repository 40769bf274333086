# Year-end closing entries: a verified model

This project models the accounting engine of *Écritures de clôture*. That is a
teaching app for French year-end closing entries:

- FNP — *facture fournisseur non parvenue*;
- AAR — *avoir à recevoir*;
- CCA — *charges constatées d'avance*;
- FAE — *facture à établir*;
- AAE — *avoir à établir*;
- PCA — *produits constatés d'avance*.

Each has its reversal on 1 January N+1 (*extourne*). The model is written in
Dafny and proves properties of the engine:

- **Money** (`Money`): the VAT and gross-amount arithmetic, rounded half-up
  to the cent. Amounts are integer cents. The VAT rate is in tenths of a
  percent (20 % is 200, 5.5 % is 55).
- **Ledger** (`Ledger`): the catalogue of six entry models. Each line's
  amount closure becomes a formula kind: HT, TVA or TTC. The catalogue is
  initialised once, in place, by deriving each reversal with `makeReversal`.
  The live calculator is `ComputedEntries`.
- **Calendar** (`Calendar`): the inclusive month count and the number of
  months of a period that fall in the next year. Dates are calendar triples.
- **Scenarios** (`Scenarios`): exercise generation with `makeScenario`. It
  re-draws the model up to ten times to avoid the previous one, which it
  keeps in `lastKey`. For CCA and PCA it computes a prorated base. The module
  also covers `buildExpectedLines` and `makeQuiz`. The random draws are
  parameters.
- **Numbers** (`Numbers`): the part of JavaScript's `parseFloat` that grading
  relies on, on exact rationals, and the decimal text of whole numbers.
- **Rates** (`Rates`): a VAT rate written into a statement as JavaScript
  writes the number, read back by `parseFloat`.
- **Grading** (`Grading`): `sidesOk`, `accountsOk`, `amountsOk` and `allGood`
  of the exercise engine, and the blank form each level starts from.
- **Shuffling** (`Shuffling`): `shuffle`, an in-place Fisher–Yates shuffle
  on an array. It also covers the list of accounts offered at the *moyen*
  level.
- **Quiz** (`Quiz`): the explanations `explainRule`, `explainContrast`,
  `extractHints` and `makeExplanation`. It also has the `QuizEngine` state
  machine: `onChoose`, `next` and `restart`.
- **Text** (`Text`): the JavaScript string operations the engine uses, as
  pure functions: `trim`, `toLowerCase`, `includes` and `join`.

Conventions:

- `Math.round` rounds half-up, toward +∞, so the model rounds a ratio
  `num / den` of integers as `(2·num + den) div (2·den)`.
- A draw of `Math.random()` is a real `r` with `0 ≤ r < 1`.
- `Math.floor(r * n)` is `Draw(r, n)`.

## Model

Some definitions have no contract of their own. Each is stated by the rows
of the lemmas about it:

- `Ledger.SideTotal` and `Ledger.Balanced` (app/page.tsx:309-314): `BalancedIsEquality`, `ReversalTotals`, `ClosingBalances`.
- `Ledger.Catalogue` (app/page.tsx:144): `InitialisedArrayIsCatalogue`, `ModelOfIsDeclared`.
- `Calendar.JanNext` (app/page.tsx:639): `MonthsInNextYear`.
- `Scenarios.Redraw` (app/page.tsx:566-570): `RedrawBound`, `RedrawStops`.
- `Scenarios.ScenarioFor` (app/page.tsx:533-603): `ScenarioShape`, `ProrataShape`, `ScenarioGenerator.MakeScenario`.
- `Scenarios.QuizLevel` (app/page.tsx:784): `QuizLevelsOfEight`.
- `Scenarios.BuildExpectedLines` (app/page.tsx:606-630): `ExpectedLinesAreClosing`, `ExpectedLinesBalance`.
- `Shuffling.FisherYates` (app/page.tsx:648-652): `FisherYatesPermutes`, `Shuffle`.
- `Shuffling.AccountChoicesAsWritten` (app/page.tsx:468): `AccountMayBeMissing`.
- `Quiz.Hints` (app/page.tsx:856-882): `HintsMeaning`, `ExtractHints`.
- `Quiz.ExplainRule`, `Quiz.ExplainContrast`, `Quiz.ExplanationText` and `Text.Join` (app/page.tsx:791-854): the sentences themselves. Their structure is stated by `ContrastKind`, `MakeExplanation` and `KeyTextInjective`.

| member | source | states |
|---|---|---|
| Money.RoundToCent | app/page.tsx:50-53 | `Math.round(x*100)/100` of a ratio: the result is within half a cent of the exact value, ties going up |
| Money.RoundToCentUnique | app/page.tsx:50-53 | the rounded cent is the only integer within that half-cent window |
| Money.RoundWholeCents | app/page.tsx:647 | `round2` of an amount already in whole cents gives it back |
| Money.Round2 | app/page.tsx:647 | `round2` on amounts kept in whole cents is the identity |
| Money.ComputeTva | app/page.tsx:50-53 | `computeTVA` is HT × rate / 100 rounded half-up to the cent; it is non-negative for non-negative inputs and zero at rate 0 |
| Money.Ttc | app/page.tsx:54 | `TTC` exceeds HT by exactly the VAT |
| Money.VatExample | app/page.tsx:50-54 | 1000.00 at 20 % gives 200.00 VAT and 1200.00 TTC |
| Money.ComputeTvaMonotonic | app/page.tsx:50-53 | a larger HT amount never gets less VAT at the same non-negative rate |
| Ledger.Flip | app/page.tsx:55-56 | flipping a side always changes it |
| Ledger.EvaluateFormula | app/page.tsx:61-142 | the HT formula books the HT amount; the TTC formula books HT plus `computeTVA` |
| Ledger.MakeReversal | app/page.tsx:55-56 | `makeReversal` keeps count, order, account, label and formula, and changes every side |
| Ledger.ReversalInvolution | app/page.tsx:55-56 | reversing twice gives back the original lines |
| Ledger.EvaluateLines | app/page.tsx:300-307 | evaluation keeps count, order, accounts, labels and sides, and books each formula's amount |
| Ledger.BalancedIsEquality | app/page.tsx:312-314 | the `< 0.005` test on totals in whole cents holds exactly when debits equal credits |
| Ledger.ReversalTotals | app/page.tsx:55-56 | the reversal's total on one side is the closing entry's total on the other side |
| Ledger.ReversalPostings | app/page.tsx:300-310 | the evaluated reversal is the evaluated closing entry with every side flipped |
| Ledger.ReversalBalances | app/page.tsx:144 | the reversal of a balanced entry balances |
| Ledger.Declared | app/page.tsx:61-142 | each key's declared model sits at the key's position in the table |
| Ledger.InitialiseReversals | app/page.tsx:144 | the in-place pass sets every model's reversal to `makeReversal` of its closing lines and changes nothing else |
| Ledger.InitialisedArrayIsCatalogue | app/page.tsx:61-144 | the table after that pass is the catalogue the rest of the model reads |
| Ledger.FindModel | app/page.tsx:298 | `MODELS.find` returns the first model with the key, and nothing exactly when no model has it |
| Ledger.CatalogueCoversKeys | app/page.tsx:298 | the non-null assertion of `find` holds: every key has a model |
| Ledger.ModelOf | app/page.tsx:298 | the model found for a key has that key and comes from the catalogue |
| Ledger.Index | app/page.tsx:61-142 | every key has a position in the table that holds its model |
| Ledger.ModelOfIsDeclared | app/page.tsx:61-144 | the model found is the declared one with its reversal filled in |
| Ledger.DeclaredKeys | app/page.tsx:61-142 | the table lists FNP, AAR, CCA, FAE, AAE, PCA in that order |
| Ledger.ReversalOfModel | app/page.tsx:144 | every model's reversal is `makeReversal` of its closing lines |
| Ledger.ModelShape | app/page.tsx:61-142 | a model has a VAT account exactly when it has three closing lines (two for CCA and PCA); its main account is booked; it is a charge model exactly for FNP, AAR and CCA |
| Ledger.ClosingBalances | app/page.tsx:61-142 | every closing entry balances for any HT amount and rate, with totals TTC for the VAT models and HT for CCA and PCA; its reversal balances too |
| Ledger.VatClosingTotals | app/page.tsx:62-130 | both totals of a three-line entry are the TTC amount |
| Ledger.ProrataClosingTotals | app/page.tsx:90-142 | both totals of a two-line entry are the HT amount |
| Ledger.ComputedEntries | app/page.tsx:297-317 | the live calculator reports the model's closing and reversal lines evaluated at the amount and rate, with totals that are the closing entry's debit and credit sums; both totals are TTC for a VAT model and HT for CCA and PCA, so the entry always balances; the reversal books the same accounts and amounts on the opposite sides |
| Ledger.FnpExample | app/page.tsx:62-75 | FNP at 1000.00 and 20 % books 6xxx 1000.00 and 44586 200.00 on the debit side, and 4081 1200.00 on the credit side |
| Calendar.Later | app/page.tsx:641 | `Math.max` of two dates is one of them, and neither is after it |
| Calendar.DiffMonthsInclusive | app/page.tsx:633-636 | for ordered dates, the count is the number of calendar months from the first to the last, both included, so at least 1 |
| Calendar.DiffMonthsSplit | app/page.tsx:633-636 | counting to a middle month and on from it counts that month twice |
| Calendar.DiffMonthsExamples | app/page.tsx:634 | December to March gives 4; November 2024 to October 2025 gives 12 |
| Calendar.MonthsInNextYear | app/page.tsx:637-643 | for valid ordered dates it is the number of months of the period that lie in the next year or later, so it lies between 0 and the whole count, and the rest of the period lies in the start year |
| Calendar.MonthsInNextYearExamples | app/page.tsx:555-559 | the CCA period has 10 months in N+1, the PCA period 5, and a period ending in December none |
| Calendar.ProrataBase | app/page.tsx:577 | `round2(HT × after / total)`: the prorated base is within half a cent of the exact share |
| Calendar.ProrataBaseEnds | app/page.tsx:577 | no months after the year end gives 0; all of them gives the whole HT amount |
| Calendar.ProrataBaseWithin | app/page.tsx:577 | the prorated base lies between 0 and the HT amount |
| Calendar.ProrataExamples | app/page.tsx:575-578 | 1200.00 over 10 of 12 months gives 1000.00; 600.00 over 5 of 6 gives 500.00 |
| Scenarios.Draw | app/page.tsx:538 | `Math.floor(Math.random() * n)` is a valid index |
| Scenarios.AmountFor | app/page.tsx:536 | facile is 1000.00, moyen lies in 500.00–5000.00, difficile in 50.00–2000.00 |
| Scenarios.RateFor | app/page.tsx:537-538 | the drawn rate is one of 20, 10, 5.5 and 0 % |
| Rates.RateTextReadsBack | app/page.tsx:542 | the text of a rate reads back through `parseFloat` as that rate; it has a point only when the rate is not a whole percent, and starts with 0 only below 1 % |
| Scenarios.PeriodOf | app/page.tsx:555-559 | the CCA and PCA periods are valid, ordered dates |
| Scenarios.SelectIndex | app/page.tsx:564-571 | the selected index is a valid index in the pool |
| Scenarios.RedrawBound | app/page.tsx:566-570 | the re-draw loop always ends on a valid index |
| Scenarios.RedrawStops | app/page.tsx:566-570 | the loop stops at the first pick that avoids the previous key; only after ten re-draws on it does it keep a repeat |
| Scenarios.SelectionAvoidsRepeat | app/page.tsx:564-573 | with no previous key, the first draw is kept; otherwise the previous model is chosen again only when all eleven picks land on it, and every pick before the chosen one repeated it |
| Scenarios.ChooseIndex | app/page.tsx:564-571 | the `while` loop with its `attempts` counter computes the selection |
| Scenarios.ScenarioShape | app/page.tsx:533-603 | a scenario's model is the selected one; it is prorated exactly for CCA and PCA; its amount lies in the level's bounds; a VAT scenario's rate is one of the four |
| Scenarios.PeriodCounts | app/page.tsx:555-559 | the CCA period counts 12 months with 10 in N+1, the PCA period 6 with 5 |
| Scenarios.ProrataShape | app/page.tsx:575-591 | a prorated scenario has rate 0, 12 months with 10 in N+1 (CCA) or 6 with 5 (PCA), and a base between 0 and the amount |
| Scenarios.ScenarioGenerator.constructor | app/page.tsx:532 | `lastKey` starts empty |
| Scenarios.ScenarioGenerator.MakeScenario | app/page.tsx:533-603 | returns the scenario for the previous key and the draws, and records its model as the new `lastKey` |
| Scenarios.ScenarioGenerator.MakeQuiz | app/page.tsx:781-788 | one question per scenario, in order, each avoiding the model of the one before; `lastKey` ends on the last answer |
| Scenarios.QuizLevelsOfEight | app/page.tsx:784 | the eight questions run difficile, facile, moyen, difficile, moyen, facile, difficile, facile |
| Scenarios.QuizFrom | app/page.tsx:783-786 | one scenario per remaining draw |
| Scenarios.QuestionsOf | app/page.tsx:785 | each question is the scenario's statement with its model as the answer |
| Scenarios.CcaClosingLines | app/page.tsx:609-616 | the CCA closing model on a base books 486 debit and 6xxx credit, both `round2(base)` |
| Scenarios.PcaClosingLines | app/page.tsx:617-622 | the PCA closing model on a base books 7xxx debit and 487 credit, both `round2(base)` |
| Scenarios.ExpectedLinesAreClosing | app/page.tsx:606-630 | the expected lines are the model's closing lines evaluated on the prorated base (CCA, PCA) or the HT amount |
| Scenarios.ExpectedLinesBalance | app/page.tsx:606-630 | the expected lines balance, totalling TTC for a VAT scenario and the prorated base otherwise |
| Numbers.NatText | app/page.tsx:542 | the decimal text of a whole number is digits only, denotes it, and starts with 0 only for 0 itself |
| Numbers.DigitPrefix | app/page.tsx:408 | the digits in front of a string: a prefix made of digits, followed by a non-digit or nothing |
| Numbers.ParseFloat | app/page.tsx:408 | a finite `parseFloat` result has a positive denominator |
| Numbers.ParseWhole | app/page.tsx:408 | a run of digits reads back as the whole number it denotes |
| Numbers.ParseTenths | app/page.tsx:408 | a number of tenths written as its whole part, a point and one digit reads back as exactly that many tenths |
| Numbers.ParseFixed2 | app/page.tsx:408 | reading back an amount written with two decimals gives that amount |
| Numbers.CommaEndsTheNumber | app/page.tsx:408 | `parseFloat("200,50")` is 200: a comma ends the number |
| Numbers.NoDigitsNoNumber | app/page.tsx:408 | text without digits is never a finite number |
| Grading.SubmittedCents | app/page.tsx:408 | `round2(parseFloat(text) \|\| 0)`: not a number counts as 0, a finite number is rounded to the cent, an infinity has no value |
| Grading.AmountOk | app/page.tsx:408-409 | a row's amount passes exactly when its value in cents equals the expected amount |
| Grading.SidesOk | app/page.tsx:393-398 | `sidesOk` fails exactly when, at facile or moyen, some row has no side or the wrong one |
| Grading.AccountsOk | app/page.tsx:400-404 | `accountsOk` fails exactly when, at moyen or difficile, some row's trimmed account is not the expected one |
| Grading.AmountsOk | app/page.tsx:406-411 | `amountsOk` fails exactly when some row's amount, read and rounded to the cent, is not the expected amount |
| Grading.AllGood | app/page.tsx:413 | `allGood` holds exactly when validated and every row has the expected side unless at difficile, the expected account unless at facile, and an amount worth the expected one |
| Grading.BlankInputs | app/page.tsx:373-380 | the blank form has one row per expected line, no amount, the account only at facile and the side only at difficile |
| Grading.TypedAmountAccepted | app/page.tsx:406-411 | an amount typed with a point and two decimals passes |
| Grading.CorrectAnswerPasses | app/page.tsx:393-413 | the perfect answer passes `allGood` at every level |
| Grading.EmptyAmountIsZero | app/page.tsx:408 | an empty amount counts as 0 |
| Grading.EmptyAmountOk | app/page.tsx:408-409 | an empty amount passes exactly when 0 is expected |
| Grading.BlankAmounts | app/page.tsx:373-380 | the blank form's amounts pass exactly when every expected amount is 0 |
| Grading.BlankSidesAndAccounts | app/page.tsx:373-404 | blank sides pass only at difficile, where they are filled in; blank accounts pass at facile and fail elsewhere as soon as a line has an account |
| Grading.WrongSideFails | app/page.tsx:393-398 | a row on the wrong side fails `allGood` at facile and moyen |
| Grading.CommaAmountIsWhole | app/page.tsx:408 | as written, "200,50" counts as 200.00, so it does not pass for 200.50 |
| Grading.AmountOkWithComma | app/page.tsx:406-411 | corrected: the amount check with a decimal comma read as a point; on text without a comma it is the check as written |
| Grading.CommaTypedAmountAccepted | app/page.tsx:482 | corrected: any amount typed with a comma and two decimals, as the "0,00" placeholder shows, passes |
| Shuffling.Swap | app/page.tsx:650 | the swap exchanges two positions and leaves the others |
| Shuffling.SwapPermutes | app/page.tsx:650 | a swap permutes the elements |
| Shuffling.ShuffleFromPermutes | app/page.tsx:648-652 | the shuffle steps permute the elements and keep the length |
| Shuffling.FisherYatesPermutes | app/page.tsx:648-652 | `shuffle` returns a permutation of its input |
| Shuffling.Shuffle | app/page.tsx:648-652 | the in-place loop on a fresh copy computes the Fisher–Yates permutation of the draws |
| Shuffling.Dedup | app/page.tsx:468 | `[...new Set(xs)]` keeps exactly the elements of `xs`, each once, in the order of their first occurrence |
| Shuffling.AccountMayBeMissing | app/page.tsx:468 | as written, the correct account 486 can be left out of the eight offered |
| Shuffling.Without | app/page.tsx:468 | corrected: taking the correct account out of the decoys keeps every other decoy |
| Shuffling.DistractorsDistinct | app/page.tsx:390 | the sixteen decoy accounts are all different |
| Shuffling.AccountChoices | app/page.tsx:468 | corrected: eight different accounts, the correct one among them, all others decoys |
| Shuffling.Offered | app/page.tsx:468 | corrected: the correct account first, then seven different decoys |
| Shuffling.OfferedShuffled | app/page.tsx:468 | corrected: shuffling the offered accounts keeps the correct one, adds none and repeats none |
| Text.TrimStart | app/page.tsx:402 | drops exactly the leading whitespace |
| Text.TrimEnd | app/page.tsx:402 | drops exactly the trailing whitespace |
| Text.Trim | app/page.tsx:402 | `trim` is a slice with only whitespace outside it and none at its ends |
| Text.LowerChar | app/page.tsx:857 | a folded character is never upper case, and other characters are kept |
| Text.ToLower | app/page.tsx:857 | `toLowerCase` keeps the length and folds every character |
| Text.Includes | app/page.tsx:859-878 | `includes` holds exactly when the word occurs at some position |
| Quiz.KeyText | app/page.tsx:800 | a key is written with three letters |
| Quiz.KeyTextInjective | app/page.tsx:800 | two keys are written the same exactly when they are the same key, so the explanation tells the chosen and the correct model apart |
| Quiz.FamiliesAreGroups | app/page.tsx:827-828 | every key is either a charge or a produit model, as the table's groups say |
| Quiz.ContrastKind | app/page.tsx:826-854 | as written: the charge/produit sentences are given exactly for cross-family confusions, and the reminder only when there is no pair text |
| Quiz.PairTextNeverShown | app/page.tsx:826-854 | as written, no dedicated pair text is ever returned; FNP chosen for FAE gets the generic sentence |
| Quiz.ContrastKindPairFirst | app/page.tsx:837-853 | corrected: the dedicated text is given exactly for its six pairs, and otherwise as written |
| Quiz.PairFirstCoversFamilies | app/page.tsx:826-854 | corrected: a reminder is only given within a family, and every cross-family confusion gets a specific explanation |
| Quiz.Found | app/page.tsx:859-880 | a hint is kept exactly when it is listed and its cue words occur |
| Quiz.FoundRanked | app/page.tsx:859-880 | hints checked in the order sale, expense, credit note, billing, prorata are pushed in that order |
| Quiz.HintsMeaning | app/page.tsx:856-882 | there is always a hint; each hint is given exactly when its cue words occur in the lower-cased statement; the reminder is given alone, exactly when none occurs; no hint is repeated; the hints come in the order of the checks: sale, expense, credit note, billing, prorata |
| Quiz.ExtractHints | app/page.tsx:856-882 | the sequential `if`s compute those hints |
| Quiz.MakeExplanation | app/page.tsx:791-805 | as written: right exactly when the keys agree, restating the correct rule; a wrong answer names both keys and gets the expense sentence exactly when an expense model was chosen for a revenue, the revenue sentence exactly for the reverse, the reminder exactly within a family, and never a pair text; the statement's hints always follow |
| Quiz.MakeExplanationPairFirst | app/page.tsx:791-805 | corrected: as above, but a wrong answer gets the pair's own text exactly for its six pairs, and a reminder only within a family |
| Quiz.CorrectCountExact | app/page.tsx:669-674 | the count of right answers is full exactly when every answer was right |
| Quiz.QuizEngine.constructor | app/page.tsx:658-667 | a quiz starts on the first question, with no score, no answer and no feedback |
| Quiz.QuizEngine.OnChoose | app/page.tsx:669-674 | the first choice is recorded, scores a point exactly when right and sets the explanation; a second choice changes nothing; the score stays the number of right answers |
| Quiz.QuizEngine.Next | app/page.tsx:676-682 | clears the answer and feedback, then moves on or ends after the last question |
| Quiz.QuizEngine.Restart | app/page.tsx:684-690 | back to the first question with no score, on the same questions |
| Quiz.FinalScore | app/page.tsx:753 | the score never exceeds the number of questions; at the end every question was answered, and the score is full exactly when all answers were right |
| Quiz.FinalVerdict | app/page.tsx:754-758 | excellent exactly from 80 % right, the encouragement exactly below 50 % |
| Quiz.FinalVerdictMonotonic | app/page.tsx:754-758 | a better score never gets a lesser comment; a full score is excellent |

## Left out

- Presentation is not modelled: the JSX rendering (`App`, `SectionTitle`, `LinesTable`, the cards, tabs and sliders) and the animations. `components/ui/ThemeToggle.tsx` (DOM and `localStorage`) and `app/layout.tsx` (no logic) are not part of this model.
- `fmt` and `fmtDate` call `Intl` and `toLocaleDateString`. They are a function parameter `fmt` of the statement text and are not modelled further.
- Numbers are exact: amounts in integer cents and `parseFloat` on rationals. IEEE-754 doubles are not modelled. The `< 0.01` and `< 0.005` tolerances are therefore read on whole cents, where they mean equality. For the `< 0.005` balance test this is also what doubles give.
- Grading.AmountOk: reads the `< 0.01` test as equality of cents. In doubles, two amounts one cent apart can differ by slightly less than 0.01 (`200.01 - 200` is 0.009999999999990905, and so is `200 - 199.99`), so the page accepts some one-cent errors, such as a VAT of 200.01 or 199.99 for an expected 200.00. Others it rejects (`100.01 - 100` is 0.010000000000005116). The model does not capture this because it has no IEEE-754 subtraction.
- Grading.AmountsOk: inherits the same reading from `AmountOk`, so it does not capture those accepted one-cent errors either.
- Dates are (year, month, day) triples. JavaScript `Date` parsing and time zones are not modelled; in zones behind UTC, `new Date('2024-11-01')` reads as October.
- Random draws are parameters. Nothing is claimed about their distribution.
- `toLowerCase` folds ASCII and Latin-1 capitals only; the rest of Unicode case mapping is not modelled.
- `parseFloat` is modelled for decimal literals with an optional exponent and for `Infinity`, read exactly. Other text yields its leading literal or not a number, as `parseFloat` does; only the IEEE-754 overflow and underflow of long literals (such as "1e400" reading as `Infinity`) is not modelled.
- Calendar.ProrataBase: requires a positive month count, which every scenario period has.
- Ledger.EntryModel: the title and description of each model are given by `Title` and `Description` and are not part of the datatype. The `examples` field is not modelled; no model sets it.
- Quiz.QuizEngine: the feedback is kept as a structured `Explanation`. `ExplanationText` renders it to the sentence the page shows; no property of that text is proved. React state batching is not modelled; each handler is one atomic step.
- Quiz.QuizEngine.OnChoose: requires the quiz not to be over, since the choice buttons are only shown then. `Next` requires an answer, since the *Continuer* button only appears with one.
- Scenarios.ScenarioGenerator.MakeQuiz: the repeat avoidance is proved for each scenario against the one before, not as a property of the whole quiz.
- Shuffling.AccountChoices: stated for any pool of distinct decoys of at least eight, of which `Distractors` is one.
- Grading.AccountsOk: `(inp.account || '')` is the account itself, since a row's account is always a string.

## Findings

| source | as written | input that shows it | evidently intended | confidence | as-written member | corrected member |
|---|---|---|---|---|---|---|
| app/page.tsx:826-854 | the charge/produit checks come before the pair texts, and every pair mixes a charge model with a produit model, so the six dedicated texts are never returned | chosen FNP, correct FAE: the generic "modèle lié aux charges" sentence instead of the FNP/FAE text | the pair texts explain the confusion between the two models of the same kind of document | high, not executed | Quiz.PairTextNeverShown | Quiz.ContrastKindPairFirst |
| app/page.tsx:406-411 | the amount field's placeholder is "0,00", but `parseFloat` stops at a comma, so an amount typed with a decimal comma loses its cents | "200,50" for an expected 200.50 counts as 200.00 and fails | a decimal comma is read as a point | medium, not executed | Grading.CommaAmountIsWhole | Grading.AmountOkWithComma |
| app/page.tsx:468 | at moyen the offered accounts are the first eight of a shuffle of the answer and sixteen decoys, so the answer can fall outside them | correct account 486 (CCA), 0.0 on the first draw (i = 16) and 0.99 on the fifteen after it: the answer moves to the back | the answer is always among the eight offered accounts | high, not executed | Shuffling.AccountMayBeMissing | Shuffling.AccountChoices |
