/**
 * The recognition quiz: the explanation shown after an answer (the rule of
 * the correct model, a contrast with the chosen one, and the cues found in
 * the statement) and the state of a quiz in progress: the current question,
 * the score, whether the quiz is over and the answer just chosen.
 */
module Quiz {
  import opened Text
  import opened Ledger
  import opened Scenarios

  /** How a model key is written in text. */
  function KeyText(key: EntryKey): (r: string)
    ensures |r| == 3
  {
    match key
    case FNP => "FNP" case AAR => "AAR" case CCA => "CCA"
    case FAE => "FAE" case AAE => "AAE" case PCA => "PCA"
  }

  /** Distinct keys are written differently, so an explanation that names
      the chosen key and the correct one tells them apart. */
  lemma KeyTextInjective(a: EntryKey, b: EntryKey)
    ensures KeyText(a) == KeyText(b) <==> a == b
  {
    if KeyText(a) == KeyText(b) {
      assert KeyText(a)[0] == KeyText(b)[0] && KeyText(a)[2] == KeyText(b)[2];
    }
  }

  /** `explainRule`: the one-sentence rule of a model. */
  function ExplainRule(key: EntryKey): string {
    match key
    case FNP => "FNP = charge de N dont la facture arrive en N+1 (4081 au crédit, charge + TVA à débiter)"
    case AAR => "AAR = avoir fournisseur à recevoir (4098 au débit, on réduit une charge + TVA)"
    case CCA => "CCA = charge facturée/payée en N couvrant N+1 → on rattache la part N+1 en 486/6xxx"
    case FAE => "FAE = vente/prestation de N facturée en N+1 (4181 au débit, produit + TVA au crédit)"
    case AAE => "AAE = avoir client à établir (4198 au crédit, on réduit un produit + TVA)"
    case PCA => "PCA = produit facturé en N couvrant N+1 → on rattache la part N+1 en 7xxx/487"
  }

  /** The models that adjust an expense. */
  predicate IsCharge(k: EntryKey) {
    k == FNP || k == AAR || k == CCA
  }

  /** The models that adjust a revenue. */
  predicate IsProduit(k: EntryKey) {
    k == FAE || k == AAE || k == PCA
  }

  /** The two families split the keys, and agree with the group of each
      model in the table. */
  lemma FamiliesAreGroups(k: EntryKey)
    ensures IsCharge(k) != IsProduit(k)
    ensures IsCharge(k) <==> ModelOf(k).group == Charges
  {
    ModelShape(k);
  }

  /** The pairs "chosen→correct" that `explainContrast` has a dedicated
      explanation for: the two models of the same kind of document, one on
      the expense side and one on the revenue side. */
  predicate HasPairText(chosen: EntryKey, correct: EntryKey) {
    (chosen, correct) in {(FNP, FAE), (FAE, FNP), (AAR, AAE), (AAE, AAR), (CCA, PCA), (PCA, CCA)}
  }

  /** The dedicated explanation of a pair. */
  function PairText(chosen: EntryKey, correct: EntryKey): string
    requires HasPairText(chosen, correct)
  {
    match (chosen, correct)
    case (FNP, FAE) => "FNP = facture fournisseur non parvenue (charge). FAE = facture client à établir (vente)."
    case (FAE, FNP) => "FAE = vente à facturer. FNP = facture fournisseur non parvenue (charge)."
    case (AAR, AAE) => "AAR = avoir à recevoir d'un fournisseur (charge). AAE = avoir à établir pour un client (produit)."
    case (AAE, AAR) => "AAE = avoir client à établir (produit). AAR = avoir fournisseur à recevoir (charge)."
    case (CCA, PCA) => "CCA = charges constatées d'avance (486/6xxx). PCA = produits constatés d'avance (7xxx/487)."
    case (PCA, CCA) => "PCA = produits constatés d'avance (7xxx/487). CCA = charges constatées d'avance (486/6xxx)."
  }

  /** Which explanation `explainContrast` gives: an expense model chosen for
      a revenue, a revenue model chosen for an expense, the dedicated text
      of the pair, or a reminder of the correct rule. */
  datatype Contrast = ChargeForProduit | ProduitForCharge | Dedicated | Reminder

  /** The explanation `explainContrast` picks, as written: the two family
      checks come before the dedicated texts. */
  function ContrastKind(chosen: EntryKey, correct: EntryKey): (c: Contrast)
    ensures c == ChargeForProduit <==> IsCharge(chosen) && IsProduit(correct)
    ensures c == ProduitForCharge <==> IsProduit(chosen) && IsCharge(correct)
    ensures c == Reminder ==> !HasPairText(chosen, correct)
  {
    if IsCharge(chosen) && IsProduit(correct) then ChargeForProduit
    else if IsProduit(chosen) && IsCharge(correct) then ProduitForCharge
    else if HasPairText(chosen, correct) then Dedicated
    else Reminder
  }

  /** Every dedicated text is about a pair that mixes an expense model with
      a revenue model, so as written it is never shown: choosing FNP when
      the answer is FAE gets the generic expense/revenue sentence. */
  lemma PairTextNeverShown(chosen: EntryKey, correct: EntryKey)
    ensures HasPairText(chosen, correct) ==>
      (IsCharge(chosen) && IsProduit(correct)) || (IsProduit(chosen) && IsCharge(correct))
    ensures ContrastKind(chosen, correct) != Dedicated
    ensures HasPairText(FNP, FAE) && ContrastKind(FNP, FAE) == ChargeForProduit
  {
  }

  /** The explanation as evidently intended: the dedicated text of a pair
      comes first, and the family checks and the reminder otherwise. */
  function ContrastKindPairFirst(chosen: EntryKey, correct: EntryKey): (c: Contrast)
    ensures c == Dedicated <==> HasPairText(chosen, correct)
    ensures !HasPairText(chosen, correct) ==> c == ContrastKind(chosen, correct)
  {
    if HasPairText(chosen, correct) then Dedicated else ContrastKind(chosen, correct)
  }

  /** With the dedicated texts first, a reminder is only given between two
      models of the same family, and every confusion across families gets
      either its dedicated text or a family sentence. */
  lemma PairFirstCoversFamilies(chosen: EntryKey, correct: EntryKey)
    ensures ContrastKindPairFirst(chosen, correct) == Reminder ==> IsCharge(chosen) == IsCharge(correct)
    ensures IsCharge(chosen) != IsCharge(correct) ==> ContrastKindPairFirst(chosen, correct) != Reminder
  {
  }

  const ChargeForProduitText :=
    "Tu as choisi un modèle lié aux charges, alors que l'énoncé parle d'une vente/produit."
  const ProduitForChargeText :=
    "Tu as choisi un modèle lié aux produits, alors que l'énoncé parle d'une charge."

  /** The sentence of each kind of explanation. */
  function ContrastText(c: Contrast, chosen: EntryKey, correct: EntryKey): string
    requires c == Dedicated ==> HasPairText(chosen, correct)
  {
    match c
    case ChargeForProduit => ChargeForProduitText
    case ProduitForCharge => ProduitForChargeText
    case Dedicated => PairText(chosen, correct)
    case Reminder => "Rappel : " + ExplainRule(correct)
  }

  /** `explainContrast` as written. */
  function ExplainContrast(chosen: EntryKey, correct: EntryKey): string {
    ContrastText(ContrastKind(chosen, correct), chosen, correct)
  }

  /** `explainContrast` as evidently intended. */
  function ExplainContrastPairFirst(chosen: EntryKey, correct: EntryKey): string {
    ContrastText(ContrastKindPairFirst(chosen, correct), chosen, correct)
  }

  /** The hints `extractHints` can give. */
  datatype Hint = SaleHint | ExpenseHint | CreditNoteHint | BillingHint | ProrataHint | RereadHint

  function HintText(h: Hint): string {
    match h
    case SaleHint => "produit/vente"
    case ExpenseHint => "charge"
    case CreditNoteHint => "avoir"
    case BillingHint => "décalage de facturation N→N+1"
    case ProrataHint => "prorata N/N+1"
    case RereadHint => "relire : charge vs produit, facture reçue/à établir, et prorata"
  }

  /** The words of a lower-cased statement that call for a hint. */
  predicate Cue(h: Hint, s: string) {
    match h
    case SaleHint => Includes(s, "vente") || Includes(s, "client") || Includes(s, "abonnement logiciel")
    case ExpenseHint =>
      Includes(s, "charge") || Includes(s, "assurance") || Includes(s, "prestataire")
      || Includes(s, "fournisseur")
    case CreditNoteHint => Includes(s, "avoir")
    case BillingHint =>
      Includes(s, "facture sera reçue") || Includes(s, "non facturée") || Includes(s, "à établir")
      || Includes(s, "à facturer")
    case ProrataHint => Includes(s, "couvrant") || Includes(s, "période")
    case RereadHint => false
  }

  /** The hints that have cues, in the order they are listed. */
  const HintOrder := [SaleHint, ExpenseHint, CreditNoteHint, BillingHint, ProrataHint]

  /** A hint's place in the order of the checks; the reminder comes last. */
  function Rank(h: Hint): (k: nat)
    ensures k <= |HintOrder|
    ensures k < |HintOrder| <==> h in HintOrder
    ensures h in HintOrder ==> HintOrder[k] == h
  {
    match h
    case SaleHint => 0 case ExpenseHint => 1 case CreditNoteHint => 2
    case BillingHint => 3 case ProrataHint => 4 case RereadHint => 5
  }

  /** `hs` lists its hints in the order of the checks. */
  predicate Ranked(hs: seq<Hint>) {
    forall i, j :: 0 <= i < j < |hs| ==> Rank(hs[i]) < Rank(hs[j])
  }

  /** In a ranked list, every hint before the last ranks below it. */
  lemma RankedBeforeLast(hs: seq<Hint>)
    requires hs != [] && Ranked(hs)
    ensures Ranked(hs[..|hs| - 1])
    ensures forall h :: h in hs[..|hs| - 1] ==> Rank(h) < Rank(hs[|hs| - 1])
  {
  }

  /** The hints of `hs`, in order, whose cues occur in `s`: a hint is kept
      exactly when it is listed and cued. */
  function Found(s: string, hs: seq<Hint>): (r: seq<Hint>)
    ensures forall h :: h in r <==> h in hs && Cue(h, s)
    ensures |r| <= |hs|
  {
    if hs == [] then [] else Found(s, hs[..|hs| - 1]) + Step(s, hs[|hs| - 1])
  }

  /** Hints listed in the order of the checks are found in that order. */
  lemma {:induction false} FoundRanked(s: string, hs: seq<Hint>)
    requires Ranked(hs)
    ensures Ranked(Found(s, hs))
  {
    if hs != [] {
      RankedBeforeLast(hs);
      FoundRanked(s, hs[..|hs| - 1]);
    }
  }

  /** One hint kept when its cue occurs in `s`. */
  function Step(s: string, h: Hint): seq<Hint> {
    if Cue(h, s) then [h] else []
  }

  /** `extractHints`, declaratively: the hints whose cues occur in the
      lower-cased statement, or the reminder to reread when there is none. */
  function Hints(statement: string): seq<Hint> {
    var found := Found(ToLower(statement), HintOrder);
    if found == [] then [RereadHint] else found
  }

  /** There is always a hint; a listed hint is given exactly when one of
      its cues is in the lower-cased statement; the reminder is given
      exactly when none is, and then alone; no hint is given twice, and the
      hints come in the order of the checks. */
  lemma HintsMeaning(statement: string)
    ensures var r, s := Hints(statement), ToLower(statement);
      && 1 <= |r| <= 5
      && (forall h :: h in HintOrder ==> (h in r <==> Cue(h, s)))
      && (RereadHint in r <==> forall h :: h in HintOrder ==> !Cue(h, s))
      && (RereadHint in r ==> r == [RereadHint])
      && (forall i, j :: 0 <= i < j < |r| ==> r[i] != r[j])
      && (forall i, j :: 0 <= i < j < |r| ==> Rank(r[i]) < Rank(r[j]))
  {
    var s := ToLower(statement);
    HintOrderRanked();
    FoundRanked(s, HintOrder);
    HintsOfFound(s, Found(s, HintOrder), Hints(statement));
  }

  /** The checks are listed in their own order. */
  lemma HintOrderRanked()
    ensures Ranked(HintOrder)
  {
  }

  /** The hints given for the cues found: the found ones, or the reminder. */
  lemma HintsOfFound(s: string, found: seq<Hint>, r: seq<Hint>)
    requires forall h :: h in found <==> h in HintOrder && Cue(h, s)
    requires |found| <= |HintOrder| && Ranked(found)
    requires r == if found == [] then [RereadHint] else found
    ensures 1 <= |r| <= 5
    ensures forall h :: h in HintOrder ==> (h in r <==> Cue(h, s))
    ensures RereadHint in r <==> forall h :: h in HintOrder ==> !Cue(h, s)
    ensures RereadHint in r ==> r == [RereadHint]
    ensures forall i, j :: 0 <= i < j < |r| ==> r[i] != r[j]
    ensures Ranked(r)
  {
    if found != [] {
      assert found[0] in found;
      assert RereadHint !in found;
    }
  }

  /** `Found` over five hints takes five steps. */
  lemma FoundFive(s: string, hs: seq<Hint>)
    requires |hs| == 5
    ensures Found(s, hs)
         == [] + Step(s, hs[0]) + Step(s, hs[1]) + Step(s, hs[2]) + Step(s, hs[3]) + Step(s, hs[4])
  {
    var h1, h2, h3, h4 := hs[..1], hs[..2], hs[..3], hs[..4];
    assert h1[..0] == [] && h1[0] == hs[0];
    assert h2[..1] == h1 && h2[1] == hs[1];
    assert h3[..2] == h2 && h3[2] == hs[2];
    assert h4[..3] == h3 && h4[3] == hs[3];
    assert hs[..4] == h4;
    assert Found(s, h1) == [] + Step(s, hs[0]);
    assert Found(s, h2) == [] + Step(s, hs[0]) + Step(s, hs[1]);
    assert Found(s, h3) == [] + Step(s, hs[0]) + Step(s, hs[1]) + Step(s, hs[2]);
    assert Found(s, h4) == [] + Step(s, hs[0]) + Step(s, hs[1]) + Step(s, hs[2]) + Step(s, hs[3]);
  }

  /** `extractHints`: the statement is lower-cased, each hint whose cue
      words occur in it is added in turn, and with no hint at all the
      reminder is returned. */
  method ExtractHints(statement: string) returns (hints: seq<Hint>)
    ensures hints == Hints(statement)
  {
    var s := ToLower(statement);
    hints := [];
    if Cue(SaleHint, s) {
      hints := hints + [SaleHint];
    }
    assert hints == [] + Step(s, SaleHint);
    if Cue(ExpenseHint, s) {
      hints := hints + [ExpenseHint];
    }
    assert hints == [] + Step(s, SaleHint) + Step(s, ExpenseHint);
    if Cue(CreditNoteHint, s) {
      hints := hints + [CreditNoteHint];
    }
    assert hints == [] + Step(s, SaleHint) + Step(s, ExpenseHint) + Step(s, CreditNoteHint);
    if Cue(BillingHint, s) {
      hints := hints + [BillingHint];
    }
    assert hints == [] + Step(s, SaleHint) + Step(s, ExpenseHint) + Step(s, CreditNoteHint)
                    + Step(s, BillingHint);
    if Cue(ProrataHint, s) {
      hints := hints + [ProrataHint];
    }
    assert hints == [] + Step(s, SaleHint) + Step(s, ExpenseHint) + Step(s, CreditNoteHint)
                    + Step(s, BillingHint) + Step(s, ProrataHint);
    FoundFive(s, HintOrder);
    if |hints| == 0 {
      hints := [RereadHint];
    }
  }

  /** What `makeExplanation` says: on a right answer, the rule of the model
      and the hints; on a wrong one, both keys, the contrast between them
      and the hints. */
  datatype Explanation =
    | RightAnswer(rule: EntryKey, hints: seq<Hint>)
    | WrongAnswer(chosen: EntryKey, correct: EntryKey, contrast: Contrast, hints: seq<Hint>)

  /** `makeExplanation`. A right answer restates the rule of the model; a
      wrong one names both keys and contrasts them with `explainContrast` as
      written, so an expense model chosen for a revenue (or the reverse)
      gets the family sentence and a dedicated text is never given; both
      list the hints of the statement. */
  function MakeExplanation(chosen: EntryKey, correct: EntryKey, statement: string): (e: Explanation)
    ensures e.RightAnswer? <==> chosen == correct
    ensures e.RightAnswer? ==> e.rule == correct
    ensures e.WrongAnswer? ==>
      && e.chosen == chosen && e.correct == correct
      && (e.contrast == ChargeForProduit <==> IsCharge(chosen) && !IsCharge(correct))
      && (e.contrast == ProduitForCharge <==> !IsCharge(chosen) && IsCharge(correct))
      && e.contrast != Dedicated
      && (e.contrast == Reminder <==> IsCharge(chosen) == IsCharge(correct))
    ensures e.hints == Hints(statement) && |e.hints| >= 1
  {
    HintsMeaning(statement);
    PairTextNeverShown(chosen, correct);
    if chosen == correct then RightAnswer(correct, Hints(statement))
    else WrongAnswer(chosen, correct, ContrastKind(chosen, correct), Hints(statement))
  }

  /** `makeExplanation` as evidently intended, on `ContrastKindPairFirst`: a
      wrong answer is explained with the pair's own text when there is one,
      and a reminder is only given between models of the same family. */
  function MakeExplanationPairFirst(chosen: EntryKey, correct: EntryKey, statement: string): (e: Explanation)
    ensures e.RightAnswer? <==> chosen == correct
    ensures e.RightAnswer? ==> e.rule == correct
    ensures e.WrongAnswer? ==>
      && e.chosen == chosen && e.correct == correct
      && (e.contrast == Dedicated <==> HasPairText(chosen, correct))
      && (e.contrast == Reminder ==> IsCharge(chosen) == IsCharge(correct))
    ensures e.hints == Hints(statement) && |e.hints| >= 1
  {
    HintsMeaning(statement);
    PairFirstCoversFamilies(chosen, correct);
    if chosen == correct then RightAnswer(correct, Hints(statement))
    else WrongAnswer(chosen, correct, ContrastKindPairFirst(chosen, correct), Hints(statement))
  }

  /** The hints joined with commas. */
  function HintsText(hs: seq<Hint>): string {
    Join(seq(|hs|, i requires 0 <= i < |hs| => HintText(hs[i])), ", ")
  }

  /** The sentence shown for an explanation. */
  function ExplanationText(e: Explanation): string
    requires e.WrongAnswer? && e.contrast == Dedicated ==> HasPairText(e.chosen, e.correct)
  {
    match e
    case RightAnswer(rule, hints) =>
      ExplainRule(rule) + " — Indices dans l'énoncé : " + HintsText(hints)
    case WrongAnswer(chosen, correct, contrast, hints) =>
      "Tu as choisi " + KeyText(chosen) + ", mais la bonne réponse est " + KeyText(correct) + ". "
      + ContrastText(contrast, chosen, correct) + " Indices : " + HintsText(hints)
  }

  /** The number of questions whose recorded choice is their answer. */
  function CorrectCount(choices: seq<EntryKey>, questions: seq<Question>): (n: nat)
    requires |choices| <= |questions|
    ensures n <= |choices|
  {
    if choices == [] then 0
    else
      var k := |choices| - 1;
      CorrectCount(choices[..k], questions) + (if choices[k] == questions[k].answer then 1 else 0)
  }

  /** Answering every question right scores them all; one wrong answer
      loses a point. */
  lemma {:induction false} CorrectCountExact(choices: seq<EntryKey>, questions: seq<Question>)
    requires |choices| <= |questions|
    ensures CorrectCount(choices, questions) == |choices|
        <==> forall i :: 0 <= i < |choices| ==> choices[i] == questions[i].answer
  {
    if choices != [] {
      var k := |choices| - 1;
      CorrectCountExact(choices[..k], questions);
      if forall i :: 0 <= i < |choices| ==> choices[i] == questions[i].answer {
        assert forall i :: 0 <= i < k ==> choices[..k][i] == questions[i].answer;
      } else if forall i :: 0 <= i < k ==> choices[..k][i] == questions[i].answer {
        assert choices[k] != questions[k].answer;
      }
    }
  }

  /** `QuizEngine`: the questions of one quiz and the progress through them.
      `choices` records the answer chosen for every question answered so
      far; the score is the number of them that were right. */
  class QuizEngine {
    const questions: seq<Question>
    var qIndex: nat
    var score: nat
    var finished: bool
    var selected: Option<EntryKey>
    var feedback: Option<Explanation>
    ghost var choices: seq<EntryKey>

    ghost predicate Valid()
      reads this
    {
      && 0 < |questions|
      && qIndex < |questions|
      && |choices| == qIndex + (if selected.Some? || finished then 1 else 0)
      && (selected.Some? ==> choices[qIndex] == selected.value)
      && (finished ==> selected.None? && qIndex == |questions| - 1)
      && score == CorrectCount(choices, questions)
    }

    /** A fresh quiz on the first question, with no score and no answer. */
    constructor(questions: seq<Question>)
      requires 0 < |questions|
      ensures Valid()
      ensures this.questions == questions
      ensures qIndex == 0 && score == 0 && !finished && selected == None && feedback == None
    {
      this.questions := questions;
      qIndex := 0;
      score := 0;
      finished := false;
      selected := None;
      feedback := None;
      choices := [];
    }

    /** `onChoose`: the first choice on a question is recorded, scores a
        point when it is the answer and sets the explanation; a second
        choice is ignored. The choice buttons are only shown while the quiz
        is not over. */
    method OnChoose(k: EntryKey)
      requires Valid() && !finished
      modifies this
      ensures Valid()
      ensures old(selected).Some? ==>
        selected == old(selected) && score == old(score) && feedback == old(feedback)
        && choices == old(choices)
      ensures old(selected).None? ==>
        && selected == Some(k)
        && score == old(score) + (if k == questions[qIndex].answer then 1 else 0)
        && feedback == Some(MakeExplanation(k, questions[qIndex].answer, questions[qIndex].statement))
        && choices == old(choices) + [k]
      ensures qIndex == old(qIndex) && finished == old(finished)
    {
      if selected.Some? {
        return;
      }
      var q := questions[qIndex];
      selected := Some(k);
      choices := choices + [k];
      assert choices[..qIndex] == old(choices);
      if k == q.answer {
        score := score + 1;
      }
      feedback := Some(MakeExplanation(k, q.answer, q.statement));
    }

    /** `next`: clears the answer and moves to the next question, or ends
        the quiz after the last one. It is offered once an answer is
        chosen. */
    method Next()
      requires Valid() && selected.Some?
      modifies this
      ensures Valid()
      ensures selected == None && feedback == None && score == old(score) && choices == old(choices)
      ensures old(qIndex) + 1 < |questions| ==> qIndex == old(qIndex) + 1 && !finished
      ensures old(qIndex) + 1 >= |questions| ==> qIndex == old(qIndex) && finished
    {
      selected := None;
      feedback := None;
      var n := qIndex + 1;
      if n >= |questions| {
        finished := true;
      } else {
        qIndex := n;
      }
    }

    /** `restart`: back to the first question with no score; the questions
        stay the same. */
    method Restart()
      requires Valid()
      modifies this
      ensures Valid()
      ensures qIndex == 0 && score == 0 && !finished && selected == None && feedback == None
      ensures choices == []
    {
      qIndex := 0;
      score := 0;
      finished := false;
      selected := None;
      feedback := None;
      choices := [];
    }
  }

  /** The score never exceeds the number of questions; once the quiz is
      over every question has been answered, and the score is full exactly
      when every answer was right. */
  lemma FinalScore(e: QuizEngine)
    requires e.Valid()
    ensures e.score <= |e.questions|
    ensures e.finished ==>
      && |e.choices| == |e.questions|
      && (e.score == |e.questions| <==> forall i :: 0 <= i < |e.questions| ==> e.choices[i] == e.questions[i].answer)
  {
    if e.finished {
      CorrectCountExact(e.choices, e.questions);
    }
  }

  /** The comment shown with the final score. */
  datatype Verdict = Excellent | WellDone | KeepPractising

  /** The comment on a final score: excellent from 80 % of the questions,
      well done from 50 %, otherwise an encouragement to practise. */
  function FinalVerdict(score: nat, total: nat): (v: Verdict)
    requires total > 0
    ensures v == Excellent <==> score as real / total as real >= 0.8
    ensures v == KeepPractising <==> score as real / total as real < 0.5
  {
    RatioAtLeast(score as real, total as real, 0.8);
    RatioAtLeast(score as real, total as real, 0.5);
    if 5 * score >= 4 * total then Excellent
    else if 2 * score >= total then WellDone
    else KeepPractising
  }

  /** Comparing a ratio with a threshold compares the numerator with the
      scaled threshold. */
  lemma RatioAtLeast(a: real, t: real, c: real)
    requires t > 0.0
    ensures a / t >= c <==> a >= c * t
  {
    var q := a / t;
    assert a == q * t;
    if q >= c {
      assert q * t >= c * t;
    } else {
      assert q * t < c * t;
    }
  }

  /** A better score never gets a lesser comment, and a full score is
      excellent. */
  lemma FinalVerdictMonotonic(a: nat, b: nat, total: nat)
    requires a <= b && total > 0
    ensures FinalVerdict(a, total) == Excellent ==> FinalVerdict(b, total) == Excellent
    ensures FinalVerdict(b, total) == KeepPractising ==> FinalVerdict(a, total) == KeepPractising
    ensures FinalVerdict(total, total) == Excellent
  {
  }
}
