/**
 * Exercise scenarios: the six candidate situations, the random amount and
 * VAT rate, the choice of one candidate that avoids repeating the previous
 * model, the prorated base for CCA and PCA, the expected closing lines and
 * the eight-question quiz built from successive scenarios.
 *
 * `Math.random()` is not modelled as a source of randomness: every draw is a
 * parameter, a real in [0, 1). The formatting of an amount for display
 * (`fmt`, a French locale number format) is a parameter too.
 */
module Scenarios {
  import opened Text
  import opened Money
  import opened Ledger
  import opened Calendar
  import opened Numbers
  import opened Rates

  datatype Level = Facile | Moyen | Difficile

  /** A value `Math.random()` can return. */
  predicate Unit(r: real) {
    0.0 <= r < 1.0
  }

  /** `Math.floor(r * n)`: an index below `n` drawn with `r` in [0, 1). */
  function Draw(r: real, n: nat): (i: int)
    requires Unit(r) && n > 0
    ensures 0 <= i < n
  {
    assert 0.0 <= r * n as real < n as real by {
      assert n as real - r * n as real == (1.0 - r) * n as real;
    }
    (r * n as real).Floor
  }

  /** `Math.round(x)`: the nearest integer, a half going up. */
  function RoundReal(x: real): int {
    (x + 0.5).Floor
  }

  /** The HT amount in cents for a level: 1000.00 at facile, otherwise a
      whole number of cents drawn between 500.00 and 5000.00 (moyen) or
      between 50.00 and 2000.00 (difficile). */
  function AmountFor(level: Level, r: real): (cents: int)
    requires Unit(r)
    ensures level == Facile ==> cents == 100000
    ensures level == Moyen ==> 50000 <= cents <= 500000
    ensures level == Difficile ==> 5000 <= cents <= 200000
  {
    match level
    case Facile => 100000
    case Moyen => RoundReal(50000.0 + r * 450000.0)
    case Difficile => RoundReal(5000.0 + r * 195000.0)
  }

  /** The rates a VAT scenario draws from: 20%, 10%, 5.5% and 0%. */
  const VatRates: seq<int> := [200, 100, 55, 0]

  function RateFor(r: real): (rate: int)
    requires Unit(r)
    ensures rate in VatRates
  {
    VatRates[Draw(r, |VatRates|)]
  }

  /** The keys of the candidate pool, in the order the pool lists them. */
  const PoolKeys: seq<EntryKey> := [FNP, AAR, FAE, AAE, CCA, PCA]

  datatype Kind = Tva | Prorata

  function KindOf(key: EntryKey): Kind {
    if key in {CCA, PCA} then Prorata else Tva
  }

  function TitleOf(key: EntryKey): string {
    match key
    case FNP => "FNP – Charge de décembre non facturée"
    case AAR => "AAR – Avoir fournisseur à recevoir"
    case FAE => "FAE – Vente de décembre à facturer"
    case AAE => "AAE – Avoir client à établir"
    case CCA => "CCA – Assurance annuelle payée en novembre"
    case PCA => "PCA – Abonnement logiciel facturé en décembre"
  }

  /** The covered period of the prorated candidates (CCA: November 2024 to
      October 2025; PCA: December 2024 to May 2025). */
  function PeriodOf(key: EntryKey): (p: (Date, Date))
    ensures ValidDate(p.0) && ValidDate(p.1) && MonthIndex(p.0) <= MonthIndex(p.1)
  {
    if key == CCA then (Date(2024, 11, 1), Date(2025, 10, 31))
    else if key == PCA then (Date(2024, 12, 1), Date(2025, 5, 31))
    else (Date(2024, 12, 31), Date(2024, 12, 31))
  }

  /** The statement of a candidate, with its amount as `fmt` writes it and,
      for the VAT situations, its rate. */
  function StatementText(key: EntryKey, amountHT: int, rate: nat, fmt: int -> string): string {
    var a := fmt(amountHT);
    var t := RateText(rate);
    match key
    case FNP =>
      "Prestataire a réalisé une prestation en décembre N. La facture sera reçue en janvier N+1. Montant HT "
      + a + " €, TVA " + t + "%. Passer l'écriture de FNP au 31/12/N."
    case AAR =>
      "Avoir sur charge de N à recevoir en N+1 (remise/ristourne). Montant HT "
      + a + " €, TVA " + t + "%. Passer l'écriture d'AAR au 31/12/N."
    case FAE =>
      "Prestation/vente réalisée en décembre N, facturation en janvier N+1. Montant HT "
      + a + " €, TVA " + t + "%. Passer l'écriture de FAE au 31/12/N."
    case AAE =>
      "Avoir de vente à établir concernant une opération de N. Montant HT "
      + a + " €, TVA " + t + "%. Passer l'écriture d'AAE au 31/12/N."
    case CCA =>
      "Prime d'assurance payée en novembre N couvrant novembre N à octobre N+1. Montant HT "
      + a + " €. Constate la part N+1 au 31/12/N."
    case PCA =>
      "Abonnement logiciel vendu en décembre N couvrant décembre N à mai N+1. Montant HT "
      + a + " €. Constate la part à reporter en N+1."
  }

  /** The random draws one call of `makeScenario` consumes: the rate, one
      amount per candidate, the first pick and up to ten re-picks. */
  datatype Draws = Draws(rate: real, amounts: seq<real>, picks: seq<real>)

  predicate ValidDraws(d: Draws) {
    && Unit(d.rate)
    && |d.amounts| == |PoolKeys|
    && (forall i :: 0 <= i < |d.amounts| ==> Unit(d.amounts[i]))
    && |d.picks| == 11
    && (forall i :: 0 <= i < |d.picks| ==> Unit(d.picks[i]))
  }

  /** The key the `j`-th pick lands on. */
  function PickKey(picks: seq<real>, j: nat): EntryKey
    requires j < |picks| && Unit(picks[j])
  {
    PoolKeys[Draw(picks[j], |PoolKeys|)]
  }

  /** Every pick lands on `key`. */
  predicate AllPicksOn(picks: seq<real>, key: EntryKey)
    requires forall i :: 0 <= i < |picks| ==> Unit(picks[i])
  {
    forall j :: 0 <= j < |picks| ==> PickKey(picks, j) == key
  }

  /** The re-draw loop from pick `attempts` on: while the current candidate
      repeats `last` and fewer than ten re-draws were made, draw again. */
  function Redraw(last: EntryKey, picks: seq<real>, idx: nat, attempts: nat): nat
    requires |picks| == 11 && forall i :: 0 <= i < |picks| ==> Unit(picks[i])
    requires idx < |PoolKeys| && attempts <= 10
    decreases 10 - attempts
  {
    if PoolKeys[idx] == last && attempts < 10 then
      Redraw(last, picks, Draw(picks[attempts + 1], |PoolKeys|), attempts + 1)
    else idx
  }

  /** The pool index `makeScenario` settles on. */
  function SelectIndex(last: Option<EntryKey>, picks: seq<real>): (i: nat)
    requires |picks| == 11 && forall i :: 0 <= i < |picks| ==> Unit(picks[i])
    ensures i < |PoolKeys|
  {
    var first := Draw(picks[0], |PoolKeys|);
    if last.None? then first else RedrawBound(last.value, picks, first, 0); Redraw(last.value, picks, first, 0)
  }

  lemma {:induction false} RedrawBound(last: EntryKey, picks: seq<real>, idx: nat, attempts: nat)
    requires |picks| == 11 && forall i :: 0 <= i < |picks| ==> Unit(picks[i])
    requires idx < |PoolKeys| && attempts <= 10
    ensures Redraw(last, picks, idx, attempts) < |PoolKeys|
    decreases 10 - attempts
  {
    if PoolKeys[idx] == last && attempts < 10 {
      RedrawBound(last, picks, Draw(picks[attempts + 1], |PoolKeys|), attempts + 1);
    }
  }

  /** The re-draw loop stops at the first pick, from `attempts` on, that
      avoids `last`; only when the picks up to the tenth re-draw all land
      on `last` does it keep the last of them. */
  lemma {:induction false} RedrawStops(last: EntryKey, picks: seq<real>, attempts: nat)
    requires |picks| == 11 && forall i :: 0 <= i < |picks| ==> Unit(picks[i])
    requires attempts <= 10
    ensures exists n ::
              && attempts <= n <= 10
              && Redraw(last, picks, Draw(picks[attempts], |PoolKeys|), attempts) == Draw(picks[n], |PoolKeys|)
              && (forall j :: attempts <= j < n ==> PickKey(picks, j) == last)
              && (n < 10 ==> PickKey(picks, n) != last)
    decreases 10 - attempts
  {
    var idx := Draw(picks[attempts], |PoolKeys|);
    if PoolKeys[idx] == last && attempts < 10 {
      RedrawStops(last, picks, attempts + 1);
      var n :| attempts + 1 <= n <= 10
        && Redraw(last, picks, Draw(picks[attempts + 1], |PoolKeys|), attempts + 1) == Draw(picks[n], |PoolKeys|)
        && (forall j :: attempts + 1 <= j < n ==> PickKey(picks, j) == last)
        && (n < 10 ==> PickKey(picks, n) != last);
      assert forall j :: attempts <= j < n ==> PickKey(picks, j) == last;
    } else {
      assert attempts < 10 ==> PickKey(picks, attempts) != last;
    }
  }

  /** No previous model: the first pick stands. A previous model: the chosen
      candidate is another model unless all eleven picks (the first and the
      ten re-draws) land on it; the picks before the chosen one all repeated
      it. */
  lemma SelectionAvoidsRepeat(last: Option<EntryKey>, picks: seq<real>)
    requires |picks| == 11 && forall i :: 0 <= i < |picks| ==> Unit(picks[i])
    ensures last.None? ==> SelectIndex(last, picks) == Draw(picks[0], |PoolKeys|)
    ensures last.Some? ==> (PoolKeys[SelectIndex(last, picks)] == last.value <==> AllPicksOn(picks, last.value))
    ensures last.Some? ==> exists n ::
              && 0 <= n < |picks|
              && SelectIndex(last, picks) == Draw(picks[n], |PoolKeys|)
              && forall j :: 0 <= j < n ==> PickKey(picks, j) == last.value
  {
    if last.Some? {
      var k := last.value;
      var sel := SelectIndex(last, picks);
      RedrawStops(k, picks, 0);
      var n :| 0 <= n <= 10
        && sel == Draw(picks[n], |PoolKeys|)
        && (forall j :: 0 <= j < n ==> PickKey(picks, j) == k)
        && (n < 10 ==> PickKey(picks, n) != k);
      assert PickKey(picks, n) == PoolKeys[sel];
      if PoolKeys[sel] == k {
        assert n == 10;
        forall j | 0 <= j < |picks| ensures PickKey(picks, j) == k {
          if j == n {
            assert PickKey(picks, j) == PoolKeys[sel];
          }
        }
      } else {
        assert !AllPicksOn(picks, k) by {
          assert PickKey(picks, n) != k;
        }
      }
      assert 0 <= n < |picks| && SelectIndex(last, picks) == Draw(picks[n], |PoolKeys|);
    }
  }

  /** The selection loop of `makeScenario`, run on the supplied picks. */
  method ChooseIndex(last: Option<EntryKey>, picks: seq<real>) returns (idx: nat)
    requires |picks| == 11 && forall i :: 0 <= i < |picks| ==> Unit(picks[i])
    ensures idx == SelectIndex(last, picks)
  {
    idx := Draw(picks[0], |PoolKeys|);
    if last.Some? {
      var attempts := 0;
      while PoolKeys[idx] == last.value && attempts < 10
        invariant 0 <= attempts <= 10 && idx < |PoolKeys|
        invariant Redraw(last.value, picks, idx, attempts) == SelectIndex(last, picks)
        decreases 10 - attempts
      {
        idx := Draw(picks[attempts + 1], |PoolKeys|);
        attempts := attempts + 1;
      }
    }
  }

  /** A generated exercise. A prorated scenario also carries its period, its
      month counts and its prorated base; its rate is 0. */
  datatype Scenario =
    | TvaScenario(key: EntryKey, title: string, statement: string, amountHT: int, tvaRate: int)
    | ProrataScenario(key: EntryKey, title: string, statement: string, amountHT: int, tvaRate: int,
                      start: Date, end: Date, totalMonths: int, afterMonths: int, prorataBase: int)

  /** The scenario `makeScenario(level)` returns when the previous model was
      `last` and the random draws are `d`. */
  function ScenarioFor(last: Option<EntryKey>, level: Level, d: Draws, fmt: int -> string): Scenario
    requires ValidDraws(d)
  {
    var idx := SelectIndex(last, d.picks);
    var key := PoolKeys[idx];
    var amount := Round2(AmountFor(level, d.amounts[idx]));
    if KindOf(key) == Prorata then
      var (start, end) := PeriodOf(key);
      var total := DiffMonthsInclusive(start, end);
      var after := MonthsInNextYear(start, end);
      ProrataScenario(key, TitleOf(key), StatementText(key, amount, 0, fmt), amount, 0,
                      start, end, total, after, ProrataBase(amount, after, total))
    else
      var rate := RateFor(d.rate);
      TvaScenario(key, TitleOf(key), StatementText(key, amount, rate, fmt), amount, rate)
  }

  /** What a generated scenario looks like: its model is the selected one,
      the kind follows the model (CCA and PCA are prorated), the amount lies
      in the level's bounds and the rate of a VAT scenario is one of the
      four. */
  lemma ScenarioShape(last: Option<EntryKey>, level: Level, d: Draws, fmt: int -> string)
    requires ValidDraws(d)
    ensures var s := ScenarioFor(last, level, d, fmt);
      && s.key == PoolKeys[SelectIndex(last, d.picks)]
      && (s.ProrataScenario? <==> s.key in {CCA, PCA})
      && (level == Facile ==> s.amountHT == 100000)
      && (level == Moyen ==> 50000 <= s.amountHT <= 500000)
      && (level == Difficile ==> 5000 <= s.amountHT <= 200000)
      && (s.TvaScenario? ==> s.tvaRate in VatRates)
  {
    var idx := SelectIndex(last, d.picks);
    var amount := AmountFor(level, d.amounts[idx]);
    var s := ScenarioFor(last, level, d, fmt);
    assert s.key == PoolKeys[idx] && s.amountHT == amount;
  }

  /** The month counts of the CCA and PCA periods. */
  lemma PeriodCounts(key: EntryKey)
    requires key in {CCA, PCA}
    ensures var (start, end) := PeriodOf(key);
      && DiffMonthsInclusive(start, end) == (if key == CCA then 12 else 6)
      && MonthsInNextYear(start, end) == (if key == CCA then 10 else 5)
  {
    MonthsInNextYearExamples();
  }

  /** A prorated scenario has rate 0; CCA spans 12 months with 10 in the
      next year and PCA 6 with 5; the prorated base lies between zero and the
      amount. */
  lemma ProrataShape(last: Option<EntryKey>, level: Level, d: Draws, fmt: int -> string)
    requires ValidDraws(d)
    ensures var s := ScenarioFor(last, level, d, fmt);
      s.ProrataScenario? ==>
        && s.tvaRate == 0
        && s.totalMonths == (if s.key == CCA then 12 else 6)
        && s.afterMonths == (if s.key == CCA then 10 else 5)
        && 0 <= s.prorataBase <= s.amountHT
  {
    var s := ScenarioFor(last, level, d, fmt);
    if s.ProrataScenario? {
      var idx := SelectIndex(last, d.picks);
      assert s.key == PoolKeys[idx];
      assert s.amountHT >= 0 by {
        assert s.amountHT == AmountFor(level, d.amounts[idx]);
      }
      PeriodCounts(s.key);
      ProrataBaseWithin(s.amountHT, s.afterMonths, s.totalMonths);
    }
  }

  /** `makeScenario` keeps the last chosen model in `lastKey` between calls. */
  class ScenarioGenerator {
    var lastKey: Option<EntryKey>

    constructor()
      ensures lastKey == None
    {
      lastKey := None;
    }

    /** `makeScenario(level)`: the scenario for the previous model and these
        draws; the chosen model becomes the previous one. */
    method MakeScenario(level: Level, d: Draws, fmt: int -> string) returns (s: Scenario)
      requires ValidDraws(d)
      modifies this
      ensures s == ScenarioFor(old(lastKey), level, d, fmt)
      ensures lastKey == Some(s.key)
    {
      var idx := ChooseIndex(lastKey, d.picks);
      s := ScenarioFor(lastKey, level, d, fmt);
      lastKey := Some(PoolKeys[idx]);
    }

    /** `makeQuiz(n)`: one question per scenario, in order, at the level of
        its position, each scenario avoiding the model of the one before. */
    method MakeQuiz(draws: seq<Draws>, fmt: int -> string) returns (qs: seq<Question>)
      requires forall i :: 0 <= i < |draws| ==> ValidDraws(draws[i])
      modifies this
      ensures qs == QuestionsOf(QuizFrom(old(lastKey), 0, draws, fmt))
      ensures |draws| > 0 ==> lastKey == Some(qs[|qs| - 1].answer)
    {
      qs := [];
      var i := 0;
      while i < |draws|
        invariant 0 <= i <= |draws|
        invariant qs + QuestionsOf(QuizFrom(lastKey, i, draws, fmt))
               == QuestionsOf(QuizFrom(old(lastKey), 0, draws, fmt))
        invariant |qs| == i
        invariant i > 0 ==> lastKey == Some(qs[i - 1].answer)
      {
        var previous := lastKey;
        var s := MakeScenario(QuizLevel(i), draws[i], fmt);
        QuizStep(qs, previous, i, draws, fmt);
        qs := qs + [Question(s.statement, s.key)];
        i := i + 1;
      }
    }
  }

  /** A quiz question: a statement and the model that answers it. */
  datatype Question = Question(statement: string, answer: EntryKey)

  /** The level of the `i`-th quiz question. */
  function QuizLevel(i: nat): Level {
    if i % 3 == 0 then Difficile else if i % 2 == 0 then Moyen else Facile
  }

  /** The levels of an eight-question quiz. */
  lemma QuizLevelsOfEight()
    ensures seq(8, i requires 0 <= i < 8 => QuizLevel(i))
         == [Difficile, Facile, Moyen, Difficile, Moyen, Facile, Difficile, Facile]
  {
  }

  /** The scenarios of the quiz questions from position `i` on, the first of
      them following `last`. */
  function QuizFrom(last: Option<EntryKey>, i: nat, draws: seq<Draws>, fmt: int -> string): (r: seq<Scenario>)
    requires forall j :: 0 <= j < |draws| ==> ValidDraws(draws[j])
    ensures |r| == if i <= |draws| then |draws| - i else 0
    decreases |draws| - i
  {
    if i >= |draws| then []
    else
      var s := ScenarioFor(last, QuizLevel(i), draws[i], fmt);
      [s] + QuizFrom(Some(s.key), i + 1, draws, fmt)
  }

  /** One step of `makeQuiz`: the question of the scenario at position `i`
      joins the questions so far, and the rest follows its model. */
  lemma QuizStep(qs: seq<Question>, last: Option<EntryKey>, i: nat, draws: seq<Draws>, fmt: int -> string)
    requires forall j :: 0 <= j < |draws| ==> ValidDraws(draws[j])
    requires i < |draws|
    ensures var s := ScenarioFor(last, QuizLevel(i), draws[i], fmt);
      (qs + [Question(s.statement, s.key)]) + QuestionsOf(QuizFrom(Some(s.key), i + 1, draws, fmt))
        == qs + QuestionsOf(QuizFrom(last, i, draws, fmt))
  {
    var s := ScenarioFor(last, QuizLevel(i), draws[i], fmt);
    QuizFromStep(last, i, draws, fmt);
    QuestionsStep(qs, s, QuizFrom(Some(s.key), i + 1, draws, fmt), QuizFrom(last, i, draws, fmt));
  }

  /** `QuizFrom` at position `i`: the scenario there, then the rest following
      its model. */
  lemma QuizFromStep(last: Option<EntryKey>, i: nat, draws: seq<Draws>, fmt: int -> string)
    requires forall j :: 0 <= j < |draws| ==> ValidDraws(draws[j])
    requires i < |draws|
    ensures var s := ScenarioFor(last, QuizLevel(i), draws[i], fmt);
      QuizFrom(last, i, draws, fmt) == [s] + QuizFrom(Some(s.key), i + 1, draws, fmt)
  {
  }

  /** Appending the question of the first scenario to `qs`, then the
      questions of the others, gives `qs` followed by all the questions. */
  lemma QuestionsStep(qs: seq<Question>, s: Scenario, rest: seq<Scenario>, all: seq<Scenario>)
    requires all == [s] + rest
    ensures (qs + [Question(s.statement, s.key)]) + QuestionsOf(rest) == qs + QuestionsOf(all)
  {
    QuestionsOfCons(s, rest);
  }

  function QuestionsOf(ss: seq<Scenario>): (qs: seq<Question>)
    ensures |qs| == |ss|
    ensures forall i :: 0 <= i < |ss| ==> qs[i] == Question(ss[i].statement, ss[i].key)
  {
    seq(|ss|, i requires 0 <= i < |ss| => Question(ss[i].statement, ss[i].key))
  }

  lemma QuestionsOfCons(s: Scenario, ss: seq<Scenario>)
    ensures QuestionsOf([s] + ss) == [Question(s.statement, s.key)] + QuestionsOf(ss)
  {
    assert QuestionsOf([s] + ss) == [Question(s.statement, s.key)] + QuestionsOf(ss);
  }

  /** `buildExpectedLines`: CCA and PCA scenarios give two lines on the
      prorated base; every other scenario gives the model's closing lines at
      its HT amount and rate. */
  function BuildExpectedLines(s: Scenario): seq<Posting> {
    if s.ProrataScenario? && s.key == CCA then
      var portion := Round2(s.prorataBase);
      [ Posting("486", "Charges constatées d’avance", Debit, portion),
        Posting("6xxx", "Charge (HT)", Credit, portion) ]
    else if s.ProrataScenario? && s.key == PCA then
      var portion := Round2(s.prorataBase);
      [ Posting("7xxx", "Produit (HT)", Debit, portion),
        Posting("487", "Produits constatés d’avance", Credit, portion) ]
    else
      EvaluateLines(ModelOf(s.key).closing, s.amountHT, s.tvaRate)
  }

  /** The amount the expected lines are computed on. */
  function ExpectedBase(s: Scenario): int {
    if s.ProrataScenario? && s.key in {CCA, PCA} then s.prorataBase else s.amountHT
  }

  /** A two-line entry whose lines both book the HT amount books the base
      twice, on the lines' accounts, captions and sides. */
  lemma EvaluateTwoOnBase(lines: seq<Line>, base: int, rate: int)
    requires |lines| == 2 && lines[0].formula == AmountHT && lines[1].formula == AmountHT
    ensures EvaluateLines(lines, base, rate)
         == [ Posting(lines[0].account, lines[0].caption, lines[0].side, Round2(base)),
              Posting(lines[1].account, lines[1].caption, lines[1].side, Round2(base)) ]
  {
  }

  /** The CCA closing entry on a base: 486 debited, the charge credited. */
  lemma CcaClosingLines(base: int, rate: int)
    ensures EvaluateLines(ModelOf(CCA).closing, base, rate)
         == [ Posting("486", "Charges constatées d’avance", Debit, Round2(base)),
              Posting("6xxx", "Charge (HT)", Credit, Round2(base)) ]
  {
    ModelOfIsDeclared(CCA);
    var lines := ModelOf(CCA).closing;
    assert lines == CcaModel().closing;
    EvaluateTwoOnBase(lines, base, rate);
  }

  /** The PCA closing entry on a base: the product debited, 487 credited. */
  lemma PcaClosingLines(base: int, rate: int)
    ensures EvaluateLines(ModelOf(PCA).closing, base, rate)
         == [ Posting("7xxx", "Produit (HT)", Debit, Round2(base)),
              Posting("487", "Produits constatés d’avance", Credit, Round2(base)) ]
  {
    ModelOfIsDeclared(PCA);
    var lines := ModelOf(PCA).closing;
    assert lines == PcaModel().closing;
    EvaluateTwoOnBase(lines, base, rate);
  }

  /** The two prorated lines are the CCA or PCA closing entry of the model
      table taken on the prorated base: every expected entry is a model's
      closing entry. */
  lemma ExpectedLinesAreClosing(s: Scenario)
    ensures BuildExpectedLines(s) == EvaluateLines(ModelOf(s.key).closing, ExpectedBase(s), s.tvaRate)
  {
    if s.ProrataScenario? && s.key == CCA {
      CcaClosingLines(s.prorataBase, s.tvaRate);
    } else if s.ProrataScenario? && s.key == PCA {
      PcaClosingLines(s.prorataBase, s.tvaRate);
    }
  }

  /** The expected entry of any scenario balances, and its debit total is the
      TTC amount for a VAT scenario and the prorated base for CCA and PCA. */
  lemma ExpectedLinesBalance(s: Scenario)
    ensures Balanced(BuildExpectedLines(s))
    ensures SideTotal(BuildExpectedLines(s), Debit)
         == if HasVat(s.key) then Ttc(s.amountHT, ComputeTva(s.amountHT, s.tvaRate)) else ExpectedBase(s)
  {
    ExpectedLinesAreClosing(s);
    ClosingBalances(s.key, ExpectedBase(s), s.tvaRate);
  }
}
