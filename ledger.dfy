/**
 * The table of the six year-end adjustment models (FNP, AAR, CCA, FAE, AAE,
 * PCA): their closing lines, the reversal ("extourne") derived from them by
 * flipping sides, and the evaluation of a model at an HT amount and a VAT
 * rate. Each line's formula is one of three kinds (HT, VAT, TTC) instead of
 * a closure.
 */
module Ledger {
  import opened Text
  import opened Money

  datatype Side = Debit | Credit

  function Flip(s: Side): (r: Side)
    ensures r != s
  {
    if s == Debit then Credit else Debit
  }

  datatype EntryKey = FNP | AAR | CCA | FAE | AAE | PCA

  /** Whether a model adjusts an expense ("Charges") or a revenue ("Produits"). */
  datatype Group = Charges | Produits

  /** What a closing line books: the HT amount, its VAT, or the TTC total. */
  datatype Formula = AmountHT | Vat | Gross

  /** A line template of a model. */
  datatype Line = Line(account: string, caption: string, side: Side, formula: Formula)

  /** A line evaluated at concrete parameters, with its amount in cents. */
  datatype Posting = Posting(account: string, caption: string, side: Side, amount: int)

  /** A model of the table. Its title and description, which only the course
      page displays, are given by `Title` and `Description`. */
  datatype EntryModel = EntryModel(
    key: EntryKey,
    group: Group,
    accountMain: string,
    tvaAccount: Option<string>,
    closing: seq<Line>,
    reversal: seq<Line>)

  /** A line's formula applied to the HT amount and the VAT rate; the TTC
      total is always the HT amount plus the VAT. */
  function EvaluateFormula(f: Formula, amountHT: int, tvaRate: int): (r: int)
    ensures f == AmountHT ==> r == amountHT
    ensures f == Gross ==> r == amountHT + ComputeTva(amountHT, tvaRate)
  {
    match f
    case AmountHT => amountHT
    case Vat => ComputeTva(amountHT, tvaRate)
    case Gross => Ttc(amountHT, ComputeTva(amountHT, tvaRate))
  }

  /** `makeReversal`: the same lines in the same order with the same account,
      label and formula, each on the opposite side. */
  function MakeReversal(lines: seq<Line>): (r: seq<Line>)
    ensures |r| == |lines|
    ensures forall i :: 0 <= i < |lines| ==>
      && r[i].account == lines[i].account
      && r[i].caption == lines[i].caption
      && r[i].formula == lines[i].formula
      && r[i].side != lines[i].side
  {
    seq(|lines|, i requires 0 <= i < |lines| => lines[i].(side := Flip(lines[i].side)))
  }

  /** Reversing twice gives back the closing lines. */
  lemma ReversalInvolution(lines: seq<Line>)
    ensures MakeReversal(MakeReversal(lines)) == lines
  {
    var twice := MakeReversal(MakeReversal(lines));
    assert |twice| == |lines|;
    forall i | 0 <= i < |lines|
      ensures twice[i] == lines[i]
    {
      assert twice[i].side != MakeReversal(lines)[i].side;
    }
  }

  /** Evaluates every line (the `enrich` step): each posting keeps its line's
      account, label and side and carries the line's formula rounded to the
      cent; the templates themselves are untouched. */
  function EvaluateLines(lines: seq<Line>, amountHT: int, tvaRate: int): (r: seq<Posting>)
    ensures |r| == |lines|
    ensures forall i :: 0 <= i < |lines| ==>
      && r[i].account == lines[i].account
      && r[i].caption == lines[i].caption
      && r[i].side == lines[i].side
      && r[i].amount == EvaluateFormula(lines[i].formula, amountHT, tvaRate)
  {
    seq(|lines|, i requires 0 <= i < |lines| =>
      Posting(lines[i].account, lines[i].caption, lines[i].side,
              Round2(EvaluateFormula(lines[i].formula, amountHT, tvaRate))))
  }

  /** The total of the amounts on one side. */
  function SideTotal(ps: seq<Posting>, side: Side): int
  {
    if ps == [] then 0
    else OnSide(ps[0], side) + SideTotal(ps[1..], side)
  }

  /** `balanced`: the debit and credit totals differ by less than half a cent
      (`Math.abs(deb - cre) < 0.005`). */
  predicate Balanced(ps: seq<Posting>) {
    var d, c := SideTotal(ps, Debit), SideTotal(ps, Credit);
    -1 < 2 * (d - c) < 1
  }

  /** On whole cents the half-cent tolerance is exact equality of the totals. */
  lemma BalancedIsEquality(ps: seq<Posting>)
    ensures Balanced(ps) <==> SideTotal(ps, Debit) == SideTotal(ps, Credit)
  {
  }

  /** The reversal's total on one side is the closing entry's total on the
      other, whatever the HT amount and the rate. */
  lemma {:induction false} ReversalTotals(lines: seq<Line>, amountHT: int, tvaRate: int, side: Side)
    ensures SideTotal(EvaluateLines(MakeReversal(lines), amountHT, tvaRate), side)
         == SideTotal(EvaluateLines(lines, amountHT, tvaRate), Flip(side))
  {
    if lines != [] {
      ReversalTotals(lines[1..], amountHT, tvaRate, side);
      assert MakeReversal(lines)[1..] == MakeReversal(lines[1..]);
      assert EvaluateLines(MakeReversal(lines), amountHT, tvaRate)[1..]
          == EvaluateLines(MakeReversal(lines[1..]), amountHT, tvaRate);
      assert EvaluateLines(lines, amountHT, tvaRate)[1..] == EvaluateLines(lines[1..], amountHT, tvaRate);
      assert Flip(lines[0].side) == side <==> lines[0].side == Flip(side) by {
        assert Flip(Flip(side)) == side;
      }
    }
  }

  /** Evaluating the reversal gives the closing postings with every side
      flipped: same accounts, labels and amounts, in the same order. */
  lemma ReversalPostings(lines: seq<Line>, amountHT: int, tvaRate: int)
    ensures var closing, reversal := EvaluateLines(lines, amountHT, tvaRate),
                                     EvaluateLines(MakeReversal(lines), amountHT, tvaRate);
      && |reversal| == |closing|
      && forall i :: 0 <= i < |closing| ==> reversal[i] == closing[i].(side := Flip(closing[i].side))
  {
    var closing, reversal := EvaluateLines(lines, amountHT, tvaRate),
                             EvaluateLines(MakeReversal(lines), amountHT, tvaRate);
    forall i | 0 <= i < |closing|
      ensures reversal[i] == closing[i].(side := Flip(closing[i].side))
    {
      assert MakeReversal(lines)[i].side != lines[i].side;
    }
  }

  /** A balanced closing entry has a balanced reversal. */
  lemma ReversalBalances(lines: seq<Line>, amountHT: int, tvaRate: int)
    requires Balanced(EvaluateLines(lines, amountHT, tvaRate))
    ensures Balanced(EvaluateLines(MakeReversal(lines), amountHT, tvaRate))
  {
    ReversalTotals(lines, amountHT, tvaRate, Debit);
    ReversalTotals(lines, amountHT, tvaRate, Credit);
  }

  /** The title a model is shown under. */
  function Title(key: EntryKey): string {
    match key
    case FNP => "FNP – Factures non parvenues"
    case AAR => "AAR – Avoir à recevoir"
    case CCA => "CCA – Charges constatées d’avance"
    case FAE => "FAE – Factures à établir"
    case AAE => "AAE – Avoir à établir"
    case PCA => "PCA – Produits constatés d’avance"
  }

  /** The one-line description of when a model applies. */
  function Description(key: EntryKey): string {
    match key
    case FNP => "Charge de N dont la facture sera reçue en N+1."
    case AAR => "Avoir relatif à une charge de N, reçu en N+1."
    case CCA => "Charge facturée en N couvrant une période de N+1."
    case FAE => "Vente/prestation de N facturée en N+1."
    case AAE => "Avoir de vente à émettre sur une opération de N."
    case PCA => "Produit facturé en N mais correspondant à N+1."
  }

  /** The six models as declared, before their reversals are filled in. */
  function DeclaredModels(): seq<EntryModel> {
    [FnpModel(), AarModel(), CcaModel(), FaeModel(), AaeModel(), PcaModel()]
  }

  function FnpModel(): EntryModel {
    EntryModel(FNP, Charges, "4081", Some("44586"),
      [ Line("6xxx", "Charge (HT)", Debit, AmountHT),
        Line("44586", "TVA déductible à régulariser", Debit, Vat),
        Line("4081", "Fournisseur – FNP (TTC)", Credit, Gross) ], [])
  }

  function AarModel(): EntryModel {
    EntryModel(AAR, Charges, "4098", Some("44586"),
      [ Line("4098", "Fournisseur – Avoir à recevoir (TTC)", Debit, Gross),
        Line("6xxx", "Charge (HT)", Credit, AmountHT),
        Line("44586", "TVA déductible à régulariser", Credit, Vat) ], [])
  }

  function CcaModel(): EntryModel {
    EntryModel(CCA, Charges, "486", None,
      [ Line("486", "Charges constatées d’avance", Debit, AmountHT),
        Line("6xxx", "Charge (HT)", Credit, AmountHT) ], [])
  }

  function FaeModel(): EntryModel {
    EntryModel(FAE, Produits, "4181", Some("44587"),
      [ Line("4181", "Client – FAE (TTC)", Debit, Gross),
        Line("7xxx", "Produit (HT)", Credit, AmountHT),
        Line("44587", "TVA collectée à régulariser", Credit, Vat) ], [])
  }

  function AaeModel(): EntryModel {
    EntryModel(AAE, Produits, "4198", Some("44587"),
      [ Line("7xxx", "Produit (HT)", Debit, AmountHT),
        Line("44587", "TVA collectée à régulariser", Debit, Vat),
        Line("4198", "Client – Avoir à établir (TTC)", Credit, Gross) ], [])
  }

  function PcaModel(): EntryModel {
    EntryModel(PCA, Produits, "487", None,
      [ Line("7xxx", "Produit (HT)", Debit, AmountHT),
        Line("487", "Produits constatés d’avance", Credit, AmountHT) ], [])
  }

  /** The declared model of a key. */
  function Declared(key: EntryKey): (m: EntryModel)
    ensures m == DeclaredModels()[Index(key)]
  {
    match key
    case FNP => FnpModel()
    case AAR => AarModel()
    case CCA => CcaModel()
    case FAE => FaeModel()
    case AAE => AaeModel()
    case PCA => PcaModel()
  }

  /** One model with its reversal filled in from its closing lines. */
  function WithReversal(m: EntryModel): EntryModel {
    m.(reversal := MakeReversal(m.closing))
  }

  /** `MODELS.forEach((m) => (m.reversal = makeReversal(m.closing)))`: every
      model gets its reversal, in place; nothing else about it changes. */
  method InitialiseReversals(models: array<EntryModel>)
    modifies models
    ensures forall i :: 0 <= i < models.Length ==> models[i] == WithReversal(old(models[i]))
  {
    for i := 0 to models.Length
      invariant forall j :: 0 <= j < i ==> models[j] == WithReversal(old(models[j]))
      invariant forall j :: i <= j < models.Length ==> models[j] == old(models[j])
    {
      models[i] := WithReversal(models[i]);
    }
  }

  /** `MODELS` once its reversals are initialised. */
  function Catalogue(): seq<EntryModel> {
    var declared := DeclaredModels();
    seq(|declared|, i requires 0 <= i < |declared| => WithReversal(declared[i]))
  }

  /** Initialising an array that holds the declared models yields the catalogue. */
  lemma InitialisedArrayIsCatalogue(before: seq<EntryModel>, after: seq<EntryModel>)
    requires before == DeclaredModels() && |after| == |before|
    requires forall i :: 0 <= i < |after| ==> after[i] == WithReversal(before[i])
    ensures after == Catalogue()
  {
  }

  /** `MODELS.find(m => m.key === key)`: the first model with that key, or
      nothing when no model has it. */
  function FindModel(ms: seq<EntryModel>, key: EntryKey): (r: Option<EntryModel>)
    ensures r.None? <==> forall i :: 0 <= i < |ms| ==> ms[i].key != key
    ensures r.Some? ==> exists i :: 0 <= i < |ms| && ms[i] == r.value && r.value.key == key &&
                                    forall j :: 0 <= j < i ==> ms[j].key != key
  {
    if ms == [] then None
    else if ms[0].key == key then Some(ms[0])
    else
      var r := FindModel(ms[1..], key);
      assert r.Some? ==> exists i :: 0 <= i < |ms| && ms[i] == r.value && r.value.key == key &&
                                     forall j :: 0 <= j < i ==> ms[j].key != key by {
        if r.Some? {
          var i :| 0 <= i < |ms[1..]| && ms[1..][i] == r.value && r.value.key == key &&
                   forall j :: 0 <= j < i ==> ms[1..][j].key != key;
          assert forall j :: 0 <= j < i + 1 ==> ms[j].key != key by {
            forall j | 0 <= j < i + 1 ensures ms[j].key != key {
              if j > 0 { assert ms[j] == ms[1..][j - 1]; }
            }
          }
        }
      }
      assert r.None? ==> forall i :: 0 <= i < |ms| ==> ms[i].key != key by {
        if r.None? {
          forall i | 0 <= i < |ms| ensures ms[i].key != key {
            if i > 0 { assert ms[i] == ms[1..][i - 1]; }
          }
        }
      }
      r
  }

  /** The catalogue holds a model for every key. */
  lemma CatalogueCoversKeys(key: EntryKey)
    ensures FindModel(Catalogue(), key).Some?
  {
    assert Catalogue()[Index(key)].key == key;
  }

  /** The model `MODELS.find(...)!` returns for a key. */
  function ModelOf(key: EntryKey): (m: EntryModel)
    ensures m.key == key && m in Catalogue()
  {
    CatalogueCoversKeys(key);
    FindModel(Catalogue(), key).value
  }

  /** Where each key's model stands in the table. */
  function Index(key: EntryKey): (i: nat)
    ensures i < |DeclaredModels()| && DeclaredModels()[i].key == key
  {
    match key
    case FNP => 0 case AAR => 1 case CCA => 2 case FAE => 3 case AAE => 4 case PCA => 5
  }

  /** `find` returns the declared model of that key, its reversal filled in. */
  lemma ModelOfIsDeclared(key: EntryKey)
    ensures ModelOf(key) == WithReversal(Declared(key))
  {
    var ms := Catalogue();
    DeclaredKeys();
    FindFirst(ms, key, Index(key));
  }

  /** `find` returns the model at the first position holding the key. */
  lemma {:induction false} FindFirst(ms: seq<EntryModel>, key: EntryKey, k: nat)
    requires k < |ms| && ms[k].key == key
    requires forall j :: 0 <= j < k ==> ms[j].key != key
    ensures FindModel(ms, key) == Some(ms[k])
  {
    if k > 0 {
      FindFirst(ms[1..], key, k - 1);
    }
  }

  /** The declared models carry the keys in table order. */
  lemma DeclaredKeys()
    ensures forall j :: 0 <= j < |Catalogue()| ==> Catalogue()[j].key == [FNP, AAR, CCA, FAE, AAE, PCA][j]
  {
  }

  /** The models that carry VAT: those with a VAT account. */
  predicate HasVat(key: EntryKey) {
    key in {FNP, AAR, FAE, AAE}
  }

  /** Every model's reversal is its closing lines with the sides flipped. */
  lemma ReversalOfModel(key: EntryKey)
    ensures ModelOf(key).reversal == MakeReversal(ModelOf(key).closing)
  {
    ModelOfIsDeclared(key);
  }

  /** Every model's reversal is its closing lines with the sides flipped;
      VAT-bearing models have three closing lines and a VAT account, the
      prorated ones (CCA, PCA) two lines and none; the main account is booked
      by one of the closing lines; the group is Charges exactly for FNP, AAR
      and CCA. */
  lemma ModelShape(key: EntryKey)
    ensures ModelOf(key).reversal == MakeReversal(ModelOf(key).closing)
    ensures HasVat(key) <==> ModelOf(key).tvaAccount.Some?
    ensures |ModelOf(key).closing| == if HasVat(key) then 3 else 2
    ensures exists i :: 0 <= i < |ModelOf(key).closing| &&
                        ModelOf(key).closing[i].account == ModelOf(key).accountMain
    ensures ModelOf(key).group == Charges <==> key in {FNP, AAR, CCA}
  {
    var m := ModelOf(key);
    ModelOfIsDeclared(key);
    match key
    case FNP => assert m.closing[2].account == FnpModel().accountMain;
    case AAR => assert m.closing[0].account == AarModel().accountMain;
    case CCA => assert m.closing[0].account == CcaModel().accountMain;
    case FAE => assert m.closing[0].account == FaeModel().accountMain;
    case AAE => assert m.closing[2].account == AaeModel().accountMain;
    case PCA => assert m.closing[1].account == PcaModel().accountMain;
  }

  /** The invariant of the table: every model's closing entry balances for any
      HT amount and any rate, with both totals equal to the TTC amount for the
      VAT-bearing models and to the HT amount for CCA and PCA; its reversal
      balances too. */
  lemma ClosingBalances(key: EntryKey, amountHT: int, tvaRate: int)
    ensures var ps := EvaluateLines(ModelOf(key).closing, amountHT, tvaRate);
      && Balanced(ps)
      && SideTotal(ps, Debit)
         == if HasVat(key) then Ttc(amountHT, ComputeTva(amountHT, tvaRate)) else amountHT
    ensures Balanced(EvaluateLines(ModelOf(key).reversal, amountHT, tvaRate))
  {
    var m := ModelOf(key);
    ModelOfIsDeclared(key);
    if HasVat(key) {
      VatClosingTotals(key, amountHT, tvaRate);
    } else {
      ProrataClosingTotals(key, amountHT, tvaRate);
    }
    ReversalBalances(m.closing, amountHT, tvaRate);
  }

  /** The totals of the three-line closing entries. */
  lemma VatClosingTotals(key: EntryKey, amountHT: int, tvaRate: int)
    requires HasVat(key)
    ensures var ps := EvaluateLines(Declared(key).closing, amountHT, tvaRate);
      && SideTotal(ps, Debit) == Ttc(amountHT, ComputeTva(amountHT, tvaRate))
      && SideTotal(ps, Credit) == SideTotal(ps, Debit)
  {
    var ps := EvaluateLines(Declared(key).closing, amountHT, tvaRate);
    SumThree(ps, Debit);
    SumThree(ps, Credit);
  }

  /** The totals of the two-line closing entries. */
  lemma ProrataClosingTotals(key: EntryKey, amountHT: int, tvaRate: int)
    requires !HasVat(key)
    ensures var ps := EvaluateLines(Declared(key).closing, amountHT, tvaRate);
      && SideTotal(ps, Debit) == amountHT
      && SideTotal(ps, Credit) == amountHT
  {
    var ps := EvaluateLines(Declared(key).closing, amountHT, tvaRate);
    SumTwo(ps, Debit);
    SumTwo(ps, Credit);
  }

  /** The amount a posting adds to the total of one side. */
  function OnSide(p: Posting, side: Side): int {
    if p.side == side then p.amount else 0
  }

  /** Unfolds `SideTotal` over a two-line entry. */
  lemma SumTwo(ps: seq<Posting>, side: Side)
    requires |ps| == 2
    ensures SideTotal(ps, side) == OnSide(ps[0], side) + OnSide(ps[1], side)
  {
    assert ps[1..][0] == ps[1];
    assert ps[1..][1..] == [];
    assert SideTotal(ps[1..], side) == OnSide(ps[1], side) + SideTotal([], side);
  }

  /** Unfolds `SideTotal` over a three-line entry. */
  lemma SumThree(ps: seq<Posting>, side: Side)
    requires |ps| == 3
    ensures SideTotal(ps, side) == OnSide(ps[0], side) + OnSide(ps[1], side) + OnSide(ps[2], side)
  {
    assert ps[1..][0] == ps[1];
    SumTwo(ps[1..], side);
  }

  /** What the live calculator shows for a model: the closing and reversal
      postings, the two totals and whether they balance. */
  datatype Entries = Entries(closing: seq<Posting>, reversal: seq<Posting>,
                             debitTotal: int, creditTotal: int, balanced: bool)

  /** `ComputedEntries`: evaluates the model's closing and reversal lines at
      the HT amount and the rate, and totals the closing lines per side. The
      entry always balances, its totals are the TTC amount for a VAT model
      and the HT amount for CCA and PCA, and the reversal posts the same
      accounts and amounts on the opposite sides. */
  function ComputedEntries(key: EntryKey, amountHT: int, tvaRate: int): (r: Entries)
    ensures r.closing == EvaluateLines(ModelOf(key).closing, amountHT, tvaRate)
    ensures r.reversal == EvaluateLines(ModelOf(key).reversal, amountHT, tvaRate)
    ensures r.debitTotal == SideTotal(r.closing, Debit) && r.creditTotal == SideTotal(r.closing, Credit)
    ensures r.debitTotal == if HasVat(key) then Ttc(amountHT, ComputeTva(amountHT, tvaRate)) else amountHT
    ensures r.balanced && r.debitTotal == r.creditTotal
    ensures |r.reversal| == |r.closing| == |ModelOf(key).closing|
    ensures forall i :: 0 <= i < |r.closing| ==>
      && r.reversal[i].account == r.closing[i].account
      && r.reversal[i].amount == r.closing[i].amount
      && r.reversal[i].side == Flip(r.closing[i].side)
  {
    var m := ModelOf(key);
    ReversalOfModel(key);
    ClosingBalances(key, amountHT, tvaRate);
    var closing := EvaluateLines(m.closing, amountHT, tvaRate);
    var reversal := EvaluateLines(m.reversal, amountHT, tvaRate);
    var deb, cre := Round2(SideTotal(closing, Debit)), Round2(SideTotal(closing, Credit));
    ReversalPostings(m.closing, amountHT, tvaRate);
    Entries(closing, reversal, deb, cre, -1 < 2 * (deb - cre) < 1)
  }

  /** Worked example: FNP at 1000.00 HT and 20% books 1000.00 and 200.00 on
      the debit side and 1200.00 on the credit side. */
  lemma FnpExample()
    ensures var ps := EvaluateLines(ModelOf(FNP).closing, 100000, 200);
      && |ps| == 3
      && ps[0] == Posting("6xxx", "Charge (HT)", Debit, 100000)
      && ps[1] == Posting("44586", "TVA déductible à régulariser", Debit, 20000)
      && ps[2] == Posting("4081", "Fournisseur – FNP (TTC)", Credit, 120000)
  {
    VatExample();
    ModelOfIsDeclared(FNP);
  }
}
