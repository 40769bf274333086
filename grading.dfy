/**
 * Grading of an exercise answer: the rows the learner fills in are checked
 * against the expected closing lines for sides, accounts and amounts,
 * position by position, with what is checked depending on the level.
 */
module Grading {
  import opened Text
  import opened Money
  import opened Ledger
  import opened Numbers
  import opened Scenarios

  /** One answer row: the account typed or chosen, the amount as typed, and
      the side (none while the learner has not chosen one). */
  datatype InputRow = InputRow(account: string, amount: string, side: Option<Side>)

  /** `round2(parseFloat(text) || 0)` in cents: text that is not a number
      counts as zero, a finite number is rounded half-up to the cent, and an
      infinity has no value in cents (no amount is within a cent of it). */
  function SubmittedCents(text: string): (r: Option<int>)
    ensures r.None? <==> ParseFloat(text).Infinite?
    ensures ParseFloat(text).NaN? ==> r == Some(0)
    ensures ParseFloat(text).Finite? ==>
      var x := ParseFloat(text);
      2 * x.den * r.value - x.den <= 2 * 100 * x.num < 2 * x.den * r.value + x.den
  {
    var x := ParseFloat(text);
    if x.NaN? then Some(0)
    else if x.Infinite? then None
    else Some(RoundToCent(100 * x.num, x.den))
  }

  /** The amount check of one row: the submitted value lies less than one
      cent away from the expected amount; on whole cents that means the two
      are equal. */
  function AmountOk(text: string, expected: int): (ok: bool)
    ensures ok <==> SubmittedCents(text) == Some(expected)
  {
    match SubmittedCents(text)
    case None => false
    case Some(v) => -1 < v - expected < 1
  }

  /** `sidesOk`: at facile and moyen every row carries the expected side; at
      difficile the side is not checked. It fails exactly when, at facile or
      moyen, some row has no side or the other one. */
  function SidesOk(level: Level, inputs: seq<InputRow>, expected: seq<Posting>): (ok: bool)
    requires |inputs| <= |expected|
    ensures !ok <==> (level != Difficile && exists i :: 0 <= i < |inputs| && inputs[i].side != Some(expected[i].side))
  {
    if level == Facile || level == Moyen then
      forall i :: 0 <= i < |inputs| ==> inputs[i].side == Some(expected[i].side)
    else
      assert level.Difficile?;
      true
  }

  /** `accountsOk`: at facile the accounts are given and not checked;
      otherwise every row's account, trimmed, is the expected account. It
      fails exactly when, at moyen or difficile, some row's trimmed account
      differs from the expected one. */
  function AccountsOk(level: Level, inputs: seq<InputRow>, expected: seq<Posting>): (ok: bool)
    requires |inputs| <= |expected|
    ensures !ok <==> (level != Facile && exists i :: 0 <= i < |inputs| && Trim(inputs[i].account) != expected[i].account)
  {
    if level == Facile then true
    else forall i :: 0 <= i < |inputs| ==> Trim(inputs[i].account) == expected[i].account
  }

  /** `amountsOk`: every row's amount passes the amount check. It fails
      exactly when some row's amount, read and rounded to the cent, is not
      the expected amount. */
  function AmountsOk(inputs: seq<InputRow>, expected: seq<Posting>): (ok: bool)
    requires |inputs| <= |expected|
    ensures !ok <==> exists i :: 0 <= i < |inputs| && SubmittedCents(inputs[i].amount) != Some(expected[i].amount)
  {
    forall i :: 0 <= i < |inputs| ==> AmountOk(inputs[i].amount, expected[i].amount)
  }

  /** `allGood`: validated, and all three checks pass. Row by row: each row
      has the expected side unless at difficile, the expected account
      unless at facile, and an amount that reads as the expected one. */
  function AllGood(validated: bool, level: Level, inputs: seq<InputRow>, expected: seq<Posting>): (ok: bool)
    requires |inputs| <= |expected|
    ensures ok <==> validated && forall i :: 0 <= i < |inputs| ==>
      && (level == Difficile || inputs[i].side == Some(expected[i].side))
      && (level == Facile || Trim(inputs[i].account) == expected[i].account)
      && SubmittedCents(inputs[i].amount) == Some(expected[i].amount)
  {
    validated && AccountsOk(level, inputs, expected) && SidesOk(level, inputs, expected)
    && AmountsOk(inputs, expected)
  }

  /** The blank form shown for a new exercise: the account filled in at
      facile only, no amount, and the side filled in at difficile only. */
  function BlankInputs(level: Level, expected: seq<Posting>): (rows: seq<InputRow>)
    ensures |rows| == |expected|
    ensures forall i :: 0 <= i < |expected| ==>
      && rows[i].amount == ""
      && rows[i].account == (if level == Facile then expected[i].account else "")
      && rows[i].side == (if level == Difficile then Some(expected[i].side) else None)
  {
    seq(|expected|, i requires 0 <= i < |expected| =>
      InputRow(if level == Facile then expected[i].account else "", "",
               if level == Difficile then Some(expected[i].side) else None))
  }

  /** The rows of a perfect answer: each expected account and side, and the
      expected amount written with a point and two decimals. */
  function AnswerRows(expected: seq<Posting>): (rows: seq<InputRow>)
    ensures |rows| == |expected|
    ensures forall i :: 0 <= i < |expected| ==>
      rows[i] == InputRow(expected[i].account, ToFixed2(expected[i].amount), Some(expected[i].side))
  {
    seq(|expected|, i requires 0 <= i < |expected| =>
      InputRow(expected[i].account, ToFixed2(expected[i].amount), Some(expected[i].side)))
  }

  /** An amount typed as the expected amount with two decimals is accepted. */
  lemma TypedAmountAccepted(cents: int)
    ensures AmountOk(ToFixed2(cents), cents)
  {
    ParseFixed2(cents);
    RoundWholeCents(cents);
  }

  /** The expected answer, typed in full, is accepted at every level, once
      validated, provided the expected accounts carry no surrounding
      whitespace. */
  lemma CorrectAnswerPasses(level: Level, expected: seq<Posting>)
    requires forall i :: 0 <= i < |expected| ==> Trim(expected[i].account) == expected[i].account
    ensures AllGood(true, level, AnswerRows(expected), expected)
  {
    var rows := AnswerRows(expected);
    forall i | 0 <= i < |rows|
      ensures AmountOk(rows[i].amount, expected[i].amount)
    {
      TypedAmountAccepted(expected[i].amount);
    }
  }

  /** An empty amount field counts as zero. */
  lemma EmptyAmountIsZero()
    ensures SubmittedCents("") == Some(0)
  {
    assert TrimStart("") == "";
    assert DigitPrefix("") == [];
  }

  /** An empty amount passes exactly when the expected amount is zero. */
  lemma EmptyAmountOk(expected: int)
    ensures AmountOk("", expected) <==> expected == 0
  {
    EmptyAmountIsZero();
  }

  /** Left blank, the amounts pass exactly when every expected amount is
      zero. */
  lemma BlankAmounts(level: Level, expected: seq<Posting>)
    ensures AmountsOk(BlankInputs(level, expected), expected)
        <==> forall i :: 0 <= i < |expected| ==> expected[i].amount == 0
  {
    var blanks := BlankInputs(level, expected);
    forall i | 0 <= i < |expected|
      ensures AmountOk(blanks[i].amount, expected[i].amount) <==> expected[i].amount == 0
    {
      EmptyAmountOk(expected[i].amount);
    }
  }

  /** The blank form's sides pass at difficile, where they are filled in,
      and fail at facile and moyen as soon as there is a line; its accounts
      pass at facile, where they are given, and fail at moyen and difficile
      on any line that has an account. */
  lemma BlankSidesAndAccounts(level: Level, expected: seq<Posting>)
    ensures SidesOk(level, BlankInputs(level, expected), expected) <==> level == Difficile || expected == []
    ensures level == Facile ==> AccountsOk(level, BlankInputs(level, expected), expected)
    ensures level != Facile && (exists i :: 0 <= i < |expected| && expected[i].account != "") ==>
              !AccountsOk(level, BlankInputs(level, expected), expected)
  {
    var blanks := BlankInputs(level, expected);
    if level != Difficile && expected != [] {
      assert blanks[0].side == None;
    }
    if level != Facile && exists i :: 0 <= i < |expected| && expected[i].account != "" {
      var i :| 0 <= i < |expected| && expected[i].account != "";
      assert Trim(blanks[i].account) == "";
    }
  }

  /** A row on the wrong side fails at facile and moyen, whatever else it
      holds. */
  lemma WrongSideFails(level: Level, inputs: seq<InputRow>, expected: seq<Posting>, i: nat)
    requires |inputs| <= |expected| && i < |inputs|
    requires level != Difficile && inputs[i].side == Some(Flip(expected[i].side))
    ensures !AllGood(true, level, inputs, expected)
  {
  }

  /** A comma is not read as a decimal separator: "200,50" is graded as
      200.00. */
  lemma CommaAmountIsWhole()
    ensures SubmittedCents("200,50") == Some(20000)
    ensures !AmountOk("200,50", 20050)
  {
    CommaEndsTheNumber();
    RoundToCentUnique(100 * 200, 1, 20000);
  }

  /** The amount check as the "0,00" placeholder of the amount field invites
      it to be used: a decimal comma is read as a point. */
  function AmountOkWithComma(text: string, expected: int): (ok: bool)
    ensures ok <==> SubmittedCents(ReplaceChar(text, ',', '.')) == Some(expected)
    ensures ',' !in text ==> (ok <==> AmountOk(text, expected))
  {
    var read := ReplaceChar(text, ',', '.');
    assert ',' !in text ==> read == text;
    AmountOk(read, expected)
  }

  /** With the comma read as a point, an amount typed the French way, with a
      comma and two decimals, passes: "200,50" for 200.50. */
  lemma CommaTypedAmountAccepted(cents: int)
    ensures AmountOkWithComma(ReplaceChar(ToFixed2(cents), '.', ','), cents)
  {
    NoCommaInFixed2(cents);
    ReplaceCharBack(ToFixed2(cents), '.', ',');
    TypedAmountAccepted(cents);
  }
}
