/** The test fixture of the ATM: a card, a token, 10 PL, and collaborators that
    authorize the card, accept the charge and release the notes. Each lemma below states
    what the machine does on this fixture, or on the fixture with one reply changed. */
module AtmFixture {
  import opened AtmValues
  import opened Banknotes
  import opened Atm

  function FixtureToken(): (token: AuthenticationToken)
  {
    AuthenticationToken("", 1)
  }

  function FixtureCard(): (card: Card)
  {
    Card("4840932426207833", 1234)
  }

  function FixtureMoney(amount: int): (money: Money)
  {
    Money(amount, PL)
  }

  /** Every collaborator succeeds: a token for any card, the charge and the release accepted. */
  function FixtureCollaborators(): (collaborators: Collaborators)
  {
    Collaborators(Some(FixtureToken()), true, true)
  }

  /** The denominations the fixture's amounts assume: the smallest note is 10 and every
      other note is a multiple of it (for instance 200, 100, 50, 20, 10, or 10 alone). */
  predicate CountsInTens(denominations: seq<Denomination>)
  {
    MultiplesOfLast(denominations) && denominations[|denominations| - 1] == 10
  }

  /** 10 is a valid amount; 0, -1 and 3 (not a whole number of notes) are not. */
  lemma FixtureAmountValidation(denominations: seq<Denomination>)
    requires CountsInTens(denominations)
    ensures ValidAmount(FixtureMoney(10), denominations)
    ensures !ValidAmount(FixtureMoney(0), denominations)
    ensures !ValidAmount(FixtureMoney(-1), denominations)
    ensures !ValidAmount(FixtureMoney(3), denominations)
    ensures forall amount :: amount in {0, -1, 3} ==>
              Withdrawal(FixtureMoney(amount), FixtureCard(), denominations, FixtureCollaborators()).result == Refused(WrongMoneyAmount)
  {
    RepresentableMultiples(10, denominations, PL);
    RepresentableMultiples(3, denominations, PL);
  }

  /** Withdrawing 10 PL on the fixture pays out notes totalling 10, all in PL, after one
      authorization of the card, one transaction and one charge with the fixture's
      token and money, and one release. */
  lemma FixtureWithdrawal(denominations: seq<Denomination>)
    requires CountsInTens(denominations)
    ensures var t := Withdrawal(FixtureMoney(10), FixtureCard(), denominations, FixtureCollaborators());
      && t.result.Paid?
      && SumValues(t.result.payment.value) == 10
      && AllCurrency(t.result.payment.value, PL)
      && AuthorizeCalls(t.calls) == [FixtureCard()]
      && StartTransactionCalls(t.calls) == [FixtureToken()]
      && ChargeCalls(t.calls) == [(FixtureToken(), FixtureMoney(10))]
      && |ReleaseCalls(t.calls)| == 1
  {
    FixtureAmountValidation(denominations);
  }

  /** With one collaborator's reply changed, withdrawing 10 PL ends with that
      collaborator's error. */
  lemma FixtureRefusals(denominations: seq<Denomination>)
    requires CountsInTens(denominations)
    ensures Withdrawal(FixtureMoney(10), FixtureCard(), denominations,
                       FixtureCollaborators().(authorizeReply := None)).result == Refused(CardAuthorization)
    ensures Withdrawal(FixtureMoney(10), FixtureCard(), denominations,
                       FixtureCollaborators().(chargeReply := false)).result == Refused(InsufficientFunds)
    ensures Withdrawal(FixtureMoney(10), FixtureCard(), denominations,
                       FixtureCollaborators().(releaseReply := false)).result == Refused(MoneyDepot)
  {
    FixtureAmountValidation(denominations);
  }

  /** With a single 10 note denomination the whole withdrawal is one note of 10 PL, and
      the collaborators see authorize, startTransaction, charge and release in turn. */
  lemma SingleNoteWithdrawal()
    ensures Withdrawal(FixtureMoney(10), FixtureCard(), [10], FixtureCollaborators()) ==
      Transaction(
        Paid(Payment([Banknote(10, PL)])),
        [Authorize(FixtureCard()), StartTransaction(FixtureToken()),
         Charge(FixtureToken(), FixtureMoney(10)), ReleaseBanknotes([Banknote(10, PL)])])
  {
    assert Repeat(1, Banknote(10, PL)) == [Banknote(10, PL)];
    assert Decompose(0, [], PL) == Some([]);
    assert Decompose(10, [10], PL) == Some([Banknote(10, PL)]);
  }

  /** A fresh machine on the fixture, asked once for 10 PL: what it returns and the calls
      its collaborators have received afterwards. */
  method FixtureMachineWithdrawal(denominations: seq<Denomination>) returns (r: WithdrawResult, calls: seq<Call>)
    requires CountsInTens(denominations)
    ensures r.Paid? && SumValues(r.payment.value) == 10 && AllCurrency(r.payment.value, PL)
    ensures AuthorizeCalls(calls) == [FixtureCard()]
    ensures StartTransactionCalls(calls) == [FixtureToken()]
    ensures ChargeCalls(calls) == [(FixtureToken(), FixtureMoney(10))]
    ensures ReleaseCalls(calls) == [r.payment.value]
  {
    var atm := new AtmMachine(FixtureCollaborators(), denominations);
    r := atm.Withdraw(FixtureMoney(10), FixtureCard());
    calls := atm.calls;
    assert calls == Withdrawal(FixtureMoney(10), FixtureCard(), denominations, FixtureCollaborators()).calls;
    FixtureWithdrawal(denominations);
  }
}
