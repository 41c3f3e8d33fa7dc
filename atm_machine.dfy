/** One cash withdrawal at an ATM.

    The machine validates the requested amount, asks the card service for a token,
    opens a transaction with the bank and charges the account, asks the depot to release
    the banknotes and hands them out as a payment. Each refusal ends the withdrawal with
    its own error. The three collaborators are external: the model knows them only by
    the replies they give (`Collaborators`) and by the calls they receive (`Call`). */
module Atm {
  import opened AtmValues
  import opened Banknotes

  /** The errors a withdrawal can end with, one per exception the machine throws. */
  datatype AtmError = WrongMoneyAmount | CardAuthorization | InsufficientFunds | MoneyDepot

  datatype WithdrawResult = Paid(payment: Payment) | Refused(error: AtmError)

  /** A call made to one of the collaborators. */
  datatype Call =
    | Authorize(card: Card)                                     // CardProviderService.authorize
    | StartTransaction(token: AuthenticationToken)              // BankService.startTransaction
    | Charge(token: AuthenticationToken, money: Money)          // BankService.charge
    | ReleaseBanknotes(notes: seq<Banknote>)                    // MoneyDepot.releaseBanknotes

  /** What the collaborators answer: the card service's optional token, and whether the
      bank accepts the charge and the depot releases the notes. */
  datatype Collaborators = Collaborators(
    authorizeReply: Option<AuthenticationToken>,
    chargeReply: bool,
    releaseReply: bool)

  /** A finished withdrawal: its result and the calls it made, in order. */
  datatype Transaction = Transaction(result: WithdrawResult, calls: seq<Call>)

  // The calls one collaborator method received, with their arguments, in order.

  function AuthorizeCalls(calls: seq<Call>): (cards: seq<Card>)
  {
    if calls == [] then []
    else (if calls[0].Authorize? then [calls[0].card] else []) + AuthorizeCalls(calls[1..])
  }

  function StartTransactionCalls(calls: seq<Call>): (tokens: seq<AuthenticationToken>)
  {
    if calls == [] then []
    else (if calls[0].StartTransaction? then [calls[0].token] else []) + StartTransactionCalls(calls[1..])
  }

  function ChargeCalls(calls: seq<Call>): (charges: seq<(AuthenticationToken, Money)>)
  {
    if calls == [] then []
    else (if calls[0].Charge? then [(calls[0].token, calls[0].money)] else []) + ChargeCalls(calls[1..])
  }

  function ReleaseCalls(calls: seq<Call>): (releases: seq<seq<Banknote>>)
  {
    if calls == [] then []
    else (if calls[0].ReleaseBanknotes? then [calls[0].notes] else []) + ReleaseCalls(calls[1..])
  }

  /** The amount can be paid out: it is positive and splits into the machine's notes. */
  predicate ValidAmount(money: Money, denominations: seq<Denomination>)
  {
    money.amount > 0 && Representable(money.amount, denominations)
  }

  /** When the smallest note divides every other note, a valid amount is exactly a positive
      multiple of the smallest note. */
  lemma ValidAmountMultiples(money: Money, denominations: seq<Denomination>)
    requires MultiplesOfLast(denominations)
    ensures ValidAmount(money, denominations) <==>
              money.amount > 0 && money.amount % denominations[|denominations| - 1] == 0
  {
    if money.amount > 0 {
      RepresentableMultiples(money.amount, denominations, PL);
    }
  }

  /** The calls a withdrawal makes when the amount is valid, the card service returns
      `token` and the bank's answer is `charged`. */
  function CallsAfterAuthorization(card: Card, token: AuthenticationToken, money: Money, charged: bool, notes: seq<Banknote>): (calls: seq<Call>)
  {
    [Authorize(card), StartTransaction(token), Charge(token, money)] +
    (if charged then [ReleaseBanknotes(notes)] else [])
  }

  /** What each collaborator method receives in those calls. */
  lemma CallsAfterAuthorizationReceived(card: Card, token: AuthenticationToken, money: Money, charged: bool, notes: seq<Banknote>)
    ensures var calls := CallsAfterAuthorization(card, token, money, charged, notes);
      && AuthorizeCalls(calls) == [card]
      && StartTransactionCalls(calls) == [token]
      && ChargeCalls(calls) == [(token, money)]
      && ReleaseCalls(calls) == if charged then [notes] else []
  {
    var release: seq<Call> := if charged then [ReleaseBanknotes(notes)] else [];
    var calls := CallsAfterAuthorization(card, token, money, charged, notes);
    if charged {
      assert release[1..] == [];
    }
    assert AuthorizeCalls(release) == [] && StartTransactionCalls(release) == [] && ChargeCalls(release) == [];
    assert calls[3..] == release;
    assert calls[2..] == [Charge(token, money)] + release;
    assert AuthorizeCalls(calls[2..]) == [] && StartTransactionCalls(calls[2..]) == [];
    assert ChargeCalls(calls[2..]) == [(token, money)] && ReleaseCalls(calls[2..]) == ReleaseCalls(release);
    assert calls[1..] == [StartTransaction(token), Charge(token, money)] + release;
    assert AuthorizeCalls(calls[1..]) == [] && StartTransactionCalls(calls[1..]) == [token];
  }

  /** One withdrawal of `money` with `card`, on a machine with the given denominations
      whose collaborators answer as `collaborators` says. */
  function Withdrawal(money: Money, card: Card, denominations: seq<Denomination>, collaborators: Collaborators): (t: Transaction)
    // refusal of the amount
    ensures !ValidAmount(money, denominations) ==> t.result == Refused(WrongMoneyAmount)
    ensures t.result == Refused(WrongMoneyAmount) ==> !ValidAmount(money, denominations)
    // the card is authorized exactly once, and a missing token is a refusal
    ensures ValidAmount(money, denominations) ==> AuthorizeCalls(t.calls) == [card]
    ensures ValidAmount(money, denominations) && collaborators.authorizeReply.None? ==>
              t.result == Refused(CardAuthorization) && ChargeCalls(t.calls) == [] && ReleaseCalls(t.calls) == []
    // with a token, one transaction is started and one charge made, both with that token
    ensures ValidAmount(money, denominations) && collaborators.authorizeReply.Some? ==>
              StartTransactionCalls(t.calls) == [collaborators.authorizeReply.value] &&
              ChargeCalls(t.calls) == [(collaborators.authorizeReply.value, money)]
    ensures ValidAmount(money, denominations) && collaborators.authorizeReply.Some? && !collaborators.chargeReply ==>
              t.result == Refused(InsufficientFunds) && ReleaseCalls(t.calls) == []
    // after a successful charge, the notes are released exactly once: the requested amount,
    // in the requested currency
    ensures ValidAmount(money, denominations) && collaborators.authorizeReply.Some? && collaborators.chargeReply ==>
              |ReleaseCalls(t.calls)| == 1 &&
              SumValues(ReleaseCalls(t.calls)[0]) == money.amount &&
              AllCurrency(ReleaseCalls(t.calls)[0], money.currency)
    ensures ValidAmount(money, denominations) && collaborators.authorizeReply.Some? && collaborators.chargeReply &&
            !collaborators.releaseReply ==>
              t.result == Refused(MoneyDepot)
    // a payment is made exactly when every step succeeds
    ensures t.result.Paid? <==>
              ValidAmount(money, denominations) && collaborators.authorizeReply.Some? &&
              collaborators.chargeReply && collaborators.releaseReply
    // the payment is what the depot released: the requested amount, in the requested currency
    ensures t.result.Paid? ==>
              ReleaseCalls(t.calls) == [t.result.payment.value] &&
              SumValues(t.result.payment.value) == money.amount &&
              AllCurrency(t.result.payment.value, money.currency)
  {
    if money.amount <= 0 then
      Transaction(Refused(WrongMoneyAmount), [])
    else
      match Decompose(money.amount, denominations, money.currency)
      case None =>
        DecomposeCurrencyIndependent(money.amount, denominations, money.currency, PL);
        Transaction(Refused(WrongMoneyAmount), [])
      case Some(notes) =>
        DecomposeCurrencyIndependent(money.amount, denominations, money.currency, PL);
        match collaborators.authorizeReply
        case None =>
          Transaction(Refused(CardAuthorization), [Authorize(card)])
        case Some(token) =>
          var calls := CallsAfterAuthorization(card, token, money, collaborators.chargeReply, notes);
          CallsAfterAuthorizationReceived(card, token, money, collaborators.chargeReply, notes);
          if !collaborators.chargeReply then
            Transaction(Refused(InsufficientFunds), calls)
          else if !collaborators.releaseReply then
            Transaction(Refused(MoneyDepot), calls)
          else
            Transaction(Paid(Payment(notes)), calls)
  }

  /** The ATM: its collaborators, the denominations its depot holds, and the calls its
      collaborators have received so far. */
  class AtmMachine {
    const collaborators: Collaborators
    const denominations: seq<Denomination>
    var calls: seq<Call>

    /** The machine's denominations are all multiples of the last (smallest) one,
        so that the greedy split accepts every amount that notes can make up. */
    ghost predicate Valid()
    {
      MultiplesOfLast(denominations)
    }

    constructor (collaborators: Collaborators, denominations: seq<Denomination>)
      requires MultiplesOfLast(denominations)
      ensures Valid()
      ensures this.collaborators == collaborators && this.denominations == denominations
      ensures calls == []
    {
      this.collaborators := collaborators;
      this.denominations := denominations;
      calls := [];
    }

    /** Withdraws `money` with `card`: the result and the calls made are those of one
        `Withdrawal`, appended to the calls made before. */
    method Withdraw(money: Money, card: Card) returns (r: WithdrawResult)
      requires Valid()
      modifies this`calls
      ensures r == Withdrawal(money, card, denominations, collaborators).result
      ensures r == Refused(WrongMoneyAmount) <==>
                money.amount <= 0 || money.amount % denominations[|denominations| - 1] != 0
      ensures calls == old(calls) + Withdrawal(money, card, denominations, collaborators).calls
    {
      if money.amount <= 0 {
        return Refused(WrongMoneyAmount);
      }
      ValidAmountMultiples(money, denominations);
      var notes := Decompose(money.amount, denominations, money.currency);
      if notes.None? {
        return Refused(WrongMoneyAmount);
      }
      calls := calls + [Authorize(card)];
      var token := collaborators.authorizeReply;
      if token.None? {
        return Refused(CardAuthorization);
      }
      calls := calls + [StartTransaction(token.value)];
      calls := calls + [Charge(token.value, money)];
      if !collaborators.chargeReply {
        return Refused(InsufficientFunds);
      }
      calls := calls + [ReleaseBanknotes(notes.value)];
      if !collaborators.releaseReply {
        return Refused(MoneyDepot);
      }
      r := Paid(Payment(notes.value));
    }
  }
}
