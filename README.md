# ATM withdrawal

A model of one cash withdrawal at an ATM (`AtmMachine.withdraw(money, card)`): the machine
validates the requested amount, asks the card provider service to authorize the card (which
yields an optional authentication token), starts a bank transaction and charges the account
with that token, asks the money depot to release the banknotes, and returns the payment, a
list of banknotes. Each refusal ends the withdrawal with its own error: a wrong money amount,
a card authorization failure, insufficient funds, or a money depot failure.

The machine's own source is not part of this model; its behaviour is fixed by its JUnit test
suite, and where the tests leave a choice open the model makes its own, as listed below. The collaborators (card
provider service, bank service, money depot) are external: they appear only through the
replies they give (`Atm.Collaborators`, the stubbed answers of the test doubles) and the
calls they receive (`Atm.Call`, recorded in order, as the test doubles record invocations).

Files:

- `atm_values.dfy` (module `AtmValues`): money, card, token, banknote and payment values;
  `SumValues` (the `totals` matcher) and `AllCurrency` (the `currency` matcher applied to
  every note).
- `banknotes.dfy` (module `Banknotes`): splitting an amount into banknotes of the machine's
  denominations. The denominations are a parameter of the machine. The split is greedy:
  it tries the denominations in the order given and takes as many notes of each as fit.
- `atm_machine.dfy` (module `Atm`): errors, collaborator calls and replies, the
  specification function `Withdrawal` (result and calls of one withdrawal), and the class
  `AtmMachine`, whose `Withdraw` method appends the calls it makes to the machine's call log.
- `atm_fixture.dfy` (module `AtmFixture`): the test fixture (a card, the token with empty
  user id and code 1, 10 PL, collaborators that all succeed) and the test scenarios stated
  on it.

Assumption on denominations: the tests only show that 10 is accepted and 3 is not. The
scenarios are proved for every denomination list whose smallest note is 10 and whose other
notes are multiples of 10 (`AtmFixture.CountsInTens`), for example 200, 100, 50, 20, 10.

Two choices are the model's own. First, `Money.amount` is any integer, because the tests
build an amount of -1 and expect it to be refused. Second, the model makes its checks in a
fixed order: the amount first, then authorize, startTransaction, charge and release, each
failure stopping the withdrawal. The tests do not check this order, but two of the model's
properties state it.
`AtmFixture.SingleNoteWithdrawal` states the whole call sequence: authorize,
startTransaction, charge, release. `Atm.Withdrawal` states that an invalid amount yields
the wrong-money-amount error whatever the collaborators reply. These two rules come from
the model's chosen order, not from the tests (see "## Left out").

## Model

| member | source | states |
|---|---|---|
| `AtmValues.SumValuesConcat` | testsReactor/src/test/java/edu/iis/mto/testreactor/exc3/AtmMachineTest.java:183-191 | the total of two note lists placed one after the other is the sum of their totals |
| `AtmValues.SumValues` | testsReactor/src/test/java/edu/iis/mto/testreactor/exc3/AtmMachineTest.java:183-191 | the total of a payment: the sum of its banknotes' values, as the `totals` matcher computes it |
| `AtmValues.AllCurrency` | testsReactor/src/test/java/edu/iis/mto/testreactor/exc3/AtmMachineTest.java:193-200 | every banknote of a list has the given currency, as `everyItem(currency(..))` checks at line 66 |
| `Atm.ValidAmount` | testsReactor/src/test/java/edu/iis/mto/testreactor/exc3/AtmMachineTest.java:69-97 | an amount is accepted when it is positive and the machine's notes can pay it out with nothing left over |
| `Banknotes.Decompose` | testsReactor/src/test/java/edu/iis/mto/testreactor/exc3/AtmMachineTest.java:183-200 | a successful split of an amount is a note list totalling exactly that amount, every note in the requested currency and of one of the machine's denominations |
| `Banknotes.RepresentableMultiples` | testsReactor/src/test/java/edu/iis/mto/testreactor/exc3/AtmMachineTest.java:89-97 | when every denomination is a multiple of the smallest one u, an amount splits into notes exactly when it is a multiple of u (both directions) |
| `Atm.CallsAfterAuthorizationReceived` | testsReactor/src/test/java/edu/iis/mto/testreactor/exc3/AtmMachineTest.java:99-181 | once a token is returned, authorize has received exactly the card, startTransaction exactly the token, charge exactly the token with the money, and release one note list if the charge was accepted and none otherwise |
| `Atm.Withdrawal` | testsReactor/src/test/java/edu/iis/mto/testreactor/exc3/AtmMachineTest.java:45-181 | an amount that is not positive, or that the greedy split cannot pay out, is refused with the wrong-money-amount error, and that error means exactly that; for a valid amount the card is authorized exactly once with the given card; no token means the card-authorization error, with no charge and no release; with a token, exactly one startTransaction with that token and exactly one charge with that token and the original money; a refused charge means insufficient funds and no release; after a charge exactly one release, of notes totalling the requested amount in the requested currency, whether or not the depot then succeeds; a refused release means the money-depot error; a payment is returned exactly when every step succeeds, it is the note list that was released, its values sum to the requested amount and every note has the requested currency |
| `Atm.ValidAmountMultiples` | testsReactor/src/test/java/edu/iis/mto/testreactor/exc3/AtmMachineTest.java:69-97 | when every denomination is a multiple of the smallest one, an amount is valid exactly when it is positive and a multiple of the smallest note (both directions) |
| `Atm.AtmMachine.constructor` | testsReactor/src/test/java/edu/iis/mto/testreactor/exc3/AtmMachineTest.java:47 | a new machine holds the given collaborators and denominations, its denominations are all multiples of the smallest one, and no collaborator has been called yet |
| `Atm.AtmMachine.Withdraw` | testsReactor/src/test/java/edu/iis/mto/testreactor/exc3/AtmMachineTest.java:45-181 | the result is that of `Withdrawal` on the machine's collaborators and denominations, the call log grows by exactly that withdrawal's calls, and the wrong-money-amount error comes back exactly when the amount is not positive or not a multiple of the smallest note |
| `AtmFixture.FixtureAmountValidation` | testsReactor/src/test/java/edu/iis/mto/testreactor/exc3/AtmMachineTest.java:69-97 | on notes counted in tens, 10 is a valid amount while 0, -1 and 3 are not, and withdrawing 0, -1 or 3 on the fixture fails with the wrong-money-amount error |
| `AtmFixture.FixtureWithdrawal` | testsReactor/src/test/java/edu/iis/mto/testreactor/exc3/AtmMachineTest.java:45-181 | withdrawing 10 PL on the fixture pays out notes totalling 10, all in PL, after authorize once with the card, startTransaction once and charge once with the fixture token (and the money), and release once |
| `AtmFixture.FixtureRefusals` | testsReactor/src/test/java/edu/iis/mto/testreactor/exc3/AtmMachineTest.java:111-169 | on the fixture, no token gives the card-authorization error, a refused charge gives insufficient funds, a refused release gives the money-depot error |
| `AtmFixture.SingleNoteWithdrawal` | testsReactor/src/test/java/edu/iis/mto/testreactor/exc3/AtmMachineTest.java:24-55 | with 10 as the only note, withdrawing 10 PL pays one 10 PL note, and the calls are authorize, startTransaction, charge and release of that one note |
| `AtmFixture.FixtureMachineWithdrawal` | testsReactor/src/test/java/edu/iis/mto/testreactor/exc3/AtmMachineTest.java:99-181 | a fresh machine on the fixture, asked once for 10 PL, pays notes totalling 10 in PL, and its call log shows authorize once with the card, startTransaction and charge once with the fixture token and money, and one release of exactly the paid notes |

## Left out

- The machine's own code and the internals of the card provider service, bank service and money depot are not part of this model. Each collaborator is represented only by its reply.
- The test doubles' matchers (`any`, `anyListOf`) and the stubbing are replaced by fixed replies that do not depend on the arguments. Line 116 stubs authorize for one particular card, and the model's reply is the same for every card. This makes no difference, because each test uses a single card.
- The builders of money, card and token are replaced by plain values. The trivial `itCompiles` test is left out.
- The Currency enumeration's constants other than PL are not visible. They are represented as `OtherCurrency(name)`.
- The denomination set and the split strategy are not visible. The model uses a greedy split over a denomination parameter. Only the sum, the currency and the accepted or refused amounts of the tests are stated as properties.
- `Banknotes.Decompose` and `Atm.Withdrawal` refuse some amounts that notes can make up, when the denominations are not all multiples of the last one. For example, with 50 and 20, the greedy split refuses 60, although three 20 notes make 60. The `AtmMachine` constructor therefore requires denominations that are all multiples of the smallest one. On such lists, `Atm.ValidAmountMultiples` shows the greedy split is exact.
- The order of the checks is the model's own choice: amount first, then authorization, charge and release, each stopping the withdrawal. The tests do not pin it. Two of the model's properties rest on this chosen order:
  - `Atm.Withdrawal` states that an invalid amount yields the wrong-money-amount error for every collaborator reply, so the amount error wins over the other errors, with no collaborator called.
  - `AtmFixture.SingleNoteWithdrawal` states the whole call sequence in order.
  The tests check only the call counts and the arguments, with no order between the calls.
- There is no refund or compensation when the release fails after a successful charge. The tests say nothing about it.
- Amounts and note values are unbounded integers, while Java's values are 32-bit `int`s. Wrap-around is not modelled. A sum of positive notes that equals a Java `int` amount cannot have overflowed.
- The test doubles are modelled as a call log. The test doubles' own state, and concurrent withdrawals, are out of scope.
