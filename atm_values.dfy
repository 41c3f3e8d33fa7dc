/** Value types of a withdrawal: the requested money, the card, the token the card
    service hands out, banknotes and the payment made of them. */
module AtmValues {

  datatype Option<T> = None | Some(value: T)

  /** The currency enumeration. Only PL is named by the model; every other constant
      of the enumeration is represented by its name. */
  datatype Currency = PL | OtherCurrency(name: string)

  /** A requested amount. The amount is any integer: zero and negative amounts can be
      built and are refused by the machine. */
  datatype Money = Money(amount: int, currency: Currency)

  datatype Card = Card(cardNumber: string, pinNumber: int)

  datatype AuthenticationToken = AuthenticationToken(userId: string, authorizationCode: int)

  datatype Banknote = Banknote(value: int, currency: Currency)

  /** The banknotes handed out by one successful withdrawal, in release order. */
  datatype Payment = Payment(value: seq<Banknote>)

  /** The total of a list of banknotes: the sum of their values. */
  function SumValues(notes: seq<Banknote>): (total: int)
  {
    if notes == [] then 0 else notes[0].value + SumValues(notes[1..])
  }

  /** Every banknote of the list is in the given currency. */
  predicate AllCurrency(notes: seq<Banknote>, currency: Currency)
  {
    forall i :: 0 <= i < |notes| ==> notes[i].currency == currency
  }

  /** The total of two lists placed one after the other is the sum of their totals. */
  lemma {:induction false} SumValuesConcat(a: seq<Banknote>, b: seq<Banknote>)
    ensures SumValues(a + b) == SumValues(a) + SumValues(b)
  {
    if a == [] {
      assert a + b == b;
    } else {
      assert (a + b)[1..] == a[1..] + b;
      SumValuesConcat(a[1..], b);
    }
  }
}
