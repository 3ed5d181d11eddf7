/**
 * The two payment strategies: a credit card with a balance that a successful payment debits,
 * and a PayPal account checked against a fixed credential registry.
 */
module Payment {

  /** Every new card starts with this balance. */
  const InitialBalance: real := 100000.0

  /** The verification code that marks a card as invalid. */
  const InvalidCvv: string := "000"

  /**
   * The card-validity rule: a non-empty number, an expiry strictly after `now` (milliseconds,
   * standing for the system clock) and a verification code other than "000".
   */
  predicate CardDetailsValid(number: string, date: int, cvv: string, now: int)
  {
    |number| > 0 && date > now && cvv != InvalidCvv
  }

  class CreditCard {
    var amount: real
    const number: string
    const date: int
    const cvv: string
    var valid: bool

    /** A new card holds the initial balance; its validity is decided once, against `now`. */
    constructor (number: string, date: int, cvv: string, now: int)
      ensures this.number == number && this.date == date && this.cvv == cvv
      ensures amount == 100000.0
      ensures valid <==> |number| > 0 && date > now && cvv != "000"
    {
      amount := InitialBalance;
      this.number := number;
      this.date := date;
      this.cvv := cvv;
      valid := CardDetailsValid(number, date, cvv, now);
    }

    method SetAmount(amount: real)
      modifies this
      ensures GetAmount() == amount
      ensures valid == old(valid)
    {
      this.amount := amount;
    }

    function GetAmount(): (r: real)
      reads this
    {
      amount
    }

    function IsValid(): (b: bool)
      reads this
    {
      valid
    }

    /** `setValid`: recompute validity from the card details against the clock reading `now`. */
    method SetValid(now: int)
      modifies this
      ensures IsValid() == CardDetailsValid(number, date, cvv, now)
      ensures amount == old(amount)
    {
      valid := CardDetailsValid(number, date, cvv, now);
    }

    /**
     * `pay(a)`: debit `a` when the card is valid and the balance covers it; otherwise report
     * false and leave the balance alone. Validity never changes, and a non-negative balance
     * stays non-negative.
     */
    method Pay(a: real) returns (ok: bool)
      modifies this
      ensures ok <==> old(valid) && old(amount) >= a
      ensures amount == if ok then old(amount) - a else old(amount)
      ensures valid == old(valid)
      ensures old(amount) >= 0.0 ==> amount >= 0.0
    {
      if IsValid() && amount >= a {
        amount := amount - a;
        ok := true;
      } else {
        ok := false;
      }
    }
  }

  /** The process-wide registry, password to email, seeded once. */
  const DataBase: map<string, string> := map["amanda1985" := "amanda@ya.com", "qwerty" := "john@amazon.eu"]

  /** A PayPal account as a strategy: the credentials it was created with, and nothing mutable. */
  datatype Paypal = Paypal(email: string, password: string)
  {
    /** `pay`: the password must be registered and map to exactly this email; the amount plays no part. */
    predicate Pay(amount: real)
      ensures Pay(amount) <==>
                || (password == "amanda1985" && email == "amanda@ya.com")
                || (password == "qwerty" && email == "john@amazon.eu")
    {
      password in DataBase && DataBase[password] == email
    }
  }

  /** The PaymentStrategy interface as a tagged variant over its two implementations. */
  datatype PaymentStrategy = CardPayment(card: CreditCard) | PaypalPayment(account: Paypal)
  {
    /** The objects a payment may change: the card, or nothing for PayPal. */
    function Footprint(): (r: set<object>)
    {
      if CardPayment? then {card} else {}
    }

    /** Whether `pay(amount)` would succeed in the current state. */
    predicate Accepts(amount: real)
      reads Footprint()
    {
      match this
      case CardPayment(c) => c.valid && c.amount >= amount
      case PaypalPayment(p) => p.Pay(amount)
    }
  }

  /** Dispatch `pay(amount)` to whichever strategy is given. */
  method PayWith(strategy: PaymentStrategy, amount: real) returns (ok: bool)
    modifies strategy.Footprint()
    ensures ok == old(strategy.Accepts(amount))
    ensures strategy.CardPayment? ==> strategy.card.valid == old(strategy.card.valid)
    ensures strategy.CardPayment? ==>
              strategy.card.amount == if ok then old(strategy.card.amount) - amount else old(strategy.card.amount)
  {
    match strategy
    case CardPayment(c) =>
      ok := c.Pay(amount);
    case PaypalPayment(p) =>
      ok := p.Pay(amount);
  }

  /** A PayPal answer depends only on the credentials: any two amounts get the same answer. */
  lemma PaypalIgnoresAmount(p: Paypal, a: real, b: real)
    ensures p.Pay(a) == p.Pay(b)
  {
  }

  /** Paying 500 from a new valid card leaves 99500; a following 150000 is declined and changes nothing. */
  method CardScenario() returns (card: CreditCard, first: bool, second: bool)
    ensures first && !second
    ensures card.GetAmount() == 99500.0 && card.IsValid()
  {
    card := new CreditCard("4111", 2, "123", 1);
    first := card.Pay(500.0);
    second := card.Pay(150000.0);
  }

  /** The registry accepts "qwerty" for john@amazon.eu and rejects a wrong password for the same email. */
  method PaypalScenario() returns (good: bool, bad: bool)
    ensures good && !bad
  {
    good := Paypal("john@amazon.eu", "qwerty").Pay(0.0);
    bad := Paypal("john@amazon.eu", "wrong").Pay(0.0);
  }
}
