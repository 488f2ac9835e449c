/** The transaction entity: its type enumeration, classification and the test factory. */
module Transactions {
  import opened Wrappers
  import opened Clock

  datatype TransactionType =
    | PosPurchase
    | Atm
    | Transfer
    | BillPayment
    | SubscriptionPayment
    | LoanPayment
    | UnknownType
  {
    /** The wire name of the case. */
    function RawValue(): string
    {
      match this
      case PosPurchase => "pos_purchase"
      case Atm => "atm"
      case Transfer => "transfer"
      case BillPayment => "bill_payment"
      case SubscriptionPayment => "subscription_payment"
      case LoanPayment => "loan_payment"
      case UnknownType => "unknown"
    }

    /** `displayName`. */
    function DisplayName(): string
    {
      match this
      case PosPurchase => "Purchase"
      case Atm => "ATM"
      case Transfer => "Transfer"
      case BillPayment => "Bill Payment"
      case SubscriptionPayment => "Subscription"
      case LoanPayment => "Loan Payment"
      case UnknownType => "Unknown"
    }

    /** `emoji`. */
    function Emoji(): string
    {
      match this
      case PosPurchase => "\U{1F6D2}"
      case Atm => "\U{1F3E7}"
      case Transfer => "\U{2194}\U{FE0F}"
      case BillPayment => "\U{1F9FE}"
      case SubscriptionPayment => "\U{1F504}"
      case LoanPayment => "\U{1F3E6}"
      case UnknownType => "\U{2753}"
    }
  }

  /** `TransactionType(rawValue:)`: the case with exactly that wire name, if any. */
  function TransactionTypeFromRaw(s: string): (r: Option<TransactionType>)
    ensures r.Some? ==> r.value.RawValue() == s
  {
    match s
    case "pos_purchase" => Some(PosPurchase)
    case "atm" => Some(Atm)
    case "transfer" => Some(Transfer)
    case "bill_payment" => Some(BillPayment)
    case "subscription_payment" => Some(SubscriptionPayment)
    case "loan_payment" => Some(LoanPayment)
    case "unknown" => Some(UnknownType)
    case _ => None
  }

  /** Every case is recovered from its wire name, so the wire names are distinct. */
  lemma TransactionTypeRoundTrip(t: TransactionType)
    ensures TransactionTypeFromRaw(t.RawValue()) == Some(t)
  {
  }

  /** Each type is told apart by its label alone and by its emoji alone, and every
      emoji is a single non-ASCII symbol, optionally followed by a variation selector. */
  lemma TransactionTypeFacesDistinct(t: TransactionType, u: TransactionType)
    ensures t.DisplayName() == u.DisplayName() ==> t == u
    ensures t.Emoji() == u.Emoji() ==> t == u
    ensures t.Emoji() != [] && t.Emoji()[0] > '\U{7F}'
    ensures |t.Emoji()| == 1 || (|t.Emoji()| == 2 && t.Emoji()[1] == '\U{FE0F}')
  {
  }

  /** `TransactionInput`: what the user typed when creating a transaction. */
  datatype TransactionInput = TransactionInput(
    text: Option<string>,
    amount: Option<string>,
    merchant: Option<string>,
    card: Option<string>,
    from: Option<string>,
    location: Option<string>)

  datatype TransactionMetadata = TransactionMetadata(
    kind: string,
    userAgent: Option<string>,
    ipAddress: Option<string>)

  /** Amounts are real numbers: floating-point rounding is not modelled. */
  datatype Transaction = Transaction(
    id: string,
    accountNumber: string,
    cardNumber: string,
    name: string,
    merchantCategory: string,
    amount: real,
    currency: string,
    success: bool,
    isCredit: bool,
    isDebit: bool,
    isAtm: bool,
    isPurchase: bool,
    isTransfer: bool,
    fullDate: string,
    orgType: string,
    orgName: string,
    transactionType: TransactionType,
    errorMessage: Option<string>,
    input: Option<TransactionInput>,
    metadata: Option<TransactionMetadata>,
    createdAt: Date)
  {
    /** The purchase, transfer and ATM flags win over the stored type, in that order. */
    function ComputedType(): TransactionType
    {
      if isPurchase then PosPurchase
      else if isTransfer then Transfer
      else if isAtm then Atm
      else transactionType
    }

    predicate IsIncome()
    {
      isCredit || amount > 0.0
    }

    predicate IsExpense()
    {
      isDebit || amount < 0.0
    }
  }

  /** The memberwise initializer with its defaults filled in. */
  function NewTransaction(id: string, name: string, amount: real, currency: string, now: Date): Transaction
  {
    Transaction(id, "", "", name, "", amount, currency, true, false, false, false, false, false,
                "", "", "", UnknownType, None, None, None, now)
  }

  /** `makeTransaction`, with the generated UUID and the current date as parameters. */
  function MakeTransaction(id: string, now: Date, name: string := "Test Transaction", amount: real := -50.0,
                           currency: string := "USD", kind: TransactionType := PosPurchase)
    : (t: Transaction)
    ensures t.id == id && t.name == name && t.amount == amount && t.currency == currency
  {
    NewTransaction(id, name, amount, currency, now).(
      isAtm := kind == Atm, isPurchase := kind == PosPurchase, isTransfer := kind == Transfer,
      transactionType := kind)
  }

  /** The factory's flags agree with its type: the computed type is the requested one. */
  lemma MakeTransactionComputedType(id: string, now: Date, name: string, amount: real, currency: string, kind: TransactionType)
    ensures MakeTransaction(id, now, name, amount, currency, kind).ComputedType() == kind
  {
  }

  /** Without the credit and debit flags the sign decides: zero is neither income nor
      expense, any other amount is exactly one of them. */
  lemma IncomeOrExpenseBySign(t: Transaction)
    requires !t.isCredit && !t.isDebit
    ensures t.amount == 0.0 ==> !t.IsIncome() && !t.IsExpense()
    ensures t.amount != 0.0 ==> (t.IsIncome() <==> !t.IsExpense())
  {
  }

  /** `makeTransaction(name: "Coffee", amount: -5.50)` is an expense and not income. */
  lemma CoffeeIsExpense(id: string, now: Date)
    ensures var t := MakeTransaction(id, now, name := "Coffee", amount := -5.5);
      t.name == "Coffee" && t.amount == -5.5 && t.IsExpense() && !t.IsIncome()
  {
  }
}
