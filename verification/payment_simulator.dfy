/**
  The simulated external payment system: credential validation per payment
  method, then a random outcome. The random draw (`nextDouble`, in [0, 1))
  is a parameter; the processing delay is not modelled.
 */
module PaymentSimulatorService {
  import opened Wrappers
  import opened PaymentModel

  /** A charge with valid data succeeds when the draw falls below this. */
  const PAYMENT_SUCCESS_RATE: real := 0.9
  /** A refund succeeds when the draw falls below this. */
  const REFUND_SUCCESS_RATE: real := 0.95

  /** The credential fields of a request. */
  datatype Field = CardNumber | CardHolderName | ExpiryDate | Cvv | AccountNumber | BankCode | WalletId

  function FieldOf(req: PaymentRequest, f: Field): Option<string> {
    match f
    case CardNumber => req.cardNumber
    case CardHolderName => req.cardHolderName
    case ExpiryDate => req.expiryDate
    case Cvv => req.cvv
    case AccountNumber => req.accountNumber
    case BankCode => req.bankCode
    case WalletId => req.walletId
  }

  /** Reference table: the fields each method needs present (non-null, non-empty). */
  function RequiredFields(m: PaymentMethod): set<Field> {
    match m
    case CREDIT_CARD => {CardNumber, CardHolderName, ExpiryDate, Cvv}
    case DEBIT_CARD => {CardNumber, CardHolderName, ExpiryDate, Cvv}
    case BANK_TRANSFER => {AccountNumber, BankCode}
    case ELECTRONIC_WALLET => {WalletId}
    case CASH_ON_DELIVERY => {}
  }

  /** Every field the request's method needs is present. */
  predicate HasRequiredFields(req: PaymentRequest) {
    forall f :: f in RequiredFields(req.paymentMethod) ==> Present(FieldOf(req, f))
  }

  /** `validateCardData`: all four card fields present. */
  function ValidateCardData(req: PaymentRequest): (r: bool)
    ensures r <==> forall f :: f in RequiredFields(CREDIT_CARD) ==> Present(FieldOf(req, f))
  {
    assert RequiredFields(CREDIT_CARD) == {CardNumber, CardHolderName, ExpiryDate, Cvv};
    Present(req.cardNumber) && Present(req.cardHolderName) && Present(req.expiryDate) && Present(req.cvv)
  }

  /** `validateBankTransferData`: account number and bank code present. */
  function ValidateBankTransferData(req: PaymentRequest): (r: bool)
    ensures r <==> forall f :: f in RequiredFields(BANK_TRANSFER) ==> Present(FieldOf(req, f))
  {
    assert RequiredFields(BANK_TRANSFER) == {AccountNumber, BankCode};
    Present(req.accountNumber) && Present(req.bankCode)
  }

  /** `validateWalletData`: wallet id present. */
  function ValidateWalletData(req: PaymentRequest): (r: bool)
    ensures r <==> forall f :: f in RequiredFields(ELECTRONIC_WALLET) ==> Present(FieldOf(req, f))
  {
    assert RequiredFields(ELECTRONIC_WALLET) == {WalletId};
    Present(req.walletId)
  }

  /**
    `validatePaymentData`: dispatch on the method; cash on delivery is always
    valid. Valid exactly when every field the method needs is present.
   */
  function ValidatePaymentData(req: PaymentRequest): (r: bool)
    ensures r <==> HasRequiredFields(req)
    ensures req.paymentMethod == CASH_ON_DELIVERY ==> r
  {
    match req.paymentMethod
    case CREDIT_CARD => ValidateCardData(req)
    case DEBIT_CARD => ValidateCardData(req)
    case BANK_TRANSFER => ValidateBankTransferData(req)
    case ELECTRONIC_WALLET => ValidateWalletData(req)
    case CASH_ON_DELIVERY => true
  }

  /**
    `simulatePaymentProcessing`: invalid data fails without consulting the
    draw; valid data succeeds when the draw is below the success rate.
   */
  function SimulatePaymentProcessing(req: PaymentRequest, draw: real): (r: bool)
    ensures r ==> HasRequiredFields(req)
    ensures !HasRequiredFields(req) ==> !r
    ensures HasRequiredFields(req) ==> (r <==> draw < PAYMENT_SUCCESS_RATE)
  {
    if !ValidatePaymentData(req) then false
    else draw < PAYMENT_SUCCESS_RATE
  }

  /** `simulateRefundProcessing`: succeeds when the draw is below the refund rate. */
  function SimulateRefundProcessing(payment: Payment, draw: real): (r: bool)
    ensures r <==> draw < REFUND_SUCCESS_RATE
  {
    draw < REFUND_SUCCESS_RATE
  }

  /** Whatever the credentials, a draw at or above the success rate fails the charge. */
  lemma HighDrawAlwaysFails(req: PaymentRequest, draw: real)
    requires draw >= PAYMENT_SUCCESS_RATE
    ensures !SimulatePaymentProcessing(req, draw)
  {
  }
}
