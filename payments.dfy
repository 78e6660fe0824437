/**
 * Payments (payments/models.py) and the pure parts of PaymentService
 * (payments/services.py): the payment record, the answers the payment
 * provider can give, the results the service returns, and the
 * conversion between two-decimal amounts and the provider's kobo.
 */
module Payments {
  import opened Wrappers
  import opened Catalog
  import opened Orders

  type PaymentId = nat

  /**
   * STATUS_CHOICES of Payment (pending, success, failed) plus `refunded`,
   * which the refund path writes although the choices omit it.
   */
  datatype PaymentStatus = Pending | Success | Failed | Refunded

  /** One payment attempt: its order (one-to-one), payment method (channel), provider reference (unique), amount and status. */
  datatype Payment = Payment(order: OrderId, channel: string, txRef: string, amount: Cents, status: PaymentStatus)

  /** The reference a new payment carries until the provider returns its own. */
  const PlaceholderRef: string := "TEMP"

  // ---------------------------------------------------------------
  // What the provider can answer. Network errors (requests.RequestException)
  // are the Unreachable cases; a non-200 reply or `status: false` is the
  // Rejected/Invalid case.
  // ---------------------------------------------------------------

  datatype InitAnswer = InitAccepted(reference: string, authorizationUrl: string) | InitRejected | InitUnreachable

  datatype VerifyAnswer =
    | VerifyUnreachable
    | VerifyHttpError     // a reply whose status code is not 200
    | VerifyInvalid       // a 200 reply whose `status` is false
    | VerifyReport(paid: bool, amountKobo: int, customerEmail: string)

  datatype RefundAnswer = RefundAccepted(reference: string) | RefundRejected | RefundUnreachable

  /** The body of the initialize request the service sends. */
  datatype ChargeRequest = ChargeRequest(email: string, amountKobo: int, orderId: OrderId, paymentId: PaymentId)

  /** The body of the refund request the service sends. */
  datatype RefundRequest = RefundRequest(transaction: string, amountKobo: int)

  // ---------------------------------------------------------------
  // What the service returns
  // ---------------------------------------------------------------

  datatype PaymentError =
    | OrderNotFound
    | OrderNotPending
    | AmountMismatch
    | ProviderRefused
    | NetworkError
    | IntegrityError      // a unique constraint (order, tx_ref) refused the row
    | InvalidResponse
    | PaymentNotFound
    | NotRefundable
    | RefundExceedsPayment

  datatype InitResult = Initiated(paymentId: PaymentId, authorizationUrl: string, reference: string) | InitFailed(error: PaymentError)

  datatype VerifyResult =
    | Verified(orderId: OrderId, amount: Decimal, customer: string)
    | NotPaid(orderId: OrderId)
    | VerifyFailed(error: PaymentError)
    | NoReport          // verify_payment falls off its end and returns None

  datatype RefundResult = RefundDone(reference: string, amountRefunded: Cents) | RefundFailed(error: PaymentError)

  /** get_payment_status's report (created_at left out). */
  datatype PaymentReport = PaymentReport(
    paymentId: PaymentId, orderId: OrderId, orderStatus: OrderStatus,
    amount: Cents, status: PaymentStatus, channel: string, txRef: string)

  // ---------------------------------------------------------------
  // Kobo conversion (payments/services.py:66, 174, 239)
  // ---------------------------------------------------------------

  /** An exact decimal: digits / 10^places. */
  datatype Decimal = Decimal(digits: int, places: nat)

  function Pow10(n: nat): (r: nat)
    ensures r >= 1
  {
    if n == 0 then 1 else 10 * Pow10(n - 1)
  }

  /** Two decimals denote the same number. */
  predicate SameValue(a: Decimal, b: Decimal)
  {
    a.digits * Pow10(b.places) == b.digits * Pow10(a.places)
  }

  lemma DivBounds(n: nat, b: nat)
    requires b > 0
    ensures 0 <= (n / b) * b <= n < (n / b) * b + b
  {
    assert n == (n / b) * b + n % b;
  }

  /** Integer division rounding toward zero, as Python's int() of a quotient. */
  function DivTrunc(a: int, b: nat): (q: int)
    requires b > 0
    ensures a >= 0 ==> 0 <= q * b <= a < q * b + b
    ensures a < 0 ==> q * b - b < a <= q * b <= 0
  {
    if a >= 0 then
      DivBounds(a, b);
      a / b
    else
      DivBounds(-a, b);
      var q := (-a) / b;
      assert (-q) * b == -(q * b);
      -q
  }

  /** int(amount * 100): the amount in kobo, truncated toward zero. */
  function ToKobo(amount: Decimal): int
  {
    DivTrunc(amount.digits * 100, Pow10(amount.places))
  }

  /** amount / 100: kobo back to the main unit. */
  function FromKobo(kobo: int): Decimal
  {
    Decimal(kobo, 2)
  }

  /** An amount stored in cents, as a two-decimal value. */
  function CentsValue(c: Cents): Decimal
  {
    Decimal(c, 2)
  }

  lemma {:induction false} Pow10Add(m: nat, n: nat)
    ensures Pow10(m + n) == Pow10(m) * Pow10(n)
  {
    if m > 0 {
      Pow10Add(m - 1, n);
    }
  }

  /** A two-decimal amount converts to kobo without loss: kobo * 10^places == digits * 100. */
  lemma ToKoboExact(amount: Decimal)
    requires amount.places <= 2
    ensures ToKobo(amount) * Pow10(amount.places) == amount.digits * 100
    ensures ToKobo(amount) == amount.digits * Pow10(2 - amount.places)
  {
    Pow10Add(amount.places, 2 - amount.places);
    var p := Pow10(amount.places);
    var k := amount.digits * Pow10(2 - amount.places);
    assert amount.digits * 100 == k * p;
    if amount.digits >= 0 {
      assert (k * p) / p == k;
    } else {
      assert (-(k * p)) / p == -k by {
        assert -(k * p) == (-k) * p;
      }
    }
  }

  /** For amounts with at most two decimals the round trip through kobo is lossless. */
  lemma KoboRoundTrip(amount: Decimal)
    requires amount.places <= 2
    ensures SameValue(FromKobo(ToKobo(amount)), amount)
  {
    ToKoboExact(amount);
  }

  /** Kobo come back as the same number of kobo. */
  lemma {:induction false} KoboFromKobo(kobo: int)
    ensures ToKobo(FromKobo(kobo)) == kobo
  {
    assert Pow10(2) == 100 by {
      assert Pow10(1) == 10;
    }
  }

  /** A stored amount in cents is sent to the provider as that many kobo. */
  lemma CentsAreKobo(c: Cents)
    ensures ToKobo(CentsValue(c)) == c
  {
    KoboFromKobo(c);
  }

  /**
   * Beyond two decimals int() truncates toward zero: the kobo sent never
   * exceed the amount in magnitude and fall short of it by less than one
   * kobo, so 10.005 goes out as 1000 kobo.
   */
  lemma ToKoboTruncates(amount: Decimal)
    ensures var k := ToKobo(amount); var p := Pow10(amount.places); var a := amount.digits * 100;
      && (a >= 0 ==> 0 <= k * p <= a < k * p + p)
      && (a < 0 ==> k * p - p < a <= k * p <= 0)
  {
  }

  lemma SubKoboDigitsAreLost()
    ensures ToKobo(Decimal(10005, 3)) == 1000
    ensures !SameValue(FromKobo(ToKobo(Decimal(10005, 3))), Decimal(10005, 3))
  {
    assert Pow10(3) == 1000 by {
      assert Pow10(1) == 10;
      assert Pow10(2) == 100;
    }
  }

  // ---------------------------------------------------------------
  // Refund amount (payments/services.py:231-234)
  // ---------------------------------------------------------------

  /** `amount or payment.amount`: a missing or zero amount means the whole payment. */
  function RefundAmount(requested: Option<Cents>, paid: Cents): (r: Cents)
    ensures requested.None? || requested.value == 0 ==> r == paid
    ensures requested.Some? && requested.value != 0 ==> r == requested.value
  {
    match requested
    case None => paid
    case Some(a) => if a == 0 then paid else a
  }
}
