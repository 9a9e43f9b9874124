/** The vendor library's side of the adapter, reduced to exactly what the
    adapter reads and sends. The library itself (its HTTP calls, its
    credentials, its lookups) is not part of this model: each call the
    adapter makes becomes a total function in `Sdk`, so its result is an
    input to the adapter's logic. */
module SamuraiSdk {
  import opened RubyValues

  /** One entry of a result's `errors`: a field and its messages, in order. */
  datatype ErrorGroup = ErrorGroup(field: string, messages: seq<string>)

  /** The nested `processor_response` object; only its AVS code is read. */
  datatype ProcessorResponse = ProcessorResponse(avsResultCode: Option<string>)

  /** The nested `payment_method` object; only its token is read. */
  datatype PaymentMethod = PaymentMethod(paymentMethodToken: string)

  /** What the processor returns for authorize, purchase, capture and credit. */
  datatype ProcessorResult = ProcessorResult(
    success: bool,
    referenceId: string,
    transactionToken: string,
    paymentMethod: PaymentMethod,
    processorResponse: Option<ProcessorResponse>,
    errors: seq<ErrorGroup>)

  /** The card fields sent to `Samurai::PaymentMethod.create`. The address
      fields are whatever the caller's billing-address hash held, nil
      included. */
  datatype PaymentMethodRequest = PaymentMethodRequest(
    cardNumber: string,
    expiryMonth: string,
    expiryYear: string,
    cvv: string,
    firstName: string,
    lastName: string,
    address1: Value,
    address2: Value,
    city: Value,
    zip: Value,
    sandbox: bool)

  /** What payment-method creation returns. Besides the validity flag and the
      token, the adapter's message builder reads `success?` and `errors`. */
  datatype PaymentMethodResult = PaymentMethodResult(
    success: bool,
    isSensitiveDataValid: bool,
    paymentMethodToken: string,
    errors: seq<ErrorGroup>)

  /** The calls the adapter makes into code it does not own, as functions of
      their arguments: the framework's `amount` formatting, payment-method
      creation, the processor's authorize and purchase (token, formatted
      amount, processor options), and a transaction lookup followed by
      `capture` or `credit` (transaction id, formatted amount). */
  datatype Sdk = Sdk(
    amount: int -> string,
    createPaymentMethod: PaymentMethodRequest -> PaymentMethodResult,
    authorize: (Value, string, map<string, Value>) -> ProcessorResult,
    purchase: (Value, string, map<string, Value>) -> ProcessorResult,
    findAndCapture: (string, string) -> ProcessorResult,
    findAndCredit: (string, string) -> ProcessorResult)

  /** One call into the vendor library, with the arguments it was given. */
  datatype VendorCall =
    | CreateCall(request: PaymentMethodRequest)
    | AuthorizeCall(token: Value, amount: string, options: map<string, Value>)
    | PurchaseCall(token: Value, amount: string, options: map<string, Value>)
    | CaptureCall(transactionId: string, amount: string)
    | CreditCall(transactionId: string, amount: string)

  /** The vendor library as the adapter reaches it. Every entry point answers
      as `sdk` says and appends itself, with its arguments, to `calls`, so
      that a contract can say which calls an operation makes and in what
      order. */
  class Vendor {
    const sdk: Sdk
    ghost var calls: seq<VendorCall>

    constructor (sdk: Sdk)
      ensures this.sdk == sdk && calls == []
    {
      this.sdk := sdk;
      calls := [];
    }

    /** `Samurai::PaymentMethod.create`. */
    method Create(request: PaymentMethodRequest) returns (result: PaymentMethodResult)
      modifies this
      ensures result == sdk.createPaymentMethod(request)
      ensures calls == old(calls) + [CreateCall(request)]
    {
      result := sdk.createPaymentMethod(request);
      calls := calls + [CreateCall(request)];
    }

    /** `Samurai::Processor.authorize`. */
    method Authorize(token: Value, amount: string, options: map<string, Value>) returns (result: ProcessorResult)
      modifies this
      ensures result == sdk.authorize(token, amount, options)
      ensures calls == old(calls) + [AuthorizeCall(token, amount, options)]
    {
      result := sdk.authorize(token, amount, options);
      calls := calls + [AuthorizeCall(token, amount, options)];
    }

    /** `Samurai::Processor.purchase`. */
    method Purchase(token: Value, amount: string, options: map<string, Value>) returns (result: ProcessorResult)
      modifies this
      ensures result == sdk.purchase(token, amount, options)
      ensures calls == old(calls) + [PurchaseCall(token, amount, options)]
    {
      result := sdk.purchase(token, amount, options);
      calls := calls + [PurchaseCall(token, amount, options)];
    }

    /** `Samurai::Transaction.find(id).capture(amount)`. */
    method FindAndCapture(transactionId: string, amount: string) returns (result: ProcessorResult)
      modifies this
      ensures result == sdk.findAndCapture(transactionId, amount)
      ensures calls == old(calls) + [CaptureCall(transactionId, amount)]
    {
      result := sdk.findAndCapture(transactionId, amount);
      calls := calls + [CaptureCall(transactionId, amount)];
    }

    /** `Samurai::Transaction.find(id).credit(amount)`. */
    method FindAndCredit(transactionId: string, amount: string) returns (result: ProcessorResult)
      modifies this
      ensures result == sdk.findAndCredit(transactionId, amount)
      ensures calls == old(calls) + [CreditCall(transactionId, amount)]
    {
      result := sdk.findAndCredit(transactionId, amount);
      calls := calls + [CreditCall(transactionId, amount)];
    }
  }
}
