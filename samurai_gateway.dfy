/** The Samurai gateway adapter: it resolves a card or a vault token to a
    payment-method token, calls the vendor library, and normalises every
    vendor result into one `Response` shape (success flag, message, params,
    options). The vendor calls themselves are inputs (see `SamuraiSdk.Sdk`);
    the adapter's test mode (`test?`) is the boolean `test`. */
module SamuraiGateway {
  import opened RubyValues
  import opened RubyStrings
  import opened SamuraiSdk

  /** The framework's uniform result: success flag, message, params, options. */
  datatype Response = Response(
    success: bool,
    message: string,
    params: map<string, Value>,
    options: map<string, Value>)

  /** The card fields `store` reads. */
  datatype CreditCard = CreditCard(
    number: string,
    month: int,
    year: int,
    verificationValue: string,
    firstName: string,
    lastName: string)

  /** The `credit_card_or_vault_id` argument of authorize and purchase: a
      token string issued earlier, or a card still to be stored. */
  datatype PaymentSource = VaultId(token: string) | Card(card: CreditCard)

  /** What resolving a payment source yields: the token to charge, or the
      Response of a store that failed (the source's `is_a?(Response)` test
      becomes the choice of constructor). */
  datatype TokenOutcome = Token(token: Value) | StoreFailed(response: Response)

  /** The caller's options hash, which `store` updates in place. */
  class Options {
    var entries: map<string, Value>

    constructor (initial: map<string, Value>)
      ensures entries == initial
    {
      entries := initial;
    }
  }

  // ---------------------------------------------------------------------
  // message_from_result

  /** Every group's messages, group by group in the order given. Every
      message of every group is in the result, and nothing else is. */
  function FlattenMessages(errors: seq<ErrorGroup>): (ms: seq<string>)
    ensures forall g, m :: 0 <= g < |errors| && m in errors[g].messages ==> m in ms
    ensures forall m :: m in ms ==> exists g :: 0 <= g < |errors| && m in errors[g].messages
  {
    if errors == [] then [] else errors[0].messages + FlattenMessages(errors[1..])
  }

  /** "OK" for a successful result; otherwise every error message, in order,
      separated by single spaces. */
  function MessageFromResult(success: bool, errors: seq<ErrorGroup>): (m: string)
    ensures success ==> m == "OK"
    ensures !success ==> m == Join(FlattenMessages(errors), " ")
    ensures !success && FlattenMessages(errors) == [] ==> m == ""
  {
    if success then "OK" else Join(FlattenMessages(errors), " ")
  }

  lemma {:induction false} FlattenAppend(a: seq<ErrorGroup>, b: seq<ErrorGroup>)
    ensures FlattenMessages(a + b) == FlattenMessages(a) + FlattenMessages(b)
    decreases |a|
  {
    if a == [] {
      assert a + b == b;
    } else {
      assert (a + b)[0] == a[0] && (a + b)[1..] == a[1..] + b;
      FlattenAppend(a[1..], b);
    }
  }

  /** Group order is kept: the failure message for two runs of error groups
      is the message for the first, a space, and the message for the second. */
  lemma MessageKeepsGroupOrder(first: seq<ErrorGroup>, second: seq<ErrorGroup>)
    requires FlattenMessages(first) != [] && FlattenMessages(second) != []
    ensures MessageFromResult(false, first + second)
         == MessageFromResult(false, first) + " " + MessageFromResult(false, second)
  {
    FlattenAppend(first, second);
    JoinAppend(FlattenMessages(first), FlattenMessages(second), " ");
  }

  /** When no message contains a space, the failure message splits back on
      spaces into exactly the flattened error messages. */
  lemma MessageSplitsIntoErrors(errors: seq<ErrorGroup>)
    requires FlattenMessages(errors) != []
    requires forall k :: 0 <= k < |FlattenMessages(errors)| ==> ' ' !in FlattenMessages(errors)[k]
    ensures Split(MessageFromResult(false, errors), ' ') == FlattenMessages(errors)
  {
    SplitJoin(FlattenMessages(errors), ' ');
  }

  // ---------------------------------------------------------------------
  // processor_options

  const ProcessorOptionKeys: set<string> :=
    {"billing_reference", "customer_reference", "custom", "descriptor"}

  /** The options passed to the processor: exactly the four keys above,
      each holding the caller's value or nil. */
  function ProcessorOptions(options: map<string, Value>): (r: map<string, Value>)
    ensures r.Keys == ProcessorOptionKeys
    ensures forall k :: k in r ==> r[k] == Get(options, k)
  {
    map[
      "billing_reference" := Get(options, "billing_reference"),
      "customer_reference" := Get(options, "customer_reference"),
      "custom" := Get(options, "custom"),
      "descriptor" := Get(options, "descriptor")]
  }

  /** Nothing outside the four keys reaches the processor: changing any other
      key of the caller's options leaves the projection as it was. */
  lemma ProcessorOptionsIgnoreOtherKeys(options: map<string, Value>, k: string, v: Value)
    requires k !in ProcessorOptionKeys
    ensures ProcessorOptions(options[k := v]) == ProcessorOptions(options)
  {
  }

  // ---------------------------------------------------------------------
  // handle_result

  /** The AVS code: nil when the result has no processor response, the
      response's (possibly nil) `avs_result_code` otherwise. */
  function AvsCode(result: ProcessorResult): (code: Value)
    ensures result.processorResponse.None? ==> code == Nil
    ensures result.processorResponse.Some? ==> code == NilOr(result.processorResponse.value.avsResultCode)
    ensures code == Nil || code.Str?
  {
    match result.processorResponse
    case None => Nil
    case Some(response) => NilOr(response.avsResultCode)
  }

  /** `r` is the normalised form of `result`. The success flag and message
      follow the result; the AVS code is always there; a success carries the
      test flag, the authorization (the reference id) and exactly the three
      identifiers as params; a failure carries no params and no option but
      the AVS code. */
  predicate NormalizedFrom(r: Response, result: ProcessorResult, test: bool)
  {
    && r.success == result.success
    && r.message == MessageFromResult(result.success, result.errors)
    && "avs_result" in r.options
    && r.options["avs_result"] == Hash(map["code" := AvsCode(result)])
    && (result.success ==>
          && r.options.Keys == {"test", "authorization", "avs_result"}
          && r.options["test"] == Bool(test)
          && r.options["authorization"] == Str(result.referenceId)
          && r.params.Keys == {"reference_id", "transaction_token", "payment_method_token"}
          && r.params["reference_id"] == Str(result.referenceId)
          && r.params["transaction_token"] == Str(result.transactionToken)
          && r.params["payment_method_token"] == Str(result.paymentMethod.paymentMethodToken))
    && (!result.success ==>
          && r.options.Keys == {"avs_result"}
          && r.params == map[])
  }

  /** The normalised form leaves nothing open: two responses normalised from
      the same result in the same mode are equal. */
  lemma NormalizedFromIsUnique(r1: Response, r2: Response, result: ProcessorResult, test: bool)
    requires NormalizedFrom(r1, result, test) && NormalizedFrom(r2, result, test)
    ensures r1 == r2
  {
  }

  /** Builds the Response from a processor result, filling the params and
      options hashes key by key. */
  method HandleResult(result: ProcessorResult, test: bool) returns (r: Response)
    ensures NormalizedFrom(r, result, test)
  {
    var params: map<string, Value>, options: map<string, Value> := map[], map[];
    if result.success {
      options := options["test" := Bool(test)];
      options := options["authorization" := Str(result.referenceId)];
      params := params["reference_id" := Str(result.referenceId)];
      params := params["transaction_token" := Str(result.transactionToken)];
      params := params["payment_method_token" := Str(result.paymentMethod.paymentMethodToken)];
    }
    var code := Nil;
    if result.processorResponse.Some? {
      code := NilOr(result.processorResponse.value.avsResultCode);
    }
    options := options["avs_result" := Hash(map["code" := code])];
    var message := MessageFromResult(result.success, result.errors);
    r := Response(result.success, message, params, options);
  }

  // ---------------------------------------------------------------------
  // store

  /** The billing address, when the caller gave a truthy one, is a hash
      (reading `[:address1]` from anything else raises in the source). */
  predicate BillingAddressIsHash(options: map<string, Value>)
  {
    var address := Get(options, "billing_address");
    !Truthy(address) || address.Hash?
  }

  /** `options[:billing_address] ||= {}`: a missing, nil or false billing
      address becomes an empty hash; every other key, and a billing address
      already given, is kept. */
  function WithBillingAddress(options: map<string, Value>): (r: map<string, Value>)
    ensures r.Keys == options.Keys + {"billing_address"}
    ensures forall k :: k in options && k != "billing_address" ==> r[k] == options[k]
    ensures Truthy(Get(options, "billing_address")) ==> r == options
    ensures !Truthy(Get(options, "billing_address")) ==> r["billing_address"] == Hash(map[])
    ensures BillingAddressIsHash(options) ==> r["billing_address"].Hash?
  {
    if Truthy(Get(options, "billing_address")) then options
    else options["billing_address" := Hash(map[])]
  }

  /** The payment-method creation request for a card. The month is written
      in decimal and zero-padded to two characters, so that it still reads
      back as the month; the year is written in decimal; the address fields
      come from the billing-address hash (nil where absent); the sandbox flag
      is the adapter's test mode. */
  function StoreRequest(card: CreditCard, address: map<string, Value>, test: bool): (req: PaymentMethodRequest)
    ensures req.cardNumber == card.number && req.cvv == card.verificationValue
    ensures req.firstName == card.firstName && req.lastName == card.lastName
    ensures 0 <= card.month < 10 ==> req.expiryMonth == ['0', DigitChar(card.month)]
    ensures card.month < 0 || 10 <= card.month ==> req.expiryMonth == IntToString(card.month)
    ensures 0 <= card.month ==> AllDigits(req.expiryMonth) && ParseNat(req.expiryMonth) == card.month
    ensures req.expiryYear == IntToString(card.year)
    ensures IsIntegerLiteral(req.expiryYear) && ParseInt(req.expiryYear) == card.year
    ensures req.address1 == Get(address, "address1") && req.address2 == Get(address, "address2")
    ensures req.city == Get(address, "city") && req.zip == Get(address, "zip")
    ensures req.sandbox == test
  {
    PaddedMonth(card.month);
    ParseIntToString(card.year);
    PaymentMethodRequest(
      card.number,
      Rjust(IntToString(card.month), 2, '0'),
      IntToString(card.year),
      card.verificationValue,
      card.firstName,
      card.lastName,
      Get(address, "address1"),
      Get(address, "address2"),
      Get(address, "city"),
      Get(address, "zip"),
      test)
  }

  /** The Response of a store: it succeeds exactly when the sensitive data
      was valid, and its only param is the issued token then, `false`
      otherwise. */
  function StoreResponse(result: PaymentMethodResult): (r: Response)
    ensures r.success == result.isSensitiveDataValid
    ensures r.message == MessageFromResult(result.success, result.errors)
    ensures r.params.Keys == {"payment_method_token"}
    ensures r.success ==> r.params["payment_method_token"] == Str(result.paymentMethodToken)
    ensures !r.success ==> r.params["payment_method_token"] == Bool(false)
    ensures r.options == map[]
  {
    Response(
      result.isSensitiveDataValid,
      MessageFromResult(result.success, result.errors),
      map["payment_method_token" :=
        if result.isSensitiveDataValid then Str(result.paymentMethodToken) else Bool(false)],
      // store passes no options; the framework's Response defaults them to an empty hash
      map[])
  }

  /** The creation request `store` sends for `card` when the caller's
      options were `before`: the billing address is read after defaulting. */
  function StoreRequestFor(card: CreditCard, before: map<string, Value>, test: bool): PaymentMethodRequest
    requires BillingAddressIsHash(before)
  {
    StoreRequest(card, WithBillingAddress(before)["billing_address"].entries, test)
  }

  /** The Response `store` gives for `card` when the caller's options were
      `before` (specification of `Store`). */
  function StoredCard(card: CreditCard, before: map<string, Value>, test: bool, sdk: Sdk): Response
    requires BillingAddressIsHash(before)
  {
    StoreResponse(sdk.createPaymentMethod(StoreRequestFor(card, before, test)))
  }

  /** Tokenises a card: defaults the caller's billing address in place, sends
      the one creation request and wraps its result. */
  method Store(card: CreditCard, options: Options, test: bool, vendor: Vendor) returns (r: Response)
    requires BillingAddressIsHash(options.entries)
    modifies options, vendor
    ensures options.entries == WithBillingAddress(old(options.entries))
    ensures vendor.calls == old(vendor.calls) + [CreateCall(StoreRequestFor(card, old(options.entries), test))]
    ensures r == StoredCard(card, old(options.entries), test, vendor.sdk)
  {
    ghost var before := options.entries;
    if !Truthy(Get(options.entries, "billing_address")) {
      options.entries := options.entries["billing_address" := Hash(map[])];
    }
    assert options.entries == WithBillingAddress(before);
    var request := StoreRequest(card, options.entries["billing_address"].entries, test);
    assert request == StoreRequestFor(card, before, test);
    var result := vendor.Create(request);
    r := StoreResponse(result);
  }

  // ---------------------------------------------------------------------
  // payment_method_token

  /** Reads a store's Response back: its token param on success, the
      Response itself otherwise. */
  function TokenFromStore(stored: Response): (t: TokenOutcome)
    ensures t.Token? <==> stored.success
    ensures t.Token? ==> t.token == Get(stored.params, "payment_method_token")
    ensures t.StoreFailed? ==> t.response == stored
  {
    if stored.success then Token(Get(stored.params, "payment_method_token")) else StoreFailed(stored)
  }

  /** Storing and reading back: the issued token comes back exactly when the
      sensitive data was valid; otherwise the failed store's Response comes
      back, unsuccessful and without a token. */
  lemma StoreThenTokenFromStore(result: PaymentMethodResult)
    ensures result.isSensitiveDataValid ==>
      TokenFromStore(StoreResponse(result)) == Token(Str(result.paymentMethodToken))
    ensures !result.isSensitiveDataValid ==>
      && TokenFromStore(StoreResponse(result)) == StoreFailed(StoreResponse(result))
      && !StoreResponse(result).success
      && StoreResponse(result).params["payment_method_token"] == Bool(false)
  {
  }

  /** The caller's options after resolving `source`: untouched for a token,
      billing address defaulted for a card. */
  function OptionsAfterResolving(source: PaymentSource, before: map<string, Value>): map<string, Value>
  {
    if source.VaultId? then before else WithBillingAddress(before)
  }

  /** The vendor calls resolving `source` makes: none for a token string,
      one creation request for a card. */
  function ResolvingCalls(source: PaymentSource, before: map<string, Value>, test: bool): seq<VendorCall>
    requires source.Card? ==> BillingAddressIsHash(before)
  {
    match source
    case VaultId(_) => []
    case Card(card) => [CreateCall(StoreRequestFor(card, before, test))]
  }

  /** What resolving `source` yields when the caller's options were `before`
      (specification of `PaymentMethodToken`). */
  function ResolvedSource(source: PaymentSource, before: map<string, Value>, test: bool, sdk: Sdk): TokenOutcome
    requires source.Card? ==> BillingAddressIsHash(before)
  {
    match source
    case VaultId(token) => Token(Str(token))
    case Card(card) => TokenFromStore(StoredCard(card, before, test, sdk))
  }

  /** A token string is passed through untouched, with no vendor call and
      whatever the vendor library would answer; a card is stored exactly
      once, and resolves to the created token when storing it succeeds and
      to the failed store's Response otherwise. */
  lemma ResolvedSourceCases(source: PaymentSource, before: map<string, Value>, test: bool, sdk: Sdk)
    requires source.Card? ==> BillingAddressIsHash(before)
    ensures source.VaultId? ==>
      && ResolvedSource(source, before, test, sdk) == Token(Str(source.token))
      && ResolvingCalls(source, before, test) == []
    ensures source.Card? ==>
      var stored := sdk.createPaymentMethod(StoreRequestFor(source.card, before, test));
      && ResolvingCalls(source, before, test) == [CreateCall(StoreRequestFor(source.card, before, test))]
      && ResolvedSource(source, before, test, sdk)
         == if stored.isSensitiveDataValid then Token(Str(stored.paymentMethodToken))
            else StoreFailed(StoreResponse(stored))
  {
  }

  /** Resolves a card or vault token to the token to charge. */
  method PaymentMethodToken(source: PaymentSource, options: Options, test: bool, vendor: Vendor)
    returns (t: TokenOutcome)
    requires source.Card? ==> BillingAddressIsHash(options.entries)
    modifies options, vendor
    ensures options.entries == OptionsAfterResolving(source, old(options.entries))
    ensures vendor.calls == old(vendor.calls) + ResolvingCalls(source, old(options.entries), test)
    ensures t == ResolvedSource(source, old(options.entries), test, vendor.sdk)
  {
    if source.VaultId? {
      return Token(Str(source.token));
    }
    var stored := Store(source.card, options, test, vendor);
    t := TokenFromStore(stored);
  }

  // ---------------------------------------------------------------------
  // authorize, purchase, capture, refund

  /** Reserves `money` against a card or vault token. A failed store is
      returned as it is and the processor is never called; otherwise the
      processor is called once, after the store if there was one. */
  method Authorize(money: int, source: PaymentSource, options: Options, test: bool, vendor: Vendor)
    returns (r: Response)
    requires source.Card? ==> BillingAddressIsHash(options.entries)
    modifies options, vendor
    ensures options.entries == OptionsAfterResolving(source, old(options.entries))
    ensures var t := ResolvedSource(source, old(options.entries), test, vendor.sdk);
      var resolving := ResolvingCalls(source, old(options.entries), test);
      if t.StoreFailed? then
        && r == t.response
        && vendor.calls == old(vendor.calls) + resolving
      else
        var call := AuthorizeCall(t.token, vendor.sdk.amount(money), ProcessorOptions(options.entries));
        && vendor.calls == old(vendor.calls) + resolving + [call]
        && NormalizedFrom(r, vendor.sdk.authorize(call.token, call.amount, call.options), test)
  {
    var token := PaymentMethodToken(source, options, test, vendor);
    if token.StoreFailed? {
      return token.response;
    }
    var result := vendor.Authorize(token.token, vendor.sdk.amount(money), ProcessorOptions(options.entries));
    r := HandleResult(result, test);
  }

  /** Authorizes and captures `money` in one step; otherwise as `Authorize`. */
  method Purchase(money: int, source: PaymentSource, options: Options, test: bool, vendor: Vendor)
    returns (r: Response)
    requires source.Card? ==> BillingAddressIsHash(options.entries)
    modifies options, vendor
    ensures options.entries == OptionsAfterResolving(source, old(options.entries))
    ensures var t := ResolvedSource(source, old(options.entries), test, vendor.sdk);
      var resolving := ResolvingCalls(source, old(options.entries), test);
      if t.StoreFailed? then
        && r == t.response
        && vendor.calls == old(vendor.calls) + resolving
      else
        var call := PurchaseCall(t.token, vendor.sdk.amount(money), ProcessorOptions(options.entries));
        && vendor.calls == old(vendor.calls) + resolving + [call]
        && NormalizedFrom(r, vendor.sdk.purchase(call.token, call.amount, call.options), test)
  {
    var token := PaymentMethodToken(source, options, test, vendor);
    if token.StoreFailed? {
      return token.response;
    }
    var result := vendor.Purchase(token.token, vendor.sdk.amount(money), ProcessorOptions(options.entries));
    r := HandleResult(result, test);
  }

  /** Captures `money` on an earlier authorization, looked up by its id:
      one lookup-and-capture call, normalised. */
  method Capture(money: int, authorizationId: string, test: bool, vendor: Vendor) returns (r: Response)
    modifies vendor
    ensures vendor.calls == old(vendor.calls) + [CaptureCall(authorizationId, vendor.sdk.amount(money))]
    ensures NormalizedFrom(r, vendor.sdk.findAndCapture(authorizationId, vendor.sdk.amount(money)), test)
  {
    var result := vendor.FindAndCapture(authorizationId, vendor.sdk.amount(money));
    r := HandleResult(result, test);
  }

  /** Credits `money` back on an earlier transaction, looked up by its id:
      one lookup-and-credit call, normalised. */
  method Refund(money: int, transactionId: string, test: bool, vendor: Vendor) returns (r: Response)
    modifies vendor
    ensures vendor.calls == old(vendor.calls) + [CreditCall(transactionId, vendor.sdk.amount(money))]
    ensures NormalizedFrom(r, vendor.sdk.findAndCredit(transactionId, vendor.sdk.amount(money)), test)
  {
    var result := vendor.FindAndCredit(transactionId, vendor.sdk.amount(money));
    r := HandleResult(result, test);
  }
}
