/** Concrete cases of the adapter's behaviour, checked against the model. */
module SamuraiExamples {
  import opened RubyValues
  import opened SamuraiSdk
  import opened SamuraiGateway

  /** September is sent as "09", December as "12", a four-digit year as is. */
  lemma ExpiryFields(test: bool)
    ensures StoreRequest(CreditCard("4111111111111111", 9, 2025, "123", "A", "B"), map[], test).expiryMonth == "09"
    ensures StoreRequest(CreditCard("4111111111111111", 12, 2025, "123", "A", "B"), map[], test).expiryMonth == "12"
    ensures StoreRequest(CreditCard("4111111111111111", 12, 2025, "123", "A", "B"), map[], test).expiryYear == "2025"
  {
  }

  /** A valid card store answers "OK" with the issued token as its only param. */
  lemma StoredTokenExample()
    ensures StoreResponse(PaymentMethodResult(true, true, "tok_1", []))
         == Response(true, "OK", map["payment_method_token" := Str("tok_1")], map[])
  {
  }

  /** A declined authorization: not successful, the decline as message, no params. */
  lemma DeclinedExample(r: Response, result: ProcessorResult, test: bool)
    requires !result.success && result.errors == [ErrorGroup("card", ["declined"])]
    requires NormalizedFrom(r, result, test)
    ensures !r.success && r.message == "declined" && r.params == map[]
  {
    assert FlattenMessages(result.errors[1..]) == [];
  }

  /** Messages of several groups come out in order, one space apart. */
  lemma SeveralErrorsExample()
    ensures MessageFromResult(false, [ErrorGroup("card", ["declined", "expired"]), ErrorGroup("cvv", ["invalid"])])
         == "declined expired invalid"
  {
  }
}
