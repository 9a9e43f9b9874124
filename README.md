# Samurai gateway adapter, modelled in Dafny

ActiveMerchant's `SamuraiGateway` exposes the Samurai payment service's
authorize, purchase, capture, refund and store operations through
ActiveMerchant's uniform gateway interface. The adapter has little logic of
its own. It does three things:

- It resolves a card or a vault token to a payment-method token. A card is
  tokenised through `store`, and a failed store is returned as it is.
- It maps a card and the caller's billing address to a payment-method
  creation request.
- It normalises every vendor result into one `Response`: a success flag,
  a message, params and options.

This project models that logic and proves what it promises.

Files:

- `ruby_values.dfy` (module `RubyValues`): Ruby values as the adapter sees
  them. These are nil, booleans, strings and hashes, plus hash lookup that
  yields nil for a missing key, and Ruby truthiness.
- `ruby_strings.dfy` (module `RubyStrings`): `Integer#to_s`, `String#rjust`
  and `Array#join`. Each has an independent reading-back function
  (decimal parsing, splitting on the separator) and a round-trip lemma.
- `samurai_sdk.dfy` (module `SamuraiSdk`): the vendor library's results and
  the creation request, reduced to the fields the adapter reads or sends.
  The library's answers are total functions in the datatype `Sdk`, so
  they are inputs. The framework's `amount` formatting is also a function
  there. The adapter reaches the library through the class `Vendor`. Each
  of its entry points answers as `Sdk` says and appends itself, with its
  arguments, to the ghost log `calls`. The adapter's contracts therefore
  state which vendor calls each operation makes, with which arguments and
  in what order.
- `samurai_gateway.dfy` (module `SamuraiGateway`): the adapter.
  - `HandleResult` builds the response maps key by key, like the source.
    It is proved against the predicate `NormalizedFrom`, and
    `NormalizedFromIsUnique` shows that this predicate fixes the response
    completely.
  - The caller's options hash is the class `Options`, because `store`
    updates it in place.
  - `Store`, `PaymentMethodToken`, `Authorize` and `Purchase` state three
    things: the new options, the calls appended to the vendor log, and the
    response. They do so through the functions `StoredCard`,
    `OptionsAfterResolving`, `ResolvingCalls` and `ResolvedSource`.
- `samurai_examples.dfy` (module `SamuraiExamples`): concrete cases. They
  cover the expiry month and year, a valid store, a declined authorization
  and a message built from several error groups.

Conventions:

- Hash keys are written as strings. Ruby's symbol keys and the framework's
  stringified params keys are not told apart.
- The adapter's `test?` is the boolean parameter `test`.
- The `options` argument of `capture` and `refund` is never read by the
  source, so it is omitted.

## Model

| member | source | states |
|---|---|---|
| `SamuraiGateway.MessageFromResult` | lib/active_merchant/billing/gateways/samurai.rb:109-115 | exactly "OK" on success; on failure, the flattened messages joined with single spaces; "" when there are no messages |
| `SamuraiGateway.MessageKeepsGroupOrder` | lib/active_merchant/billing/gateways/samurai.rb:113 | the failure message for two runs of error groups is the first run's message, a space, then the second run's message, so group order is kept |
| `SamuraiGateway.MessageSplitsIntoErrors` | lib/active_merchant/billing/gateways/samurai.rb:113 | when no message contains a space, splitting the failure message on spaces gives back exactly the messages, group by group and in order |
| `SamuraiGateway.FlattenMessages` | lib/active_merchant/billing/gateways/samurai.rb:113 | every message of every error group is in the flattened list, and nothing else is |
| `RubyStrings.Join` | lib/active_merchant/billing/gateways/samurai.rb:113 | the joined string starts with the first part |
| `SamuraiGateway.FlattenAppend` | lib/active_merchant/billing/gateways/samurai.rb:113 | flattening the errors of two runs of groups gives the first run's messages followed by the second run's |
| `RubyStrings.SplitJoin` | lib/active_merchant/billing/gateways/samurai.rb:113 | `join` with a one-character separator that no part contains is undone by splitting on that character |
| `RubyStrings.JoinAppend` | lib/active_merchant/billing/gateways/samurai.rb:113 | joining two non-empty lists of parts gives the two joins with one separator between them |
| `SamuraiGateway.ProcessorOptions` | lib/active_merchant/billing/gateways/samurai.rb:117-124 | the processor sees exactly the four keys billing_reference, customer_reference, custom and descriptor, each with the caller's value or nil |
| `SamuraiGateway.ProcessorOptionsIgnoreOtherKeys` | lib/active_merchant/billing/gateways/samurai.rb:117-124 | changing any other option, such as the billing address that store defaults, leaves the processor options unchanged |
| `SamuraiGateway.AvsCode` | lib/active_merchant/billing/gateways/samurai.rb:104 | the AVS code is nil when the result has no processor response, and otherwise that response's AVS result code (nil or a string) |
| `SamuraiGateway.HandleResult` | lib/active_merchant/billing/gateways/samurai.rb:93-107 | success flag and message follow the result; the AVS code is always in the options; on success the options are exactly test, authorization (the reference id) and AVS code, and the params are exactly reference id, transaction token and payment-method token; on failure the params are empty and the AVS code is the only option |
| `SamuraiGateway.NormalizedFromIsUnique` | lib/active_merchant/billing/gateways/samurai.rb:93-107 | the contract of HandleResult leaves nothing open: two responses that meet it for the same result are equal |
| `SamuraiGateway.WithBillingAddress` | lib/active_merchant/billing/gateways/samurai.rb:64 | a missing, nil or false billing address becomes an empty hash; a given one is kept, and so is every other key |
| `SamuraiGateway.StoreRequest` | lib/active_merchant/billing/gateways/samurai.rb:66-78 | card fields are copied; a month from 0 to 9 gains one leading "0"; any other month is its plain decimal rendering; a non-negative month still parses back to itself; the year is its decimal rendering and parses back to itself; address fields come from the billing-address hash (nil where absent); sandbox is the test mode |
| `SamuraiGateway.StoreResponse` | lib/active_merchant/billing/gateways/samurai.rb:80-82 | success is the sensitive-data-valid flag; the message is the result's message; the only param is the issued token when valid and `false` otherwise; no options |
| `SamuraiGateway.Store` | lib/active_merchant/billing/gateways/samurai.rb:63-83 | the caller's options afterwards have the billing address defaulted; exactly one vendor call is made, the creation request for the card and that address; the response is the one for the request built from the card, that address and the test mode |
| `SamuraiGateway.TokenFromStore` | lib/active_merchant/billing/gateways/samurai.rb:90 | a successful store's Response yields its token param, and an unsuccessful one yields the Response itself |
| `SamuraiGateway.StoreThenTokenFromStore` | lib/active_merchant/billing/gateways/samurai.rb:80-90 | storing and then reading back gives the issued token exactly when the data was valid; otherwise it gives the failed Response, with success false and token param false |
| `SamuraiGateway.ResolvedSourceCases` | lib/active_merchant/billing/gateways/samurai.rb:87-91 | a token string passes through with no vendor call, whatever the vendor library would answer; a card is stored with exactly one creation call; a card yields the created token when valid and the failed store's Response otherwise |
| `SamuraiGateway.PaymentMethodToken` | lib/active_merchant/billing/gateways/samurai.rb:87-91 | for a token string, the options and the vendor log are untouched and the token comes back; for a card, the options get the defaulted billing address, the log gains exactly the one creation call, and the outcome is the store's |
| `SamuraiGateway.Authorize` | lib/active_merchant/billing/gateways/samurai.rb:32-38 | a failed store's Response is returned as it is, and the vendor log gains only the creation call; otherwise the log gains the resolving calls (none for a token string) and then exactly one processor authorize call, with the resolved token, the formatted amount and the four processor options, and the response is that call's normalised result |
| `SamuraiGateway.Purchase` | lib/active_merchant/billing/gateways/samurai.rb:40-46 | as Authorize, with the processor's purchase |
| `SamuraiGateway.Capture` | lib/active_merchant/billing/gateways/samurai.rb:48-51 | the vendor log gains exactly one lookup-and-capture call; the response is the normalised result of capturing the formatted amount on the transaction found by id |
| `SamuraiGateway.Refund` | lib/active_merchant/billing/gateways/samurai.rb:53-56 | the vendor log gains exactly one lookup-and-credit call; the response is the normalised result of crediting the formatted amount on the transaction found by id |
| `RubyStrings.Rjust` | lib/active_merchant/billing/gateways/samurai.rb:68 | the result is max(width, length) long; it ends with the input; everything before that is the pad character |
| `RubyStrings.PaddedMonth` | lib/active_merchant/billing/gateways/samurai.rb:68 | a month from 0 to 9 becomes "0" and its digit; a negative month or one of 10 or more is left as its rendering; a non-negative month is all digits, two characters long below 100, and parses back to the month |
| `RubyStrings.IntToString` | lib/active_merchant/billing/gateways/samurai.rb:68-69 | `to_s` writes a canonical literal: an optional minus sign exactly for a negative value, then digits with no leading zero |
| `RubyStrings.IntToStringParse` | lib/active_merchant/billing/gateways/samurai.rb:68-69 | every canonical literal is the `to_s` rendering of the value it denotes, so `to_s` is a bijection onto canonical literals |
| `RubyStrings.NatToStringParse` | lib/active_merchant/billing/gateways/samurai.rb:68-69 | a digit string without a leading zero is the rendering of its own value |
| `RubyStrings.ParseNatPositive` | lib/active_merchant/billing/gateways/samurai.rb:68-69 | a digit string that does not start with "0" has a positive value |
| `SamuraiSdk.Vendor.Create` | lib/active_merchant/billing/gateways/samurai.rb:66 | payment-method creation answers as the vendor library would and is appended to the call log with its request |
| `SamuraiSdk.Vendor.Authorize` | lib/active_merchant/billing/gateways/samurai.rb:36 | the processor's authorize answers as the vendor library would and is appended to the call log with token, amount and options |
| `SamuraiSdk.Vendor.Purchase` | lib/active_merchant/billing/gateways/samurai.rb:44 | the processor's purchase answers as the vendor library would and is appended to the call log with token, amount and options |
| `SamuraiSdk.Vendor.FindAndCapture` | lib/active_merchant/billing/gateways/samurai.rb:49-50 | a transaction lookup followed by capture answers as the vendor library would and is appended to the call log with id and amount |
| `SamuraiSdk.Vendor.FindAndCredit` | lib/active_merchant/billing/gateways/samurai.rb:54-55 | a transaction lookup followed by credit answers as the vendor library would and is appended to the call log with id and amount |
| `RubyStrings.ParseIntToString` | lib/active_merchant/billing/gateways/samurai.rb:69 | the decimal rendering of any integer parses back to that integer |
| `RubyStrings.NatToString` | lib/active_merchant/billing/gateways/samurai.rb:68-69 | the decimal rendering is a non-empty string of digits; it has a single digit exactly below 10, and it starts with "0" only for zero |
| `RubyStrings.ParseNatLeadingZero` | lib/active_merchant/billing/gateways/samurai.rb:68 | a leading zero does not change the value of a digit string, so zero padding keeps the month's value |
| `SamuraiExamples.ExpiryFields` | lib/active_merchant/billing/gateways/samurai.rb:68-69 | month 9 is sent as "09", month 12 as "12", year 2025 as "2025" |
| `SamuraiExamples.StoredTokenExample` | lib/active_merchant/billing/gateways/samurai.rb:80-82 | a valid store issuing "tok_1" answers success, "OK" and the token as its only param |
| `SamuraiExamples.DeclinedExample` | lib/active_merchant/billing/gateways/samurai.rb:93-115 | a result declined with the single message "declined" normalises to no success, message "declined" and no params |
| `SamuraiExamples.SeveralErrorsExample` | lib/active_merchant/billing/gateways/samurai.rb:113 | messages of two groups come out in order: "declined expired invalid" |

## Left out

- `initialize` (lib/active_merchant/billing/gateways/samurai.rb:12-26) is left out. It loads the vendor library, checks the required options and writes the library's process-wide credentials, which are global mutable state. `test?` (28-30) reads those options and the base class, so it is the parameter `test`.
- `void` (58-61) is left out. It calls `process_options`, which is not defined in this file; the file defines only `processor_options`. Whatever that call does is not part of this model.
- The vendor library's calls are not modelled; only their answers and the fact that they were made are. This covers `Processor.authorize`, `Processor.purchase`, `Transaction.find` followed by `capture` or `credit`, and `PaymentMethod.create`. Their HTTP traffic is out of scope, as are their exceptions (for example, a failed transaction lookup).
- The framework's `amount` money formatting (dollars) and its `Response` class are not part of this model. `amount` is an uninterpreted function of the money value.
- The static gateway metadata (lines 5-10) is left out: it is constants only.
- `Store` requires that a truthy billing address is a hash. Reading `[:address1]` from any other value raises in Ruby, and that exception is not modelled.
- Card fields, reference ids, transaction tokens and payment-method tokens are modelled as strings. A nil there is not modelled. The AVS code, which the adapter reads null-safely, is modelled as nil or a string.
- Payment-method creation results carry `success` and `errors`, because `message_from_result` reads them. How the vendor library derives them is not modelled.
