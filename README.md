# Bold & Brew storefront, modelled in Dafny

This project models the deterministic core of the Bold & Brew coffee storefront
and proves properties of that model. The storefront is a React shop backed by a
document database, with cloud functions that talk to a payment gateway
(Razorpay) and a courier aggregator (Shiprocket). The core modelled here is the
data shaping around orders, carts, coupons, products and shipments:

- **Cloud functions** (`functions/index.js`):
  - payment order creation and signature verification (`Payments`);
  - the courier token cache (`ShiprocketToken`);
  - both `createShiprocketOrder` bodies. The first one, never served, is `ShipmentSanitizer`. The second one, which replaces it at module load and is live, is `ShipmentOrder`;
  - pickup listing, rates and airway-bill handlers (`ShiprocketAux`);
  - the result of a courier HTTP call (`CarrierCall`).
- **Admin pages**:
  - shipment booking heuristics and the status editor (`AdminOrders`);
  - the product table and coupon summary (`AdminDashboard`);
  - the coupon form and list (`CouponManagement`);
  - the product forms (`ProductForm`, `CreateProduct`, `EditProduct`).
- **Shop pages**:
  - cart, wishlist and coupon state (`Storefront`, after `src/App.jsx`);
  - the cart page (`CartView`);
  - the product listing (`Catalogue`), the home grid (`ProductList`) and the best-seller cards (`BestSellers`);
  - image selection (`ImageUtils`);
  - checkout (`Checkout`).
- **Order pages**:
  - the confirmation page (`OrderConfirmed`);
  - one order's page (`OrderDetails`);
  - the order list (`OrdersPage`);
  - the account summary (`MyAccount`);
  - `getOrdersForUser` (`UserOrders`).

Each module follows one source file. Library modules hold what the files share:
- `Text`: trim, case mapping, `\d`/`\s`/`\w`, `split`/`join`, decimal text;
- `Wrappers`: `Option` and `Result`;
- `JsValue`: JavaScript values with truthiness, `||`, `??`, `Number()`, `String()`, `parseFloat`/`parseInt`, strict equality and object spread;
- `Seqs`: filter, find, reduce, a stable sort and subsequences;
- `Firestore`: documents with ids, `add`/`update`/`set` with merge/`delete`, and equality queries.

How the model is built:
- **JavaScript values.**
  - One datatype `JsValue.Value` stands for every JavaScript value: undefined, null, booleans, numbers (exact rationals, plus NaN), strings, arrays, objects, database Timestamps and `Date`s.
  - Property reads, `||` and `??` follow JavaScript.
  - A property read or string method that would throw a `TypeError` is modelled as a failure (`None`) where the source's behaviour depends on it.
- **Stateful code.**
  - Code that updates state becomes a class with `modifies` clauses: a component's `useState` fields, or a database collection.
  - Loops of the source are methods with loop invariants, proved against specification functions. Examples are `MyAccount.MostRecentDate`, `EditProduct.Editor.Validate`, the image padding in `EditProduct.Editor.Load`, `CreateProduct.CheckKept`, `ShipmentOrder.FindMissingField`, `ShipmentSanitizer.MissingFields` and the in-place sort in `UserOrders.GetOrdersForUser`.
  - Pure expressions become functions.
- **Outside the model.** The clock, the server timestamp, new document ids, HTTP replies, the HMAC, date formatting and confirmation dialogs are all parameters of the operations that use them.
- **Money.**
  - Amounts are exact rationals (`real`), not floating-point numbers. Rupee and paise values, percentages and `/ 100` are therefore exact.
  - `Math.round` is modelled as floor of x + 1/2, as in JavaScript.
  - Prices and quantities in the cart state are whole numbers.

## Model

| member | source | states |
|---|---|---|
| Payments.AmountGuard | functions/index.js:39-41 | the amount guard lets a request through exactly when the amount is a positive number |
| Payments.CreateRazorpayOrder | functions/index.js:31-61 | 405 for any verb but POST; 400 "Invalid amount." unless the amount is a positive number; a gateway order is requested only for a POST with a positive amount and both keys configured, for amount × 100 in the given currency (INR by default); the reply is 200 with the gateway's order exactly when that request was made and succeeded |
| Payments.VerifyDecision | functions/index.js:66-97 | 405 for any verb but POST; 400 "Missing required details." when orderId, paymentId, signature, key_secret or userId is missing; acceptance only with every detail present and a signature equal to the HMAC of `orderId|paymentId` under key_secret, and the accepted order is the recorded-order document; with every detail present, a key_secret that is not a string throws, and a signature other than the HMAC gets 400 "Payment verification failed (Signature Mismatch)." |
| Payments.AcceptIffSignatureMatches | functions/index.js:86-97 | with every detail present, the payment is accepted if and only if the signature equals the HMAC of `orderId|paymentId` |
| Payments.VerifiedOrderShape | functions/index.js:100-111 | the recorded order has status 'In Process', the user id, and the gateway's payment id, order id and signature |
| Payments.VerifiedOrderWritable | functions/index.js:100-111 | with every detail present, the recorded order has no undefined field (so the database takes it) exactly when the body carries cartItems, total and shippingForm |
| Payments.Handling | functions/index.js:66-124 | a rejected request writes nothing and gets the decision's reply; a throwing check, and an accepted one whose order lacks cartItems, total or shippingForm, write nothing and get 500 'Internal server error.'; the order is recorded exactly when it is accepted and complete; the address is saved exactly when moreover saveForFuture is truthy and the user id is a string; the reply is 200 success exactly when the order is recorded and no address write threw |
| Payments.VerifyRazorpayPayment | functions/index.js:66-124 | appends at most one order and merges at most one address, exactly the order, address and reply of `Payments.Handling`, and nothing else changes |
| ShiprocketToken.TokenPlan | functions/index.js:202-215 | a cached token is reused exactly when the document exists, the token is set, expiresAt is a Timestamp and more than 230 hours remain, and then that token is used; a missing document always refreshes |
| ShiprocketToken.FreshTokenReuse | functions/index.js:189-249 | a token stored with the 240-hour expiry is reused exactly by the calls made less than ten hours later |
| ShiprocketToken.TokenCache.constructor | functions/index.js:201-203 | the cache starts from the stored token document, or from none when it does not exist |
| ShiprocketToken.TokenCache.GetToken | functions/index.js:198-258 | the cached token is returned with the document unchanged when the plan reuses it; without credentials the call fails and writes nothing; otherwise the login's token is stored with expiry now + 240 h and returned, and a login without a token fails and writes nothing; a returned token is always truthy |
| CarrierCall.ReportedMessage | functions/index.js:478 | the reported text is the response's message when truthy, else the error's message when truthy, else the fallback, so it is truthy whenever the fallback is non-empty |
| CarrierCall.Internal | functions/index.js:469-486 | the catch-all of the first order function always throws an `internal` error whose message is the reported text, so it is truthy |
| ShiprocketAux.HomeAddresses | functions/index.js:505-506 | the filter succeeds exactly when no address is null or undefined, and then keeps exactly the addresses named 'Home', in their listed order |
| ShiprocketAux.ChoosePickup | functions/index.js:504-508 | succeeds exactly on an array without null entries; the proposed pickup is always truthy; with a Home address it lists only the Home addresses and proposes 'Home', otherwise it lists every address and proposes the first one's name or 'Home' |
| ShiprocketAux.ListingFailure | functions/index.js:510-512 | the listing's refusal has success false and a truthy message |
| ShiprocketAux.ListPickupAddresses | functions/index.js:497-513 | 'Auth required.' without auth; 'Shiprocket token error.' for a falsy token; success exactly when authenticated with a truthy token and a listable answer, with the chosen addresses and pickup; every other outcome is a refusal with a truthy message |
| ShiprocketAux.HomeAddressWins | functions/index.js:505-508 | when the account has a Home address the listing proposes 'Home' and lists only Home addresses |
| ShiprocketAux.RatesQueryOf | functions/index.js:626-630 | the weight is a non-zero number, 0.5 for a falsy weight; the delivery pincode is trimmed; the pickup pincode defaults to '110019'; cod is 1 or 0 by truthiness |
| ShiprocketAux.Weight | functions/index.js:626 | `parseFloat(w || 0.5) || 0.5` is always a non-zero number, and 0.5 for a falsy weight |
| ShiprocketAux.DeliveryPincode | functions/index.js:627 | the delivery pincode is trimmed, and is the trimmed delivery_pincode when that is a non-empty string |
| ShiprocketAux.PickupPincode | functions/index.js:628 | the pickup pincode is '110019' when none is given |
| ShiprocketAux.IntegerWeightKept | functions/index.js:626 | a whole-number weight is sent unchanged |
| ShiprocketAux.WeightOfInteger | functions/index.js:626 | a non-zero whole-number weight reads back as itself through `parseFloat` and is kept |
| ShiprocketAux.LettersPassPincodeCheck | functions/index.js:630-632 | the check tests only the length: six letters pass it |
| ShiprocketAux.PincodeCheckIsLength | functions/index.js:630-632 | for a non-empty string pincode the check passes exactly when its trimmed text has six characters |
| ShiprocketAux.WrongLengthFailsCheck | functions/index.js:630-632 | a pincode without surrounding white space fails the check at every length other than 6 |
| ShiprocketAux.Caught | functions/index.js:639-672 | the rates and AWB catch throws `internal` with the fixed text and truthy details, the carrier's response data when there is any |
| ShiprocketAux.RatesReply | functions/index.js:637-638 | the reply echoes the pickup and delivery pincodes and the weight, with success true and the couriers list (or []) |
| ShiprocketAux.GetShipmentRates | functions/index.js:620-643 | unauthenticated without auth; a token error and every error inside the `try` (the pincode check's own included) reach the caller as `internal` "Failed to fetch rates"; otherwise the request and reply of the `try` block |
| ShiprocketAux.RatesRequest | functions/index.js:630-638 | a request is made exactly when the pincode has six characters, to the serviceability URL of the query; the reply is returned exactly when the request succeeded; a bad pincode ends as the catch's `internal` error |
| ShiprocketAux.RatesRequestIntended | functions/index.js:630-632 | the corrected `try` block: a bad pincode reaches the caller as `invalid-argument` with the check's text, and everything else is as written |
| ShiprocketAux.GetShipmentRatesIntended | functions/index.js:620-643 | the corrected handler differs from the written one only in the `try` block |
| ShiprocketAux.BadPincodeReportedAsInternal | functions/index.js:630-641 | whenever the pincode check fails, the written handler reports `internal` where the corrected one reports `invalid-argument` |
| ShiprocketAux.AssignAwb | functions/index.js:651-673 | unauthenticated without auth; `invalid-argument` before any request when either id is falsy; a request exactly when both ids are set and a token is at hand, carrying those ids; `{success: true, data}` exactly when the request succeeded, else the catch's `internal` error |
| ShiprocketAux.SnakeCaseIdsPreferred | functions/index.js:655-656 | the camel-case ids are used only when the snake-case ones are falsy |
| ShipmentSanitizer.SanitizedText | functions/index.js:297 | the text `sanitize` reads from a value is trimmed: it is empty or starts with a non-space character |
| ShipmentSanitizer.Sanitize | functions/index.js:296-299 | null and undefined give the fallback; a non-empty sanitised text is returned as it is, and otherwise the fallback; a non-blank fallback makes the result non-blank |
| ShipmentSanitizer.SanitizedTextOfString | functions/index.js:297 | a string's sanitised text is its trim |
| ShipmentSanitizer.SanitizeIdempotent | functions/index.js:296-299 | sanitising the result again with the same trimmed fallback changes nothing |
| ShipmentSanitizer.DefaultsWellFormed | functions/index.js:284-294 | the defaults are non-blank and the default pincode and phone have 6 and 10 digits |
| ShipmentSanitizer.CleanCode | functions/index.js:305-312 | the digits of the sanitised code are kept only when there are exactly `len` of them, otherwise the fallback, so a well-shaped fallback makes the result exactly `len` digits |
| ShipmentSanitizer.CleanCodeKeepsGoodCode | functions/index.js:305-306 | a code that already has the right number of digits and no surrounding space is kept |
| ShipmentSanitizer.ReadParty | functions/index.js:302-326 | each party field is read from the request key of that party (`billing_*` or `shipping_*`) |
| ShipmentSanitizer.SanitizedParty | functions/index.js:302-326 | a party sanitised against a well-formed fallback party is well formed: non-blank fields, a 6-digit pincode and a 10-digit phone |
| ShipmentSanitizer.SanitizeParty | functions/index.js:302-326 | the block with its reassigned `let` pincode and phone computes the sanitised party |
| ShipmentSanitizer.SanitizedPartiesWellFormed | functions/index.js:305-326 | whatever the request holds, both the billing and the shipping party are well formed, in particular 6-digit pincodes and 10-digit phones |
| ShipmentSanitizer.MissingFieldFallsBack | functions/index.js:302-326 | a field the request leaves out takes the fallback party's value, '' for the last name and second address line |
| ShipmentSanitizer.ShippingFallsBackToBilling | functions/index.js:316-326 | a shipping field the request leaves out equals the sanitised billing field |
| ShipmentSanitizer.FieldsFallBack | functions/index.js:302-326 | a field the request leaves out takes the fallback party's value; a missing last name or second address line becomes empty |
| ShipmentSanitizer.GivenTextKept | functions/index.js:296-324 | a non-blank text field of the request is kept, trimmed |
| ShipmentSanitizer.Numeric | functions/index.js:355-359 | undefined, null and '' give the fallback; any other result is the parsed number |
| ShipmentSanitizer.NumericOfInteger | functions/index.js:355-359 | an integer passes through `numeric` unchanged |
| ShipmentSanitizer.Prefix | functions/index.js:335 | `substring(0, n)` gives a prefix of at most n characters, the whole text when it is short, and a non-empty one for a non-empty text |
| ShipmentSanitizer.ItemName | functions/index.js:335 | an item name is non-empty and at most 50 characters |
| ShipmentSanitizer.ItemSku | functions/index.js:336 | an item SKU is never empty |
| ShipmentSanitizer.Units | functions/index.js:337-344 | the units are a whole number, at least 1 |
| ShipmentSanitizer.SellingPrice | functions/index.js:338-340 | the selling price is a whole number |
| ShipmentSanitizer.NormaliseItem | functions/index.js:334-350 | normalising a line fails exactly on a null or undefined line, with the TypeError of reading its name; otherwise the item has a short non-empty name, a SKU, whole units ≥ 1 and a whole price |
| ShipmentSanitizer.FirstNull | functions/index.js:334 | the first null or undefined line: every line before it is an object |
| ShipmentSanitizer.NormaliseItems | functions/index.js:334-350 | every line is normalised, in order, exactly when no line is null or undefined; otherwise the error of the first such line |
| ShipmentSanitizer.ItemsTotalNonNegative | functions/index.js:365 | lines with non-negative prices give a non-negative sub-total |
| ShipmentSanitizer.ConfiguredPickup | functions/index.js:414-426 | a configured pickup name is used only when the configuration has a truthy one, and then it is trimmed and non-blank |
| ShipmentSanitizer.ConfiguredPickupOfString | functions/index.js:415-417 | a configured string with a non-space character is used, trimmed |
| ShipmentSanitizer.DefaultOrderDate | functions/index.js:330 | the default order date is non-blank |
| ShipmentSanitizer.OrderIdOf | functions/index.js:329 | the order id is non-blank, and the current time in decimal when the request has none |
| ShipmentSanitizer.PickupOf | functions/index.js:328 | the pickup location is non-blank, and 'Primary' when the request has none |
| ShipmentSanitizer.PartiesOf | functions/index.js:302-326 | both sanitised parties are well formed |
| ShipmentSanitizer.AssembleOrder | functions/index.js:361-407 | the assembled order carries the sanitised parties and lines, and a non-blank pickup, order id and order date |
| ShipmentSanitizer.AbsentPackageDefaults | functions/index.js:361-365 | missing dimensions and weight are 15 × 15 × 15 and 0.5, and a missing sub-total is Σ selling price × units |
| ShipmentSanitizer.WithConfiguredPickup | functions/index.js:418-423 | only the pickup location changes: to the configured name when there is one, otherwise nothing changes |
| ShipmentSanitizer.ApplyConfiguredPickup | functions/index.js:414-426 | the override block computes the pickup override |
| ShipmentSanitizer.SanitizedOrder | functions/index.js:278-426 | sanitising succeeds exactly when the lines are an accepted non-empty list; otherwise the first null line's TypeError or 'order_items required'; a sanitised order is well formed, keeps one item per line, and has the configured pickup name when there is one |
| ShipmentSanitizer.SanitizeParties | functions/index.js:302-326 | the two blocks compute the sanitised billing party and the shipping party falling back to it |
| ShipmentSanitizer.Missing | functions/index.js:436-439 | a field is reported exactly when it is listed and blank in the order |
| ShipmentSanitizer.MissingFields | functions/index.js:435-442 | the `forEach` collects the blank listed fields in order, then 'order_items' when there are no items |
| ShipmentSanitizer.RequiredFieldsChecked | functions/index.js:429-436 | every required field is one a well-formed order keeps non-blank |
| ShipmentSanitizer.CheckedFieldPresent | functions/index.js:436-439 | a well-formed order's checked fields are not blank |
| ShipmentSanitizer.NothingMissing | functions/index.js:436-439 | with no blank listed field, nothing is reported |
| ShipmentSanitizer.WellFormedHasNothingMissing | functions/index.js:428-446 | the missing-field check never blocks a sanitised order |
| ShipmentSanitizer.CreateShiprocketOrder | functions/index.js:267-489 | unauthenticated without auth; every error in the `try` becomes `internal`; a missing orderData is refused; an order is sent exactly when authenticated with a token, orderData and accepted lines, and the order sent is the well-formed sanitised order; success returns the carrier's data |
| ShipmentOrder.FirstMissing | functions/index.js:518-528 | no field is reported exactly when every listed field is present (truthy, and non-empty when an array); otherwise the reported field is a listed one the order lacks |
| ShipmentOrder.FindMissingField | functions/index.js:524-528 | the `for … of` loop returns the first missing required field |
| ShipmentOrder.LinesCheck | functions/index.js:529-533 | the lines pass exactly when every line is an object with a truthy name, sku, units and selling price; a crash is the TypeError of a null or undefined line |
| ShipmentOrder.CheckLines | functions/index.js:529-533 | the loop over the lines, returning at the first incomplete one, gives the lines' verdict |
| ShipmentOrder.NoonDateShaped | functions/index.js:534 | a `YYYY-MM-DD` date at ' 12:00' has the shape the date check asks for |
| ShipmentOrder.PickupAllowedIffHome | functions/index.js:537-540 | the pickup check passes if and only if the pickup location is 'Home' |
| ShipmentOrder.Validation | functions/index.js:518-540 | an order passes exactly when every required field is present, its lines are an array of complete lines, its date has the `YYYY-MM-DD HH:MM` shape and its pickup is 'Home'; a missing field is refused with "Missing required field: " and the first missing name; after the field check an incomplete line, a misshaped date and a pickup other than 'Home' are each refused with their own message, and the check throws exactly when the lines cannot be iterated or a line is null or undefined |
| ShipmentOrder.LinesOfPassingOrder | functions/index.js:529-533 | lines that pass the check are an array |
| ShipmentOrder.Validate | functions/index.js:516-540 | the checks as run, each returning early, compute the validation verdict |
| ShipmentOrder.BillingPayload | functions/index.js:547-556 | the billing fields are sent as given, with the last name and second line defaulting to '' |
| ShipmentOrder.ShippingFallsBack | functions/index.js:558-567 | a shipping field is the request's when truthy, else the billing field |
| ShipmentOrder.OptionalFieldsDefault | functions/index.js:548-561 | the second address line and last name default to '' on both sides |
| ShipmentOrder.LinesOf | functions/index.js:568-576 | one payload line per order line, each the mapped line |
| ShipmentOrder.BuildPayload | functions/index.js:541-587 | the payload has one item per order line, and shipping_is_billing is true unless the request says false |
| ShipmentOrder.PackageDefaults | functions/index.js:583-586 | dimensions default to 15 and the weight to 0.5 when falsy |
| ShipmentOrder.SuccessReply | functions/index.js:597-603 | the success reply is an object carrying the carrier's order and shipment ids, with success true unless the carrier's body says otherwise |
| ShipmentOrder.FailureReply | functions/index.js:604-611 | the failure reply is an object with success false when the error has no response body |
| ShipmentOrder.CarrierReply | functions/index.js:588-612 | a token error gives the failure reply; a falsy token 'Shiprocket token error.'; a carrier error the failure reply; a carrier answer the success reply |
| ShipmentOrder.ErrorBodyCanClaimSuccess | functions/index.js:605-610 | an error body saying `success: true` is spread over the failure reply, which then claims success |
| ShipmentOrder.CreateShiprocketOrder | functions/index.js:515-612 | 'Auth required.' without auth; a refused validation (a missing field, an incomplete line, a misshaped date or a pickup other than 'Home') returns `{success: false}` with its message without calling the carrier, and a check that throws is uncaught; the carrier is called exactly when validation passes and the token is truthy, with the built payload; otherwise the carrier reply |
| AdminOrders.Sanitize | src/components/AdminOrders.jsx:164-167 | null, undefined and '' give the fallback; a non-blank string gives its trim; a non-blank fallback keeps the result non-blank |
| AdminOrders.ShippingRaw | src/components/AdminOrders.jsx:134 | the raw shipping address is always truthy (`{}` at the end of the chain) |
| AdminOrders.Joined | src/components/AdminOrders.jsx:171 | two falsy lines join to ''; two set lines join with ', ' |
| AdminOrders.AddressSource | src/components/AdminOrders.jsx:172 | a non-empty joined address is used first, then the raw address, then the order's address |
| AdminOrders.BillingAddress | src/components/AdminOrders.jsx:169-172 | the billing address is never blank: the trimmed source when it has text, else 'Sansad Marg' |
| AdminOrders.AddressLinesJoined | src/components/AdminOrders.jsx:137-172 | two address lines without outer space are joined as `line1, line2` |
| AdminOrders.DraftName | src/components/AdminOrders.jsx:136-170 | the customer name is never blank |
| AdminOrders.DraftCity | src/components/AdminOrders.jsx:139-173 | the billing city is never blank |
| AdminOrders.DraftPincode | src/components/AdminOrders.jsx:141-174 | the billing pincode is never blank |
| AdminOrders.DraftState | src/components/AdminOrders.jsx:140-175 | the billing state is never blank |
| AdminOrders.DraftCountry | src/components/AdminOrders.jsx:142-176 | the billing country is never blank |
| AdminOrders.DraftEmail | src/components/AdminOrders.jsx:143-177 | the billing email is never blank |
| AdminOrders.DraftPhone | src/components/AdminOrders.jsx:144-178 | the raw billing phone is never blank |
| AdminOrders.DraftOf | src/components/AdminOrders.jsx:134-178 | no sanitised field of an order is blank |
| AdminOrders.FirstPin | src/components/AdminOrders.jsx:183 | the leftmost standalone six-digit token at or after a position, or none when there is none |
| AdminOrders.DerivedPincode | src/components/AdminOrders.jsx:181-188 | a set pincode other than '110001' is kept; a replacement is always a standalone six-digit token of the address; a missing or default pincode with such a token becomes six digits |
| AdminOrders.RecoveredPinIsLeftmost | src/components/AdminOrders.jsx:183-185 | the recovered token is the leftmost one |
| AdminOrders.TrimmedNonEmpty | src/components/AdminOrders.jsx:192 | the kept segments are trimmed and non-empty, and no more than the parts |
| AdminOrders.Segments | src/components/AdminOrders.jsx:192 | the segments of an address are trimmed and non-empty |
| AdminOrders.DerivedCity | src/components/AdminOrders.jsx:190-198 | a changed city is the next-to-last segment of an address with at least two segments, and a missing or 'New Delhi' city with such an address becomes it |
| AdminOrders.FirstState | src/components/AdminOrders.jsx:202-203 | the first listed state named in the address as a whole word, ignoring case: no earlier state is named |
| AdminOrders.DerivedState | src/components/AdminOrders.jsx:200-208 | a changed state is a listed state named in the address, and no earlier listed state is named; a set state other than 'Delhi' is kept; an empty or 'Delhi' state becomes the first listed state the address names, and stays as it is when the address names none |
| AdminOrders.DelhiNamedKeepsDelhi | src/components/AdminOrders.jsx:202-207 | 'Delhi' is listed first, so an address naming Delhi keeps the default state |
| AdminOrders.CleanDigits | src/components/AdminOrders.jsx:211-222 | the digits of the text when there are exactly `len` of them, otherwise the fallback |
| AdminOrders.BookingPincode | src/components/AdminOrders.jsx:218-222 | the pincode sent is always six digits, the cleaned derived pincode |
| AdminOrders.BookingCity | src/components/AdminOrders.jsx:239 | `derivedCity || billingCity` is the derived city |
| AdminOrders.BookingState | src/components/AdminOrders.jsx:241 | `derivedState || billingState` is the derived state |
| AdminOrders.BookingAddress | src/components/AdminOrders.jsx:180-222 | the booked address has a six-digit pincode and a ten-digit phone (the given phone's digits when there are ten), the sanitised name, address, country and email, and the derived city and state |
| AdminOrders.DerivePincode | src/components/AdminOrders.jsx:181-188 | the `let` reassignment computes the derived pincode |
| AdminOrders.DeriveCity | src/components/AdminOrders.jsx:190-198 | the `let` reassignment computes the derived city |
| AdminOrders.DeriveState | src/components/AdminOrders.jsx:200-208 | the `let` reassignment computes the derived state |
| AdminOrders.Clean | src/components/AdminOrders.jsx:211-222 | the `let` reassignment computes the cleaned digits |
| AdminOrders.DeriveAddress | src/components/AdminOrders.jsx:170-222 | the step-by-step derivation computes the booked address |
| AdminOrders.RoundedNumber | src/components/AdminOrders.jsx:262-272 | `Math.round(parseFloat(v))` is a number exactly when the text parses, and then the whole number within a half of it |
| AdminOrders.ItemNameValue | src/components/AdminOrders.jsx:258 | the chosen item name is always truthy |
| AdminOrders.Units | src/components/AdminOrders.jsx:260 | the units are a whole number or NaN |
| AdminOrders.SellingPrice | src/components/AdminOrders.jsx:262 | the selling price is a whole number exactly when the chosen price parses, else NaN |
| AdminOrders.BookedItemOf | src/components/AdminOrders.jsx:257-266 | reading a null item throws; a booked item has a non-empty name of at most 50 characters that starts the chosen name, and the chosen quantity and price |
| AdminOrders.UnitsDefaultToOne | src/components/AdminOrders.jsx:260 | an item without quantity is booked as one unit |
| AdminOrders.IntegerQuantityKept | src/components/AdminOrders.jsx:260 | a non-zero integer quantity is booked as that many units |
| AdminOrders.IntegerPriceKept | src/components/AdminOrders.jsx:262 | an integer price is booked at that price |
| AdminOrders.BookedList | src/components/AdminOrders.jsx:257-266 | the list is booked, item by item in order, exactly when every item can be booked |
| AdminOrders.FirstUnbookable | src/components/AdminOrders.jsx:257-266 | the items before it can all be booked, and the item at it cannot |
| AdminOrders.BookedItems | src/components/AdminOrders.jsx:257 | no items give []; a truthy non-array throws; an array is booked item by item |
| AdminOrders.SubTotal | src/components/AdminOrders.jsx:272 | the sub-total is 0 without total or amount, and a whole number when it is a number |
| AdminOrders.DimValue | src/components/AdminOrders.jsx:92 | `parseFloat(value) \|\| 0`: the parsed number, 0 when it does not parse |
| AdminOrders.SetDim | src/components/AdminOrders.jsx:92 | the named dimension is set and the others are kept |
| AdminOrders.OrderDate | src/components/AdminOrders.jsx:231 | a Timestamp date is formatted with its time; otherwise today at 12:00 |
| AdminOrders.BookingPayload | src/components/AdminOrders.jsx:228-277 | the payload exists exactly when the items can be booked; every shipping field mirrors billing and shipping_is_billing is true; the billing address is the booked address; the pickup is the selected one when set, else 'Home'; the order id is the order's id as a string; the order date and sub-total are the order's (OrderDate, SubTotal) |
| AdminOrders.BuildPayload | src/components/AdminOrders.jsx:128-277 | the payload built step by step is the booking payload |
| AdminOrders.ShipmentUpdate | src/components/AdminOrders.jsx:287-289 | the stored update sets status 'Shipped' and each returned id that is not undefined, a falsy one as null, and nothing else |
| AdminOrders.ShippedFields | src/components/AdminOrders.jsx:291 | the page's copy gets status 'Shipped' and the returned ids as they are |
| AdminOrders.StoredAndShownIdsAgreeWhenTruthy | src/components/AdminOrders.jsx:287-291 | stored and shown fields agree when both ids are truthy; a missing order id makes them differ |
| AdminOrders.Patched | src/components/AdminOrders.jsx:109 | the map keeps the length, leaves orders with another id unchanged, and spreads the fields over those with the id |
| AdminOrders.PickupLoaded | src/components/AdminOrders.jsx:60-81 | an error or a refusal sets a truthy error and keeps the addresses and selection; success lists the returned addresses (or none) and selects the configured pickup, else the first address's name or id, else keeps the selection |
| AdminOrders.AdminOrdersPage.constructor | src/components/AdminOrders.jsx:14-47 | the page starts with the loaded orders and users and empty pending changes, dimensions and pickup state |
| AdminOrders.AdminOrdersPage.PackageDimensions | src/components/AdminOrders.jsx:85-87 | the edited dimensions of the order, else 15 × 15 × 15 and 0.5 |
| AdminOrders.AdminOrdersPage.UpdatePackageDimension | src/components/AdminOrders.jsx:89-94 | only that order's entry changes, with the one field set to `parseFloat(value) \|\| 0` |
| AdminOrders.AdminOrdersPage.HandleStatusChange | src/components/AdminOrders.jsx:96-99 | only the order's pending status is set |
| AdminOrders.AdminOrdersPage.SaveStatus | src/components/AdminOrders.jsx:101-121 | a save happens exactly with a truthy pending status and an existing order; it writes only that status, patches only that order and drops only its pending entry; otherwise nothing changes |
| AdminOrders.AdminOrdersPage.LoadPickup | src/components/AdminOrders.jsx:59-83 | the pickup state becomes the loaded pickup state and nothing else changes |
| AdminOrders.AdminOrdersPage.BeginBooking | src/components/AdminOrders.jsx:123-126 | booking proceeds exactly for a truthy order not already being booked, which is then marked; nothing else changes |
| AdminOrders.AdminOrdersPage.FinishBooking | src/components/AdminOrders.jsx:281-301 | a reported success on an existing order marks only that order shipped in the store and on the page; otherwise nothing is written; the booking mark is always cleared |
| AdminOrders.RecordShipment | src/components/AdminOrders.jsx:283-290 | the order's document gets the shipment update exactly when the booking succeeded and the document exists; otherwise the store is unchanged |
| Storefront.Incremented | src/App.jsx:197-199 | the map keeps the length; the lines of the product get one more unit and every other line is unchanged |
| Storefront.AddedToCart | src/App.jsx:193-202 | a product already in the cart gets one more unit and the cart keeps its length; otherwise the product is appended with quantity 1; other lines are unchanged and the product is in the cart afterwards |
| Storefront.WithQuantity | src/App.jsx:208-210 | the map keeps the length; the lines of the product get the new quantity and every other line is unchanged |
| Storefront.RemovedFromCart | src/App.jsx:214 | every line of the product is dropped and exactly the others are kept, in order; a product not in the cart changes nothing |
| Storefront.UpdatedQuantity | src/App.jsx:204-212 | a quantity ≤ 0 removes the product; any other sets that product's quantity and changes nothing else |
| Storefront.AddToCartCountsOne | src/App.jsx:193-248 | adding a product to a cart with one line per product raises cartCount by exactly one |
| Storefront.IncrementedCount | src/App.jsx:197-248 | incrementing the one line of a product raises the count by one |
| Storefront.IncrementedSubtotal | src/App.jsx:91-199 | incrementing the one line of a product raises the subtotal (the sum of price times quantity) by its price |
| Storefront.AddToCartAddsPrice | src/App.jsx:91-202 | adding a product to a cart with one line per product raises the subtotal by exactly its price |
| Storefront.IncrementedAbsent | src/App.jsx:197-199 | incrementing an absent product changes nothing |
| Storefront.CartHandlersKeepDistinct | src/App.jsx:193-212 | adding and updating keep one line per product |
| Storefront.DistinctSubseq | src/App.jsx:206-214 | a subsequence of a cart with one line per product has one line per product |
| Storefront.DiscountedTotal | src/App.jsx:92 | `Math.max(subtotal - discount, 0)` is never a negative number; it is NaN exactly when the discount is not a number, and subtotal − discount clamped at 0 for a numeric discount |
| Storefront.ToggledWishlist | src/App.jsx:224-231 | the product's membership flips and every other product's is kept; an absent product is appended with isWishlisted true; a present one is removed, keeping the rest in order |
| Storefront.FlagToggled | src/App.jsx:217-223 | the map keeps the length and flips isWishlisted on exactly the products with that id |
| Storefront.ToggleTwiceRestores | src/App.jsx:216-232 | toggling twice restores every product's wishlist membership and every flag, and the wishlist itself when the product was absent |
| Storefront.CouponMatches | src/App.jsx:100-106 | the lookup finds exactly the coupons whose code is the trimmed, upper-cased input and whose `active` is true |
| Storefront.CouponMatchesIntended | src/App.jsx:100-106 | the same lookup on `isActive`: exactly the coupons with that code whose `isActive` is true |
| Storefront.AppliedCoupon | src/App.jsx:95-124 | no code: no discount and no error; no match: "Invalid or expired coupon."; a past expiry: "Coupon expired."; an error always leaves discount 0; otherwise 'percent' gives subtotal × value / 100 and any other type the value |
| Storefront.CouponWithoutActiveFlagNeverFound | src/App.jsx:104 | a coupon stored without an `active` field is never found |
| Storefront.PercentageCouponTakenAsAmount | src/App.jsx:119-122 | a 'percentage' coupon, as the admin form writes it, is taken as a fixed amount |
| Storefront.Store.constructor | src/App.jsx:79-87 | the store starts with empty cart, wishlist and products, no coupon, discount 0 and no error |
| Storefront.Store.DiscountedTotalNow | src/App.jsx:91-92 | the discounted total is never negative |
| Storefront.Store.AddToCart | src/App.jsx:193-202 | the cart becomes the added-to cart, cartCount goes up by one, and nothing else changes |
| Storefront.Store.UpdateCartQuantity | src/App.jsx:204-212 | the cart becomes the updated cart and nothing else changes |
| Storefront.Store.RemoveFromCart | src/App.jsx:214 | the cart loses every line of the product and nothing else changes |
| Storefront.Store.HandleWishlistToggle | src/App.jsx:216-232 | the products' flag and the wishlist are toggled; the cart and coupon state are unchanged |
| Storefront.Store.MoveToWishlist | src/App.jsx:234-237 | the product leaves the cart, then the wishlist toggle applies |
| Storefront.Store.RemoveFromWishlist | src/App.jsx:239-241 | every wishlist entry of the id is removed, nothing else changes |
| Storefront.Store.MoveToCart | src/App.jsx:243-246 | the wishlist becomes exactly the old wishlist without the entries with the product's id, in order, and the product is then added to the cart |
| Storefront.Store.FetchAndApplyCoupon | src/App.jsx:95-124 | the discount and error become the applied-coupon state; the cart, wishlist, products and typed code are unchanged |
| Storefront.Store.HandleApplyCoupon | src/App.jsx:126-128 | the typed code is applied against the current subtotal |
| CartView.Available | src/components/Cart.jsx:56-63 | a coupon is available exactly when it has started, has not ended, and its positive usage limit is not used up; a set date that is not a timestamp throws |
| CartView.AsObjects | src/components/Cart.jsx:55 | each coupon document is read as `{id, ...data}`, in order |
| CartView.AvailableAmong | src/components/Cart.jsx:54-63 | the filter succeeds exactly when no coupon throws, and then keeps exactly the available coupons, in order |
| CartView.OfferedCoupons | src/components/Cart.jsx:45-74 | every offered coupon is available and has isActive true; when no date throws, exactly the available active coupons are offered |
| CartView.EligibilityByMinimum | src/components/Cart.jsx:298-303 | without a minimum any non-negative subtotal is eligible; with a non-zero minimum, exactly the subtotals at or above it are |
| CartView.CouponDescription | src/components/Cart.jsx:94-110 | no coupon gives ''; a stored description is returned as it is; otherwise the discount text followed by the minimum text |
| CartView.DiscountText | src/components/Cart.jsx:101-103 | a 'percentage' coupon reads `X% off`, any other `₹X off` |
| CartView.MinimumText | src/components/Cart.jsx:105-107 | ' on purchase of ₹M' is appended exactly when the minimum is above zero |
| CartView.NormalizedItem | src/components/Cart.jsx:115-124 | a line without mainImage but with image gets mainImage from it and brand defaulting to 'Bold & Brew'; any other line is unchanged, and no other field changes |
| CartView.NormalizedAll | src/components/Cart.jsx:115-124 | each line is normalised, in order |
| CartView.NormalizedCartItems | src/components/Cart.jsx:113-124 | the shown lines are exactly the normalised forms of the lines that are not excluded, in cart order; each comes from a kept line, every kept line gives one, and none is dropped when nothing is excluded |
| CartView.NoExcludedLineShown | src/components/Cart.jsx:37-114 | no shown line has an excluded name |
| CartView.NormalizedKeepsName | src/components/Cart.jsx:115-124 | normalising keeps the name |
| CartView.OutOfStockBlocksCheckout | src/components/Cart.jsx:369-372 | a shown line with stock 0 disables checkout |
| CartView.InStockCartChecksOut | src/components/Cart.jsx:369-372 | a non-empty cart whose lines are all shown and none has stock 0 can check out |
| CartView.NormalizedKeepsStock | src/components/Cart.jsx:115-124 | normalising keeps the stock |
| CartView.CouponPicker.constructor | src/components/Cart.jsx:41-42 | the picker starts with no selected code and the dropdown closed |
| CartView.CouponPicker.Select | src/components/Cart.jsx:76-80 | selecting sets both the selected and the page's code and closes the dropdown |
| CartView.CouponPicker.Apply | src/components/Cart.jsx:82-86 | the page's apply handler fires exactly when a code is set |
| CartView.CouponPicker.Remove | src/components/Cart.jsx:88-92 | removing clears both codes and closes the dropdown |
| Catalogue.CategoryToggled | src/components/ProductsPage.jsx:65-71 | the category's selection flips and every other category's is kept; an unselected one is appended; a selected one is removed, keeping the rest in order |
| Catalogue.SubseqMissingShorter | src/components/ProductsPage.jsx:68 | removing a selected category shortens the selection |
| Catalogue.ToggleTwiceRestores | src/components/ProductsPage.jsx:65-71 | toggling an unselected category twice gives back the selection |
| Catalogue.ToggleTwiceKeepsSelection | src/components/ProductsPage.jsx:65-71 | toggling a selected category twice keeps the same categories selected, with that one moved last |
| Catalogue.Cleared | src/components/ProductsPage.jsx:95-100 | clearing selects no category and no rating, with the price range 0 to 2000 |
| Catalogue.DirectRatingField | src/components/ProductsPage.jsx:81 | the direct rating is one of rating, averageRating, avgRating, ratingValue |
| Catalogue.DirectRating | src/components/ProductsPage.jsx:81-85 | a direct rating is used exactly when it is present, non-empty and numeric, as its number |
| Catalogue.ReviewScores | src/components/ProductsPage.jsx:87-89 | one score per review whose score reads as a number, in review order, so each score counts as often as it was given; a number is a kept score exactly when some review scores it |
| Catalogue.MeanWithin | src/components/ProductsPage.jsx:90 | the mean of the scores lies within any bounds of the scores |
| Catalogue.SumWithin | src/components/ProductsPage.jsx:90 | the sum of scores within bounds lies within n times the bounds |
| Catalogue.ExtractRating | src/components/ProductsPage.jsx:77-93 | the ratingMap entry first, then the direct rating, then the mean of the numeric review scores, else 0 |
| Catalogue.ReviewRating | src/components/ProductsPage.jsx:86-91 | a review rating exists exactly when reviews is an array with at least one numeric score |
| Catalogue.ReviewRatingOnScale | src/components/ProductsPage.jsx:86-91 | review scores on a scale give a review rating on that scale |
| Catalogue.Unexcluded | src/components/ProductsPage.jsx:104-107 | exactly the products whose name is not excluded are kept, in order |
| Catalogue.Searched | src/components/ProductsPage.jsx:110-118 | a blank term keeps every product; otherwise the step fails on a name that is not a string and keeps exactly the products whose lower-cased name contains a word of the term, in order |
| Catalogue.CategoryFiltered | src/components/ProductsPage.jsx:120-132 | no selection or 'Instant Coffee' keeps every product; otherwise the step fails on a category that is not text and keeps exactly the products matching a selected category ('Accessories & Gifting' by access/gift), in order |
| Catalogue.PriceFiltered | src/components/ProductsPage.jsx:134-138 | exactly the products with min ≤ Number(price) ≤ max are kept, in order |
| Catalogue.RatingFiltered | src/components/ProductsPage.jsx:140-143 | without a selected rating nothing is dropped; otherwise exactly the products rated at least that are kept, in order |
| Catalogue.Sorted | src/components/ProductsPage.jsx:146-161 | the sort is a permutation of its input |
| Catalogue.RelevanceKeepsOrder | src/components/ProductsPage.jsx:158-159 | 'relevance' and any unknown key keep the filtered order |
| Catalogue.PriceLowHighAscends | src/components/ProductsPage.jsx:148-149 | 'price-low-high' over numeric prices gives non-decreasing prices |
| Catalogue.PriceHighLowDescends | src/components/ProductsPage.jsx:150-151 | 'price-high-low' over numeric prices gives non-increasing prices |
| Catalogue.RatingDescends | src/components/ProductsPage.jsx:156-157 | 'rating' gives non-increasing ratings |
| Catalogue.Listed | src/components/ProductsPage.jsx:103-161 | the listing is computed exactly when no searched name and no selected-on category is of the wrong type; it then holds each product that passes the exclusion, search, category, price and rating steps exactly as often as the input does, and no other product |
| Catalogue.SearchedDefined | src/components/ProductsPage.jsx:110-118 | the search fails exactly when the term is not blank and an unexcluded product's name is not a string |
| Catalogue.CategoryDefined | src/components/ProductsPage.jsx:120-132 | after the search, the category step fails exactly when a selection other than 'Instant Coffee' meets a searched product whose category is neither falsy nor a string |
| Catalogue.SearchedCounts | src/components/ProductsPage.jsx:110-118 | the search keeps each matching product as often as it was given, and drops the rest |
| Catalogue.CategoryCounts | src/components/ProductsPage.jsx:120-132 | the category step keeps each matching product as often as it was given, and drops the rest |
| Catalogue.ListingCounts | src/components/ProductsPage.jsx:103-161 | the staged filters together keep each product that passes every step as often as given and drop the rest |
| Catalogue.RatingCounts | src/components/ProductsPage.jsx:140-143 | the rating step keeps each product rated high enough as often as it was given, and drops the rest |
| Catalogue.CalculateDiscount | src/components/ProductsPage.jsx:163-166 | null exactly when there is no original price or it is at most the price; otherwise a whole number |
| Catalogue.DiscountIsPercentage | src/components/ProductsPage.jsx:163-166 | a real saving on a non-negative price is a whole percentage between 0 and 100 |
| ImageUtils.CloudImage | src/utils/imageUtils.js:2-8 | a lookup gives undefined or one of the five CDN URLs |
| ImageUtils.CloudImagesNonEmpty | src/utils/imageUtils.js:2-8 | every CDN URL is non-empty, so a found entry is truthy |
| ImageUtils.GetCloudImageUrl | src/utils/imageUtils.js:18-21 | a falsy name or an unmapped one gives the placeholder, a mapped one its URL; the result is never empty |
| ImageUtils.ImageField | src/utils/imageUtils.js:40-46 | mainImage, then image, then the nested product's mainImage, then its image, else the placeholder; the result is truthy or the placeholder |
| ImageUtils.GetProductImageUrl | src/utils/imageUtils.js:28-47 | a falsy item gives the placeholder; a name found in the CDN map gives its URL; otherwise the item's own image fields; the result is always truthy |
| ImageUtils.CloudImageTakesPrecedence | src/utils/imageUtils.js:32-37 | an item whose name is mapped gets the CDN URL whatever its image fields hold |
| ProductList.Listed | src/components/ProductList.jsx:34-37 | a non-array gives no cards; otherwise exactly the products whose name is not excluded, in order |
| ProductList.CardOf | src/components/ProductList.jsx:74-178 | both buttons are disabled exactly when stock is the number 0; the badge is shown exactly when the original price is truthy and greater than the price |
| ProductList.DiscountBadge | src/components/ProductList.jsx:151-160 | the badge exists exactly when the original price is truthy and greater, and holds a number or NaN |
| ProductList.BadgeAgreesWithListingDiscount | src/components/ProductList.jsx:151-160 | on numeric prices the card's badge and the listing page's calculateDiscount agree on when and what |
| ProductList.BadgeIsPercentage | src/components/ProductList.jsx:160 | on a non-negative price the badge is a percentage between 0 and 100 |
| BestSellers.LiveMatch | src/components/BestSellerSection.jsx:50-52 | the match is the first catalogue product, in catalogue order, that is unexcluded and has the same normalised name; no match means no such product exists |
| BestSellers.OriginalPrice | src/components/BestSellerSection.jsx:55 | the first non-nullish of the live originalPrice, mrp, compareAtPrice, the static originalPrice and the price |
| BestSellers.Slug | src/components/BestSellerSection.jsx:66 | the same length as the name, with spaces made dashes and letters lower-cased |
| BestSellers.CardId | src/components/BestSellerSection.jsx:66 | the live id, else the static id, else the slug of the name, which throws when the name is not a string |
| BestSellers.Fields | src/components/BestSellerSection.jsx:54-71 | live price and stock win unless nullish, a live name unless falsy; the brand defaults to 'Bold & Brew' and is truthy; wishlisted exactly when the live one is; defined exactly when the id can be computed |
| BestSellers.CardObject | src/components/BestSellerSection.jsx:59-72 | the card is an object with the computed fields; every other key is the live product's, else the static entry's |
| BestSellers.NormalizedProduct | src/components/BestSellerSection.jsx:49-73 | an object whose price is the live price when there is one, else the static one |
| BestSellers.OutOfStockIffZero | src/components/BestSellerSection.jsx:70-84 | a card is out of stock exactly when the merged stock is the number 0 |
| OrderConfirmed.PaidTotal | src/components/OrderConfirmed.jsx:43 | a truthy payment amount is read as paise and divided by 100; otherwise the checkout total, then the cart total, then the fallback |
| OrderConfirmed.ClientOrder | src/components/OrderConfirmed.jsx:40-53 | the client order has exactly the seven fields, status 'In Process', the payment id, the server time and the paid total with fallback 0 |
| OrderConfirmed.FirstWhere | src/components/OrderConfirmed.jsx:29-33 | a `limit(1)` query finds something exactly when some stored order matches, and then the first match read as `{id, ...data}` |
| OrderConfirmed.WhereAfterAdd | src/components/OrderConfirmed.jsx:40-59 | after adding a matching order to a collection with no match, the read-back query finds exactly that order |
| OrderConfirmed.EntryOf | src/components/OrderConfirmed.jsx:18-21 | the page goes home exactly when there is neither a payment nor a checkout |
| OrderConfirmed.ConfirmationPage.constructor | src/components/OrderConfirmed.jsx:14-15 | no order data yet and no e-mail sent |
| OrderConfirmed.ConfirmationPage.SaveOrder | src/components/OrderConfirmed.jsx:23-67 | no payment id writes nothing; an order already stored with that id is adopted and nothing is written; otherwise exactly the client order is appended and read back |
| OrderConfirmed.ConfirmationPage.FetchSaved | src/components/OrderConfirmed.jsx:71-95 | the order found by razorpayPaymentId, else by paymentId, else the page's order is kept |
| OrderConfirmed.ConfirmationPage.Mount | src/components/OrderConfirmed.jsx:17-97 | it redirects exactly when the entry check says so and then writes nothing; once confirmed with a payment id, some stored order carries that id |
| OrderConfirmed.ConfirmationPage.SendEmail | src/components/OrderConfirmed.jsx:100-203 | a send is attempted exactly when there is order data, no e-mail was sent yet, there is a recipient and the lines can be built (items an array or absent, no null item, every picked price a number); the sent flag is set only by a status of 200 |
| OrderConfirmed.TextPriceStopsEmail | src/components/OrderConfirmed.jsx:122-127 | a line whose price is text makes the line building throw, so no e-mail is attempted |
| OrderConfirmed.NonArrayItemsStopEmail | src/components/OrderConfirmed.jsx:122 | truthy items that are not an array make the line building throw, so no e-mail is attempted |
| OrderConfirmed.DisplayAmount | src/components/OrderConfirmed.jsx:330 | the stored total unless nullish, else the paid total with fallback null |
| OrderConfirmed.PaymentMode | src/components/OrderConfirmed.jsx:332 | 'Razorpay' whenever a payment id is known, else the checkout's mode or 'N/A'; never empty |
| OrderConfirmed.DisplayPaymentId | src/components/OrderConfirmed.jsx:353 | the payment id when there is one, else 'N/A' |
| OrderConfirmed.DisplayOrderId | src/components/OrderConfirmed.jsx:354 | one of the two payment order ids, the stored one, or 'N/A'; never empty |
| OrderConfirmed.DisplayName | src/components/OrderConfirmed.jsx:365 | the shipping full name when set; never empty |
| OrderConfirmed.DisplayEmail | src/components/OrderConfirmed.jsx:367 | the e-mail recipient when there is one; never empty |
| OrderConfirmed.DisplayAddress | src/components/OrderConfirmed.jsx:368 | the stored address when set; never empty |
| OrderDetails.FormatAmount | src/components/OrderDetails.jsx:54-62 | 'N/A' exactly for null or undefined; a number above 1000 is divided by 100; other numbers as they are; anything else as its text |
| OrderDetails.LargeAmountsShownAsRupees | src/components/OrderDetails.jsx:58 | a whole number of paise above 1000 shows that many hundredths of a rupee |
| OrderDetails.PaymentId | src/components/OrderDetails.jsx:87 | one of the four payment id fields, else 'N/A'; never empty |
| OrderDetails.PaymentStatus | src/components/OrderDetails.jsx:89 | 'Success' or 'Failed', and 'Success' only with a payment id |
| OrderDetails.SuccessIffPaymentId | src/components/OrderDetails.jsx:87-89 | 'Success' exactly when a payment id other than 'N/A' is set |
| OrderDetails.PaymentMode | src/components/OrderDetails.jsx:88 | a truthy paymentMode, else a truthy payment_method, else 'Razorpay' when the payment id is not the text 'N/A', else 'N/A' (so 'N/A' without any payment id); never empty |
| OrderDetails.AmountValue | src/components/OrderDetails.jsx:90 | the first non-nullish of the four amount fields, else 0; never nullish |
| OrderDetails.DisplayStatus | src/components/OrderDetails.jsx:112-113 | an empty status or any spelling of 'completed' shows 'In Process', anything else itself; never 'completed' and never empty |
| OrderDetails.NeverCompleted | src/components/OrderDetails.jsx:111-113 | 'Completed' is not shown in any letter case |
| OrderDetails.ShowsCancelButton | src/components/OrderDetails.jsx:114 | the button is shown exactly when the status is not 'cancelled' in any case |
| OrderDetails.SpaceRunsToDash | src/components/OrderDetails.jsx:115 | no white space is left, and a text without white space is unchanged |
| OrderDetails.SpaceRunsKeepsText | src/components/OrderDetails.jsx:115 | the replacement keeps every character other than white space and '-', in order |
| OrderDetails.StatusClass | src/components/OrderDetails.jsx:115 | the status class is computed exactly when the shown status is a string (an empty or 'completed' status, or a string status); any other truthy status makes `toLowerCase` throw and the page fail to render; for a shown string status it is that status lower-cased with each white-space run turned into one dash |
| OrderDetails.CancelledOrderHidesButton | src/components/OrderDetails.jsx:124-128 | after a cancel the order shows 'Cancelled' and no Cancel button |
| OrderDetails.NumberOrZero | src/components/OrderDetails.jsx:182 | the number when the value reads as one, else 0 |
| OrderDetails.LineSubtotalCases | src/components/OrderDetails.jsx:180-182 | a line with numeric price and non-zero quantity costs their product; an unreadable price costs 0 |
| OrderDetails.OrderView.constructor | src/components/OrderDetails.jsx:84 | the view shows the loaded order |
| OrderDetails.OrderView.CancelOrder | src/components/OrderDetails.jsx:117-135 | cancelled exactly when the order has a stored id; then the stored and the shown order both get status 'Cancelled', otherwise neither changes |
| OrdersPage.FormatAmount | src/components/OrdersPage.jsx:50-54 | 'N/A' exactly for null or undefined; numbers as rupees with no paise rule; anything else as its text |
| OrdersPage.PagesAgreeUpToAThousand | src/components/OrdersPage.jsx:50-54 | the list and the order page agree up to 1000 and differ by a factor of 100 above it |
| OrdersPage.PaymentBadge | src/components/OrdersPage.jsx:75 | 'Success' exactly when a payment id field is set, else 'Pending' |
| OrdersPage.RowStatus | src/components/OrdersPage.jsx:76-79 | the same status rule as the order page, never empty |
| OrdersPage.FirstItem | src/components/OrdersPage.jsx:80 | the first element of a non-empty items array, the first character of a non-empty items string, else null |
| OrdersPage.FirstProductName | src/components/OrdersPage.jsx:82 | 'Order' without a first item, else the item's name, product name or 'Product'; never empty |
| OrdersPage.FirstNameFallbacks | src/components/OrdersPage.jsx:80-82 | no items gives 'Order'; a first item with neither name field gives 'Product', as does a non-empty items string |
| MyAccount.PaiseOfNumber | src/components/MyAccount.jsx:40-47 | a whole number, within half of the amount when above 1000, else within half of 100 times it |
| MyAccount.KeepAmountChars | src/components/MyAccount.jsx:43 | only digits, points and minus signs remain, and a text made of them is kept whole |
| MyAccount.ParseAmountToPaise | src/components/MyAccount.jsx:37-48 | null or undefined give 0; numbers follow the paise rule; text is cleaned, parsed and gives 0 when unparsable; NaN exactly for a NaN number; the result is whole |
| MyAccount.DigitTextAmount | src/components/MyAccount.jsx:43-47 | a string of digits reads as the number it spells |
| MyAccount.TextWithoutNumberIsZero | src/components/MyAccount.jsx:43-45 | text with no digit, point or minus counts as 0 |
| MyAccount.PaiseAgreeWithOrderPage | src/components/MyAccount.jsx:40-41 | for whole amounts the paise read here are 100 times the rupees the order page shows |
| MyAccount.Plus | src/components/MyAccount.jsx:62 | a sum is a number exactly when both sides are, and then their sum |
| MyAccount.TotalPaise | src/components/MyAccount.jsx:62 | the total is a number exactly when no amount is NaN, and then whole |
| MyAccount.NonNegativeAmount | src/components/MyAccount.jsx:37-42 | a missing or non-negative number reads as non-negative paise |
| MyAccount.TotalNonNegative | src/components/MyAccount.jsx:62 | amounts that are missing or non-negative numbers add up to a non-negative total |
| MyAccount.ToDate | src/components/MyAccount.jsx:50-59 | a falsy value gives null, a Timestamp its own date, any other truthy value a date |
| MyAccount.CreatedDates | src/components/MyAccount.jsx:69 | one date per order, read from its createdAt |
| MyAccount.MostRecentDate | src/components/MyAccount.jsx:65-74 | the loop's result is the latest of the orders' dates |
| MyAccount.LatestNoneIffNoDates | src/components/MyAccount.jsx:66-73 | the result is null exactly when no order has a date |
| MyAccount.LatestIsMaximum | src/components/MyAccount.jsx:68-73 | with valid dates the result is one of them and no earlier than any |
| MyAccount.RecentOrders | src/components/MyAccount.jsx:121 | at most five orders, the first ones in order; all of them when there are at most five |
| ProductForm.Blanks | src/components/CreateProduct.jsx:15-17 | exactly n empty strings |
| ProductForm.EmptyForm | src/components/CreateProduct.jsx:7-24 | every text field empty, seven empty image slots, four empty steps, three empty FAQs, not a best seller |
| ProductForm.ImageReplaced | src/components/CreateProduct.jsx:38-45 | the slot holds the new value and every other slot is kept |
| ProductForm.Trimmed | src/components/CreateProduct.jsx:105-108 | `trim()` succeeds exactly on a string, giving its trimmed text |
| ProductForm.TrimmedOrEmpty | src/components/CreateProduct.jsx:114-119 | a falsy value reads as '', a string as its trimmed text, and it throws exactly on a truthy value that is not a string |
| ProductForm.SavedSteps | src/components/CreateProduct.jsx:114 | it throws exactly when a set step is not a string; otherwise the kept steps are exactly the non-empty trimmed ones, in order and each as often as given |
| ProductForm.SavedFaq | src/components/CreateProduct.jsx:117-120 | defined exactly when both sides can be trimmed, and then the two trimmed sides |
| ProductForm.SavedFaqs | src/components/CreateProduct.jsx:116-121 | it throws exactly when some entry cannot be trimmed; otherwise exactly the cleaned entries with a non-empty side, in order and each as often as given |
| ProductForm.SavedData | src/components/CreateProduct.jsx:104-121 | defined exactly when every text field is a string and the landing content can be cleaned; then trimmed texts, parseFloat prices, parseInt stock and the given images |
| ProductForm.StrList | src/components/CreateProduct.jsx:114 | an array of the strings, in order |
| ProductForm.FaqList | src/components/CreateProduct.jsx:116-121 | an array of `{question, answer}` objects, in order |
| ProductForm.Fields | src/components/EditProduct.jsx:124-143 | exactly the thirteen saved fields, with the kept images and the server time as updatedAt |
| EditProduct.DefaultStepValues | src/components/EditProduct.jsx:8-13 | the four default steps |
| EditProduct.DefaultFaqs | src/components/EditProduct.jsx:21-81 | the three default FAQs |
| EditProduct.InitialImages | src/components/EditProduct.jsx:59 | the product's non-blank images, in order and each as often as given, or none when images is not an array |
| EditProduct.Padded | src/components/EditProduct.jsx:60-61 | the images first, then empty strings up to seven slots; never cut |
| EditProduct.InitialSteps | src/components/EditProduct.jsx:72-74 | exactly four steps: the product's first four padded with empty strings, else the defaults |
| EditProduct.FaqEntry | src/components/EditProduct.jsx:77-80 | reading an entry throws exactly when it is null or undefined |
| EditProduct.FaqEntries | src/components/EditProduct.jsx:77-80 | the first three entries read in order; it throws exactly when one of them is missing |
| EditProduct.InitialFaqs | src/components/EditProduct.jsx:76-81 | at most three FAQs from the product, else the defaults |
| EditProduct.InitialInside | src/components/EditProduct.jsx:75 | a non-blank text is kept, otherwise the default; it throws exactly on a truthy value that is not a string |
| EditProduct.InitialForm | src/components/EditProduct.jsx:62-82 | defined exactly when the landing content can be read; name, brand, description and main image as stored or else empty; padded images, the steps, the landing text and FAQs above; prices and stock as text (empty for null or undefined); best seller only for `true` |
| EditProduct.ImagesVerdict | src/components/EditProduct.jsx:107-110 | it passes exactly when every slot is empty or starts with 'http'; otherwise the first bad slot decides, with its 1-based message |
| EditProduct.FieldsPassIff | src/components/EditProduct.jsx:99-106 | the field checks pass exactly when the four texts are non-blank strings, the numbers parse and the main image starts with 'http' |
| EditProduct.TextVerdict | src/components/EditProduct.jsx:99-102 | the text checks pass exactly when name, brand, description and main image are non-blank strings |
| EditProduct.NumberVerdict | src/components/EditProduct.jsx:103-105 | the number checks pass exactly when both prices are set and parse as floats and the stock is set and parses as an integer |
| EditProduct.EditPassesIff | src/components/EditProduct.jsx:98-113 | the form passes exactly when every field check and every image slot passes |
| EditProduct.PassingImagesAreText | src/components/EditProduct.jsx:107-123 | filtering the images of a passing form does not throw |
| EditProduct.EditKeptImages | src/components/EditProduct.jsx:123 | it throws exactly on a set slot that is not a string; otherwise exactly the non-blank images, in order and each as often as given |
| EditProduct.UpdateData | src/components/EditProduct.jsx:123-143 | defined exactly when the images and every text can be read, and then with the kept images |
| EditProduct.SubmitWritesOnlyValidForms | src/components/EditProduct.jsx:115-153 | only a passing form is written; success exactly when it passes, can be built and the product's document exists, and then exactly the update data is merged into it; a failing check shows its message |
| EditProduct.Editor.constructor | src/components/EditProduct.jsx:35-55 | the empty form and no notice |
| EditProduct.Editor.Load | src/components/EditProduct.jsx:57-83 | a given product whose form can be built fills the form; otherwise the form is kept |
| EditProduct.Editor.ImageChange | src/components/EditProduct.jsx:90-96 | only the one image slot changes |
| EditProduct.Editor.Validate | src/components/EditProduct.jsx:98-113 | the loop's verdict is the form's verdict |
| EditProduct.Editor.Submit | src/components/EditProduct.jsx:115-153 | the notice and the stored products are the submit outcome above; the form is kept |
| CreateProduct.FieldsPassIff | src/components/CreateProduct.jsx:67-74 | the field checks pass exactly when the texts are non-blank, the main image starts with 'http', both prices are set and positive and the stock is set and not negative |
| CreateProduct.TextVerdict | src/components/CreateProduct.jsx:67-70 | the text checks pass exactly when name, brand, description and main image are non-blank strings |
| CreateProduct.NumberVerdict | src/components/CreateProduct.jsx:72-74 | the number checks pass exactly when neither price is unset or parses to at most 0 and the stock is neither unset nor a negative integer |
| CreateProduct.CreateKeptImages | src/components/CreateProduct.jsx:77-102 | it throws exactly on a slot that is not a string; otherwise exactly the non-blank images, in order and each as often as given |
| CreateProduct.ImagesVerdict | src/components/CreateProduct.jsx:77-82 | it throws exactly on a slot that is not a string, passes exactly when every non-blank slot starts with 'http', else fails with the one message |
| CreateProduct.KeptVerdict | src/components/CreateProduct.jsx:78-82 | it passes exactly when every kept image starts with 'http', and never throws |
| CreateProduct.KeptAllHttp | src/components/CreateProduct.jsx:77-82 | every kept image starts with 'http' exactly when every non-blank slot does |
| CreateProduct.CreateVerdict | src/components/CreateProduct.jsx:66-86 | it passes exactly when the fields and the images pass; with good fields the failure is the image message |
| CreateProduct.CreateFields | src/components/CreateProduct.jsx:104-124 | the saved fields plus createdAt, both timestamps the server time |
| CreateProduct.ProductData | src/components/CreateProduct.jsx:100-124 | defined exactly when the images and every text can be read, and then with the kept images |
| CreateProduct.SubmitAddsOnlyValidForms | src/components/CreateProduct.jsx:88-127 | one document is added exactly when the form passes and can be built; it holds the product data, the error is then empty and the success message set; without a document there is no success message; a failing check's message is the error |
| CreateProduct.OutcomeOfForm | src/components/CreateProduct.jsx:88-127 | deciding on the verdict and data computed for a form gives that form's submit outcome |
| CreateProduct.CheckKept | src/components/CreateProduct.jsx:78-82 | the loop's verdict is the kept images' verdict |
| CreateProduct.Creator.constructor | src/components/CreateProduct.jsx:7-28 | the empty form, with the error and success messages empty |
| CreateProduct.Creator.ImageChange | src/components/CreateProduct.jsx:38-45 | only the one image slot changes |
| CreateProduct.Creator.RemoveImage | src/components/CreateProduct.jsx:57-64 | the slot becomes empty, the others stay |
| CreateProduct.Creator.ImageBlur | src/components/CreateProduct.jsx:47-55 | the page's one error message becomes the slot's message when the slot is set and does not start with 'http', and is cleared otherwise |
| CreateProduct.Validate | src/components/CreateProduct.jsx:66-86 | the method's verdict is the form's verdict |
| CreateProduct.Creator.Submit | src/components/CreateProduct.jsx:88-127 | both messages are reset, then the error, the success message and the stored products become the submit outcome of the form: a failing check's message; nothing for a check that throws; 'Failed to create product: ' and the reason when the product data cannot be built; otherwise one added document and 'Product created successfully! ID: ' with its id |
| CreateProduct.Creator.Finish | src/components/CreateProduct.jsx:89-125 | after resetting both messages, the messages and documents are the outcome for the given verdict and data |
| CreateProduct.Creator.Reset | src/components/CreateProduct.jsx:130-148 | the form returns to the empty form |
| CouponManagement.EmptyCouponForm | src/components/CouponManagement.jsx:51-64 | empty code and value, a percentage discount, used count 0 and active |
| CouponManagement.EditForm | src/components/CouponManagement.jsx:69-83 | the coupon's code or ''; the type defaults to percentage; isActive is kept unless undefined, then true; an expiry only when one is set |
| CouponManagement.NumberOrZero | src/components/CouponManagement.jsx:101-103 | always a number: the value read as a number when truthy, else 0 |
| CouponManagement.CouponData | src/components/CouponManagement.jsx:96-109 | defined exactly when code and description are strings; the code upper-cased and trimmed, the amounts read as numbers with 0 for missing limits, used count defaulting to 0, dates only when set |
| CouponManagement.Fields | src/components/CouponManagement.jsx:96-109 | exactly the twelve saved fields |
| CouponManagement.SavedCodeIsLookupCode | src/components/CouponManagement.jsx:97 | the stored code is the trimmed, upper-cased text the storefront looks up |
| CouponManagement.UpperTrimCommute | src/components/CouponManagement.jsx:97 | upper-casing and trimming may be done in either order |
| CouponManagement.UpperKeepsSpace | src/components/CouponManagement.jsx:97 | upper-casing neither makes nor removes white space |
| CouponManagement.TrimUpperStart | src/components/CouponManagement.jsx:97 | trimming the start commutes with upper-casing |
| CouponManagement.TrimUpperEnd | src/components/CouponManagement.jsx:97 | trimming the end commutes with upper-casing |
| CouponManagement.AdminCouponsNeverApplied | src/components/CouponManagement.jsx:96-117 | a store holding only coupons saved by this page never applies a coupon at the cart |
| CouponManagement.AdminCouponFoundIntended | src/components/CouponManagement.jsx:96-117 | with a lookup on `isActive`, an active coupon saved by this page is found under any code that trims and upper-cases to its code |
| CouponManagement.FieldsCarry | src/components/CouponManagement.jsx:96-109 | the saved document holds the record's code and active flag |
| CouponManagement.DateOrNull | src/components/CouponManagement.jsx:40-41 | a date or null; a Timestamp gives its date |
| CouponManagement.Loaded | src/components/CouponManagement.jsx:37-42 | an object whose dates are read as dates or null, and whose id is a stored id field if any, else the document id |
| CouponManagement.LoadedAll | src/components/CouponManagement.jsx:37-42 | every document read in turn |
| CouponManagement.CouponList | src/components/CouponManagement.jsx:37-43 | a reordering of all the loaded documents |
| CouponManagement.SortedNewestFirst | src/components/CouponManagement.jsx:43 | with numeric creation times the sorted coupons run from the newest to the oldest |
| CouponManagement.NewestFirst | src/components/CouponManagement.jsx:33-43 | with numeric creation times the listed coupons run from the newest to the oldest |
| CouponManagement.IsExpired | src/components/CouponManagement.jsx:155-158 | an unset expiry never expires; a date expires exactly when it is before now |
| CouponManagement.StatusLabel | src/components/CouponManagement.jsx:424 | 'Expired' when expired, 'Active' exactly when not expired and active, else 'Inactive' |
| CouponManagement.ListedExpiryIsDate | src/components/CouponManagement.jsx:39-42 | a listed coupon's expiry is a date or null, so its label does not depend on date parsing |
| CouponManagement.CouponPage.constructor | src/components/CouponManagement.jsx:12-27 | no coupons, the empty form, nothing being edited |
| CouponManagement.CouponPage.Reload | src/components/CouponManagement.jsx:33-49 | the listed coupons are the store's coupon list |
| CouponManagement.CouponPage.ResetForm | src/components/CouponManagement.jsx:51-67 | the empty form, nothing edited, the form hidden |
| CouponManagement.CouponPage.Edit | src/components/CouponManagement.jsx:69-85 | the coupon is being edited, the form is filled from it and shown |
| CouponManagement.CouponPage.Submit | src/components/CouponManagement.jsx:87-127 | refused exactly without a code or value; an edit merges the data into the edited coupon's document, a create appends it with createdAt; after a save the form is reset and the list reloaded; it saves exactly when the form is submittable, its record can be built, and it is a create or an edit of a stored coupon with a string id; a refusal or failure leaves the documents, form, list, visibility and message unchanged |
| CouponManagement.CouponPage.ToggleActive | src/components/CouponManagement.jsx:143-153 | written exactly when the coupon's document exists: the negated flag and the time, then a reload; otherwise nothing changes |
| CouponManagement.Toggled | src/components/CouponManagement.jsx:145-148 | exactly two fields are written: the negated active flag and the time of the change |
| CouponManagement.CouponPage.Delete | src/components/CouponManagement.jsx:129-141 | declined changes nothing; confirmed removes the document, reloads and shows the success message |
| Checkout.EffectiveLabel | src/components/Checkout.jsx:116-119 | 'Other' takes the trimmed custom label, or 'Other' when it is blank; an empty label gives 'Home'; any other label is kept; never empty |
| Checkout.DashRuns | src/components/Checkout.jsx:123 | only letters, digits and single dashes remain, and no dash follows a replaced character |
| Checkout.DashRunsKeepsSlugChars | src/components/Checkout.jsx:123 | the letters and digits that remain are exactly the input's, in their order |
| Checkout.DashRunsSqueezes | src/components/Checkout.jsx:123 | the replacement equals masking every other character with a dash and squeezing each run of dashes to one, so one dash stands exactly where each run of other characters stood |
| Checkout.DropLeadingDashes | src/components/Checkout.jsx:123 | the result is the input's own tail, every character dropped before it is a dash, and it does not start with a dash; a slug stays a slug |
| Checkout.DropTrailingDashes | src/components/Checkout.jsx:123 | the result is the input's own head, every character dropped after it is a dash, and it does not end with a dash; a slug stays a slug |
| Checkout.Slug | src/components/Checkout.jsx:123 | a non-empty id of lower-case letters, digits and single inner dashes |
| Checkout.SlugKeepsLettersAndDigits | src/components/Checkout.jsx:123 | a label with no letter or digit after lower-casing is saved as 'saved'; any other label's id holds exactly its lower-cased letters and digits, in order |
| Checkout.TrimKeepsSlugChars | src/components/Checkout.jsx:123 | dropping the leading and trailing dashes keeps every letter and digit |
| Checkout.SlugIdempotent | src/components/Checkout.jsx:123 | a slug is its own slug, so saving twice under one label writes one document |
| Checkout.PlainLabelIsSlug | src/components/Checkout.jsx:123 | a label of lower-case letters and digits is its own slug |
| Checkout.LowerKeepsSlug | src/components/Checkout.jsx:123 | lower-casing leaves a slug unchanged |
| Checkout.DashRunsKeepsSlug | src/components/Checkout.jsx:123 | the dash replacement leaves a slug unchanged |
| Checkout.InitialForm | src/components/Checkout.jsx:12-21 | every address field empty and saveForFuture false |
| Checkout.CopyFields | src/components/Checkout.jsx:46-54 | each listed field becomes the address's value or '', every other field is kept |
| Checkout.AddressApplied | src/components/Checkout.jsx:43-57 | the seven address fields from the address or '', saveForFuture false, every other field kept |
| Checkout.ApplyTwice | src/components/Checkout.jsx:43-57 | applying an address twice is applying it once |
| Checkout.LegacyAddress | src/components/Checkout.jsx:65-67 | a legacy entry exists exactly when the user document exists and has a truthy address, and is a truthy object |
| Checkout.AddressList | src/components/Checkout.jsx:69-70 | each address document read as `{id, ...data}`, in order |
| Checkout.Combined | src/components/Checkout.jsx:71 | the subcollection when non-empty, else the legacy address alone, else none; empty exactly when both are missing |
| Checkout.LegacyBranchUnreachable | src/components/Checkout.jsx:71-80 | whenever there is a legacy address the combined list is non-empty, so the second branch never runs |
| Checkout.Payload | src/components/Checkout.jsx:124-128 | the address data with label and updatedAt set, and nothing else changed |
| Checkout.SavedAfterPersist | src/components/Checkout.jsx:132-135 | the new entry first, followed by exactly the previous entries with another id, in order |
| Checkout.PersistedAddressUnique | src/components/Checkout.jsx:132-135 | after saving, the new entry carries the label and no later entry has its slug |
| Checkout.CreateOrderBody | src/components/Checkout.jsx:179-182 | the amount is the total rounded to whole rupees, in INR |
| Checkout.SubmitLaunch | src/components/Checkout.jsx:142-310 | login first, then the SDK, then the order call; the server widget opens exactly for a created order with an id, else the fallback charges the total in paise, and it opens exactly when the client widget opens (otherwise the fallback fails) |
| Checkout.TinyTotalRefused | src/components/Checkout.jsx:180 | a total under half a rupee is sent as 0 and the order endpoint answers 400 |
| Checkout.ChargedMatchesRecordedOnWholeRupees | src/components/Checkout.jsx:180-217 | on whole-rupee totals the paise charged equal the paise recorded |
| Checkout.ChargedDiffersFromRecorded | src/components/Checkout.jsx:180-217 | 99.60 rupees is charged as 10000 paise but recorded as 9960 |
| Checkout.CreateOrderBodyIntended | src/components/Checkout.jsx:178-182 | the order body with the total rounded to whole paise, in rupees, and the currency INR |
| Checkout.ChargedMatchesRecordedIntended | src/components/Checkout.jsx:180-217 | with that body, every total worth at least one paisa is charged exactly the paise the confirmation records |
| Checkout.FallbackOrder | src/components/Checkout.jsx:291-300 | status 'In Process', the user, the total, the form as shipping, the payment id, the order id or null, and the date |
| Checkout.FallbackOrderNoted | src/components/Checkout.jsx:291-300 | the fallback order also holds the cart items and the note that it was saved without server verification |
| Checkout.VerifyBody | src/components/Checkout.jsx:231-241 | the three gateway ids, the cart items, the total, the user, the form and its saveForFuture flag, and the payment mode 'Razorpay' |
| Checkout.VerifyBodyWritable | src/components/Checkout.jsx:231-241 | once the server accepts the body the page sends, the order write goes through exactly when the cart is not undefined, since the total and the shipping form are always set |
| Checkout.ServerPayment | src/components/Checkout.jsx:217 | the gateway reply with the amount set to the total in paise |
| Checkout.ClientPayment | src/components/Checkout.jsx:281-285 | the two ids and the total in paise |
| Checkout.Handler | src/components/Checkout.jsx:210-306 | the server path asks for verification and writes nothing itself; the fallback writes the order itself and asks for nothing; both pass the total in paise |
| Checkout.FallbackRecordsInProcess | src/components/Checkout.jsx:291-300 | the fallback's order is recorded 'In Process' under the signed-in user without any verification |
| Checkout.CheckoutPage.constructor | src/components/Checkout.jsx:12-26 | the initial form, no saved address, label 'Home' |
| Checkout.CheckoutPage.ApplyAddressToForm | src/components/Checkout.jsx:43-57 | a falsy address changes nothing, any other fills the form |
| Checkout.CheckoutPage.LoadSaved | src/components/Checkout.jsx:60-84 | the saved list is the combined list; when it is non-empty its first entry fills the form and is selected |
| Checkout.CheckoutPage.SelectSaved | src/components/Checkout.jsx:109-114 | the id is selected and the first saved address with it fills the form |
| Checkout.CheckoutPage.PersistSavedAddress | src/components/Checkout.jsx:121-140 | the payload is merged under the label's slug and put first in the list, and the address is merged into the user document |
| UserOrders.TimeOf | src/getOrdersForUser.js:18-19 | a Timestamp gives its date; a value without a truthy seconds field gives nothing |
| UserOrders.SortKey | src/getOrdersForUser.js:18-19 | the date, else the creation time, else the epoch |
| UserOrders.Fetched | src/getOrdersForUser.js:12-14 | exactly the user's orders, in stored order and each as often as stored, each read as its id together with its data |
| UserOrders.OrdersForUser | src/getOrdersForUser.js:8-23 | nobody signed in gives no orders; otherwise a reordering of the user's orders |
| UserOrders.ListedOrdersAreTheUsers | src/getOrdersForUser.js:12-14 | every listed order is one of the user's documents |
| UserOrders.SortedNewestFirst | src/getOrdersForUser.js:17-21 | when every order has a valid date the list runs from the newest to the oldest |
| UserOrders.StampedOrdersDated | src/getOrdersForUser.js:18 | an order with a Timestamp date sorts by that time |
| UserOrders.UndatedOrdersAtEpoch | src/getOrdersForUser.js:18 | an order with neither field sorts as the epoch |
| UserOrders.GetOrdersForUser | src/getOrdersForUser.js:8-24 | the in-place sort returns exactly the specified order list |
| AdminDashboard.Coerced | src/components/AdminDashboard.jsx:83 | price, originalPrice and stock are stored as numbers, every other field as given |
| AdminDashboard.Changed | src/components/AdminDashboard.jsx:80-86 | the same products in the same order, with the field set only on those with the id |
| AdminDashboard.ChangeTouchesOnlyField | src/components/AdminDashboard.jsx:83 | an edit sets the field on the products with the id and changes no other field of any product |
| AdminDashboard.ChangeOfUnlistedId | src/components/AdminDashboard.jsx:82-84 | an edit for an unlisted id changes nothing |
| AdminDashboard.LaterEditWins | src/components/AdminDashboard.jsx:80-86 | two edits of the same field leave the later value |
| AdminDashboard.SaveFields | src/components/AdminDashboard.jsx:94-103 | exactly the eight fields; stock defaults to 0 and images to the main image alone |
| AdminDashboard.ActiveCount | src/components/AdminDashboard.jsx:114 | the number of positions in the coupon list that hold a coupon with a truthy isActive; so all of them exactly when every coupon is active, and 0 exactly when none is |
| AdminDashboard.Preview | src/components/AdminDashboard.jsx:155-157 | nothing while loading or without coupons, else the first five or fewer |
| AdminDashboard.MoreCount | src/components/AdminDashboard.jsx:175-185 | shown exactly once loaded with more than five coupons, and then the tiles and the count add up to all of them |
| AdminDashboard.SummaryCoversAll | src/components/AdminDashboard.jsx:155-185 | once loaded the tiles and the "+N more" count cover every coupon exactly once |
| AdminDashboard.DiscountText | src/components/AdminDashboard.jsx:171 | a percentage coupon shows `v%`, any other `₹v` |
| AdminDashboard.Dashboard.constructor | src/components/AdminDashboard.jsx:48-64 | no products or coupons, coupons loading, nothing being saved |
| AdminDashboard.Dashboard.Load | src/components/AdminDashboard.jsx:48-67 | every product document read in order, and the coupons in the coupon page's order |
| AdminDashboard.Dashboard.HandleChange | src/components/AdminDashboard.jsx:80-86 | the products become the changed list and nothing else changes |
| AdminDashboard.Dashboard.OnDeleted | src/components/AdminDashboard.jsx:70-75 | a falsy id changes nothing; otherwise the list becomes the old list without the products of that id (see DeletionRemovesExactly); coupons, saving id and message unchanged |
| AdminDashboard.Dashboard.HandleSave | src/components/AdminDashboard.jsx:88-110 | saved exactly when the product is listed and its document exists; then the eight fields are merged into it and the success message shown; nothing is written otherwise |
| AdminDashboard.DeletionRemovesExactly | src/components/AdminDashboard.jsx:73 | no remaining product has the deleted id, every other product remains as often as it was listed, and the order is kept |

## Left out

- **Network and platform:**
  - Firestore and HTTP: the database is an in-memory sequence of documents in collection order. Firestore's own id ordering, indexes, security rules and offline cache are not modelled. Every HTTP reply (Razorpay, Shiprocket) is a parameter.
  - The Razorpay SDK, EmailJS and FormSubmit: they are foreign services. Only the request each handler builds and its reaction to the reply are modelled.
  - HMAC-SHA256 in `verifyRazorpayPayment`: the `hmac` function parameter stands for it, because a hash cannot be computed meaningfully here.
  - Wall-clock reads (`Date.now()`), `serverTimestamp()` and new document ids: parameters (`now`, `newId`), because they are not deterministic.
  - Concurrency: OrderConfirmed's effects run one after another in the model. Checkout's background payment verification and its fallback order write are not modelled as concurrent tasks.
- **Numbers and formatting:**
  - Numbers are exact rationals, not IEEE doubles. Float rounding, `Infinity`, exponent and hex notation, and `-0` are left out.
  - `toFixed`, `toLocaleString` and `Intl` date formatting are locale-dependent. This includes `formatDate` in `src/components/OrderDetails.jsx:64-73` and `src/components/OrdersPage.jsx:56-60`. Where a formatted date is needed it is a parameter.
  - Average ratings are exact averages; the rounding of the displayed float is left out.
- **Catalogue and storefront:**
  - `localeCompare` in the name sort of `ProductsPage.jsx` is the `collate` parameter. The `TypeError` that sort throws on a product without a name is left out.
  - Catalogue.ToggleTwiceRestores: proved only for a category that was not selected. Toggling a selected category twice moves it to the end of the list, which Catalogue.ToggleTwiceKeepsSelection states.
  - The live stock sync in `src/App.jsx:140-153`: it is a database subscription.
  - The `localStorage` persistence in `src/App.jsx:158-167`: it is browser storage.
  - Authentication and the rest of the application shell: they are routing and UI.
- **Orders and account:**
  - Reading a property of a null review or order item yields `undefined` in the model. JavaScript would throw there, and the pages do not catch it.
  - The phone-number fallback chains of OrderDetails and OrderConfirmed (`src/components/OrderDetails.jsx:91-110` and `src/components/OrderConfirmed.jsx:308-330`) are left out. They are display-only.
  - OrderConfirmed.ConfirmationPage.SendEmail: a throw from building the e-mail body or from the e-mail service itself is taken as a non-200 status. Only the throws of the line building are modelled, through OrderConfirmed.EmailBuildable.
  - AdminOrders.Booking: the payload fields that never depend on the order are not in the record (`src/components/AdminOrders.jsx:229-276`). These are `channel_id` "", `comment` "Order from Bold & Brew", the empty last names and second address lines, `payment_method` "Prepaid", the shipping, gift-wrap and transaction charges and `total_discount` (all 0), and each item's empty `discount` and `tax` and its `hsn` 446. They are constants, so no property of the booking turns on them.
  - MyAccount: `new Date(x)` is the `construct` parameter. The fetch's `orderBy("createdAt")` is left out; the model takes the documents in the order given.
- **Best sellers and images:**
  - The static best-seller data of `BestSellerSection.jsx` is a parameter.
  - Prototype keys of `cloudImageMap` (such as `toString`) are ignored.
- **Product forms:**
  - The per-field input setters (`handleInputChange`) are plain state writes.
  - EditProduct's `handleDelete`, its `onSaved`/`onClose` callbacks and its timeouts are UI plumbing.
  - A caught error's message is abstracted to a single failure outcome.
  - CreateProduct stores an unparsable price or stock as NaN, as the source does.
  - No lemma is stated that tidying the image steps twice gives the same result.
- **Coupons:**
  - Date formatting (`toISOString().slice(0, 16)`), Timestamp conversion and `getTime` are parameters (`isoMinutes`, `toStamp`, `timeOf`).
  - The `window.confirm` of a deletion is the `confirmed` parameter.
  - Loading flags, load errors shown only in the console, and the success-message timeout are left out.
- **Checkout:**
  - The `localStorage` drafts (`src/components/Checkout.jsx:29-39,101-107`), environment configuration, alerts, navigation and `handleChange` are browser or UI plumbing.
  - The saved address always fills the form, because `fetchSavedAddress` reads the form state through a stale closure. Checkout.CheckoutPage.LoadSaved states this.
  - The legacy order branch cannot be reached; Checkout.LegacyBranchUnreachable states this.
  - The result of the payment verification call is ignored by the page, and so by the model.
- **getOrdersForUser:**
  - `Array.prototype.sort` is modelled as a stable insertion sort. JavaScript guarantees stability since ES2019. A comparator returning NaN keeps order.
  - `toDate` exists only on Timestamps.
- **AdminDashboard:** Firestore's rejection of `undefined` field values in `updateDoc` is not modelled, and neither are the alerts or loading text.
- **Not part of this model:**
  - `createRazorpayPreference` in `functions/index.js:133-178`;
  - `server/server.js`, `api/createRazorpayOrder.js` and `src/api/razorpay.js`;
  - the email service and `buildEmailHtml`;
  - `ProductRating.jsx`;
  - the UI-only components (layout, navigation, modals and styling).
- **Text:**
  - Case mapping (`Text.UpperChar`, `Text.LowerChar`, `Text.ToUpper`, `Text.ToLower`) covers the ASCII letters only. Other letters keep their case, which JavaScript's `toUpperCase` and `toLowerCase` would change.
  - Strings are sequences of Unicode code points, not UTF-16 code units, so a character outside the Basic Multilingual Plane counts as one character, not two.
  - The members affected by both points are: the coupon codes (CouponManagement.CouponData, CouponManagement.SavedCodeIsLookupCode, Storefront.CouponMatches); the exclusion name keys (CartView.NameKey, and through it CartView, BestSellers and ProductList); the search and category lowercasing of Catalogue.Searched and Catalogue.CategoryFiltered; Checkout.Slug; OrderDetails.DisplayStatus; and the 50-character cuts of ShipmentSanitizer.Prefix and AdminOrders.BookedItemOf.
- **Object spread:**
  - JsValue.Spread: `{...v}` copies nothing from a value that is not an object. JavaScript copies a string's characters and an array's elements under the keys "0", "1", …, so the model leaves out those keys. The key-by-index reading of strings and arrays is not part of the `Get` model either. The members this reaches are ShipmentOrder.SuccessReply and ShipmentOrder.FailureReply (`functions/index.js:597-611`) when the carrier's reply or error body is a string or an array, and JsValue.With and JsValue.Merge when their base is one.
- **Object equality:** objects and arrays compare structurally in the model (`StrictEq`). JavaScript compares them by reference; the source compares only ids and strings.

The admin coupon page and the storefront's coupon lookup disagree about the coupon schema:
- the admin page writes `isActive` and `discountType: "percentage"`;
- the storefront queries `active == true` and tests for `"percent"`.

This is modelled as written. Three lemmas spell out what follows:
- Storefront.CouponWithoutActiveFlagNeverFound;
- Storefront.PercentageCouponTakenAsAmount;
- CouponManagement.AdminCouponsNeverApplied.

## Findings

| source | as written | input that shows it | evidently intended | confidence | as-written member | corrected member |
|---|---|---|---|---|---|---|
| functions/index.js:630-641 | `getShipmentRates` throws `invalid-argument` for a delivery pincode whose length is not six, but it does so inside the `try`, and the `catch` re-throws every error as `internal` "Failed to fetch rates" | `delivery_pincode: "123"` | the caller receives the `invalid-argument` error with its message | not executed | ShiprocketAux.GetShipmentRates, ShiprocketAux.BadPincodeReportedAsInternal | ShiprocketAux.GetShipmentRatesIntended, ShiprocketAux.RatesRequestIntended |
| src/components/Checkout.jsx:180-217 | the order is created for `Math.round(total)` rupees, which the server turns into `100 ×` that many paise, while the payment passed on records `Math.round(total * 100)` paise | a total of 99.60 rupees: 10000 paise charged, 9960 recorded | the gateway order is for the total in paise, as recorded | not executed | Checkout.CreateOrderBody, Checkout.ChargedDiffersFromRecorded | Checkout.CreateOrderBodyIntended, Checkout.ChargedMatchesRecordedIntended |
| src/App.jsx:100-106 | the storefront finds a coupon only when its `active` field is true, but the admin page saves the flag as `isActive` and never writes `active` | any coupon saved by the admin page, looked up by its own code | the lookup filters on `isActive`, the field the coupon schema names | not executed | Storefront.CouponMatches, CouponManagement.AdminCouponsNeverApplied | Storefront.CouponMatchesIntended, CouponManagement.AdminCouponFoundIntended |

The as-written members are the ones the storefront, checkout and booking flows of the model use, because they are what the code does; each corrected member stands beside them with its intended property proved.
