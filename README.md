# Card clearing-cost API: a Dafny model of its core

The service computes a "clearing cost" for a payment card. It validates the card's
Primary Account Number (PAN), looks up the issuing country (an ISO alpha-2 code) with
an external BIN lookup, and returns the cost stored for that country. When no cost is
stored for the country it returns a default of 10.00. This project models that core
and proves properties of it:

- `Wrappers` (`wrappers.dfy`) declares the `Option` and `Result` types used throughout.
- `PanValidation` (`pan_validation.dfy`) models the PAN checks of
  `ClearingCostService`. The format check accepts 8 to 19 ASCII decimal digits. The
  checksum is the Luhn mod-10 formula of ISO/IEC 7812-1, Annex B, written as the
  source's right-to-left loop with a running `sum` and an `isSecond` flag. The loop is
  proved equal to a recursive definition of the Luhn sum. About that sum the model
  proves digit bounds and that a single mistyped digit is always detected. It checks
  the documented PAN `45717360` (sum 30, valid) and also works through a 16-digit PAN,
  `4571736000000043`, that the loop rejects (sum 41, `RejectedExamplePan`).
- `CostStore` (`cost_store.dfy`) models the `clearing_cost` table as a map from id to
  `ClearingCost{id, countryCode, cost}`, with costs in integer cents (5.00 is 500). It
  also models the repository's `findByCountryCode` query.
- `Service` (`service.dfy`) models `calculateClearingCost`, `findByCountryCode`
  and the default record as functions of the table and of the country lookup. The
  lookup is a function parameter that returns a country code or a failure. A class
  `ClearingCostService` holds the table, and its methods `UpdateClearingCost` and
  `DeleteClearingCost` change it the way the source's methods do. Lemmas connect the
  writes to later resolutions.
- `Controller` (`controller.dfy`) models `maskCardNumber` and the decision procedure
  of the `payment-cards-cost` endpoint. The endpoint becomes a function that returns
  a status and a body.

Exceptions become values. `IllegalArgumentException` is `InvalidArgument`.
`ResourceNotFoundException` is `NotFound`. A failed lookup is `LookupFailed`. A query
that matches several rows is `QueryFailed(NonUniqueResult)`. A null reference is
`None`.

Where the source's documentation and its code disagree, the model follows the code:
the endpoint documents 400 for "error obtaining information", but the code answers 500
when the lookup fails, because only `IllegalArgumentException` is mapped to 400.

`findByCountryCode` in the repository is a Spring Data query that returns at most one
row. The `country_code` column is not unique, so several rows can match. A
single-result query then raises an error instead of choosing one. The model reports
this as `QueryFailed(NonUniqueResult)`, and the endpoint answers 500. That behaviour
comes from the framework, not from the repository's own text.

## Model

| member | source | states |
|---|---|---|
| `PanValidation.MatchesDigits` | src/main/java/com/etraveli/cardcostapi/service/ClearingCostService.java:137 | `matches("\\d+")` holds iff the string is non-empty and every character is an ASCII digit |
| `PanValidation.IsValidPanFormat` | src/main/java/com/etraveli/cardcostapi/service/ClearingCostService.java:133-138 | false for null; otherwise true iff the length is in 8..19 and every character is a decimal digit |
| `PanValidation.Contribution` | src/main/java/com/etraveli/cardcostapi/service/ClearingCostService.java:152-157 | a digit, doubled or not and reduced by 9 when above 9, contributes a value in 0..9 |
| `PanValidation.LuhnSumFromPrepend` | src/main/java/com/etraveli/cardcostapi/service/ClearingCostService.java:151-159 | one loop step: adding a character on the left adds its contribution, doubled iff an odd number of characters stand to its right |
| `PanValidation.IsValidLuhn` | src/main/java/com/etraveli/cardcostapi/service/ClearingCostService.java:145-161 | the right-to-left loop with `sum` and `isSecond` accepts iff the Luhn sum, with the rightmost digit not doubled, is a multiple of 10 |
| `PanValidation.IsPanValid` | src/main/java/com/etraveli/cardcostapi/service/ClearingCostService.java:124-126 | valid iff non-null, 8..19 decimal digits and a Luhn sum divisible by 10; the checksum only runs on such strings, and on every one of them, accepted or not, the sum lies in 0..171 |
| `PanValidation.LuhnSumFromBounds` | src/main/java/com/etraveli/cardcostapi/service/ClearingCostService.java:151-159 | over decimal digits the running sum stays between 0 and 9 per digit |
| `PanValidation.LuhnSumBounds` | src/main/java/com/etraveli/cardcostapi/service/ClearingCostService.java:160 | the Luhn sum of a digit string lies in 0..9·length, so for a PAN it fits a Java `int` |
| `PanValidation.ContributionInjective` | src/main/java/com/etraveli/cardcostapi/service/ClearingCostService.java:153-157 | at a fixed position, different digits contribute different values |
| `PanValidation.LuhnSumFromReplace` | src/main/java/com/etraveli/cardcostapi/service/ClearingCostService.java:151-159 | changing one character changes the sum by exactly the difference of its old and new contributions at that position |
| `PanValidation.SingleDigitErrorDetected` | src/main/java/com/etraveli/cardcostapi/service/ClearingCostService.java:145-161 | a PAN that passes the checksum fails it after any single digit is changed to another digit |
| `PanValidation.ValidExamplePan` | src/main/java/com/etraveli/cardcostapi/controller/ClearingCostController.java:132 | the documented PAN `45717360` has Luhn sum 30 and is valid |
| `PanValidation.RejectedExamplePan` | src/main/java/com/etraveli/cardcostapi/service/ClearingCostService.java:151-160 | `4571736000000043` has Luhn sum 41 and is rejected |
| `CostStore.FindByCountryCode` | src/main/java/com/etraveli/cardcostapi/repository/ClearingCostRepository.java:24 | empty iff no row has the code; the row itself when exactly one does; an error iff two different rows share the code |
| `Service.CalculateClearingCost` | src/main/java/com/etraveli/cardcostapi/service/ClearingCostService.java:82-92 | invalid-argument iff the PAN is invalid; else the lookup's failure; else the stored cost of the country's only record, exactly 10.00 when it has none, a query error when several; it is a function of the table and writes nothing |
| `Service.FindByCountryCode` | src/main/java/com/etraveli/cardcostapi/service/ClearingCostService.java:71-74 | not-found iff no record has the code; otherwise the country's only record, or a query error when several share it |
| `Service.ClearingCostService.UpdateClearingCost` | src/main/java/com/etraveli/cardcostapi/service/ClearingCostService.java:37-43 | absent id: not-found and the table is unchanged; otherwise the record keeps its id, takes the given code and cost, and every other record is untouched |
| `Service.ClearingCostService.DeleteClearingCost` | src/main/java/com/etraveli/cardcostapi/service/ClearingCostService.java:49-52 | absent id: not-found and nothing deleted; otherwise exactly the entry for that id is removed |
| `Service.InvalidCardNumberConsultsNothing` | src/main/java/com/etraveli/cardcostapi/service/ClearingCostService.java:84-86 | an invalid PAN gives invalid-argument whatever the lookup and the table hold |
| `Service.StoredCostExample` | src/test/java/com/etraveli/cardcostapi/ClearingCostServiceTest.java:134-147 | `45717360` issued in `US`, with `US` stored at 5.00, costs exactly 5.00 |
| `Service.DefaultClearingCost` | src/main/java/com/etraveli/cardcostapi/service/ClearingCostService.java:111-116 | cost 10.00, the given code and no id, so it equals no row of any table whose rows carry the id they are stored under |
| `Service.DefaultCostExample` | src/main/java/com/etraveli/cardcostapi/service/ClearingCostService.java:89-90 | `45717360` issued in `ZZ`, with only `US` stored, costs exactly 10.00 |
| `Service.UpdateThenCalculate` | src/main/java/com/etraveli/cardcostapi/service/ClearingCostService.java:40-42 | after an update gives a record a country code no other record has, that country's cards cost the new amount |
| `Service.DeleteThenCalculate` | src/main/java/com/etraveli/cardcostapi/service/ClearingCostService.java:49-52 | after deleting a country's only record, its cards cost the default and finding it by code is not-found |
| `Controller.MaskCardNumber` | src/main/java/com/etraveli/cardcostapi/controller/ClearingCostController.java:168-173 | up to 4 characters: unchanged; longer: 19 characters, `**** **** **** ` then the input's last four |
| `Controller.MaskShowsOnlyLastFour` | src/main/java/com/etraveli/cardcostapi/controller/ClearingCostController.java:172 | two card numbers longer than 4 that end in the same four characters are masked identically |
| `Controller.CalculateClearingCost` | src/main/java/com/etraveli/cardcostapi/controller/ClearingCostController.java:130-156 | invalid PAN: 400 with the format message; 200 iff the service yields a cost, with the lookup's code and that cost; 500 with the error message iff the PAN is valid and the service fails |
| `Controller.InvalidArgumentHandlerUnreachable` | src/main/java/com/etraveli/cardcostapi/controller/ClearingCostController.java:149-151 | the "Invalid card number." answer never occurs, because the endpoint validates the PAN before the service does |
| `Controller.InvalidCardNumberAnsweredAlone` | src/main/java/com/etraveli/cardcostapi/controller/ClearingCostController.java:136-138 | the answer to an invalid PAN does not depend on the lookup or the table |
| `Controller.EndpointExample` | src/main/java/com/etraveli/cardcostapi/controller/ClearingCostController.java:140-148 | `45717360` issued in `US`, with `US` stored at 5.00, is answered 200 with `US` and 5.00 |

## Left out

- The rate limiter (`RateLimiterFilter.java`): the token bucket belongs to the Bucket4j library, and the filter only forwards a request or answers 408.
- The BIN lookup (`BinlistService.java`) is an HTTP call. It is modelled as a function from PAN to country code or failure. The endpoint calls it twice, once itself and once inside the service. Because the model uses one function, both calls give the same answer. A remote service could answer differently each time.
- A lookup response whose `alpha2` is null: the model has only a code or one of the two failures.
- `saveClearingCost` and `findAll` are not modelled. They pass straight through to the repository, and new ids come from the database.
- `GlobalExceptionHandler.java`: the mapping of not-found to 404 and of other exceptions to 500 with timestamps and paths is transport glue.
- Exception and log messages, and logging itself. The masked card number is only logged.
- Framework validation of requests (`@Pattern` on the card number, `@Valid` on bodies) is not modelled. The endpoint model starts where the method body starts.
- `BigDecimal` scale and precision: costs are integer cents.
- UpdateClearingCost: the source mutates the loaded entity with setters and saves it. The model replaces the record's value in the table. Sharing of the returned entity object is not modelled.
- UpdateClearingCost/DeleteClearingCost: each call is modelled as one atomic step. In the source each is a `findById` followed by a separate `save` or `deleteById` (ClearingCostService.java:38-42, :50-51) with no transaction around them, and requests run concurrently; interleavings of the two repository calls (a delete between the find and the save, say) are not modelled, and the contracts hold for a call in isolation.
- UpdateClearingCost: a request body whose `countryCode` or `cost` is null cannot be represented, because the model's record has non-null fields. In the source `@Valid` accepts such a body (the entity carries no validation constraints), the setters store the null, and `save` fails on the `nullable = false` columns (entity/ClearingCost.java:20 and :23); the call ends in an exception and the stored row keeps its old values.
- IsValidLuhn: the running sum is an unbounded integer. Java's 32-bit `int` overflows only on very long strings: about 21,900 characters at U+FFFF (the loop adds about 98,000 per such character on average), or about 239 million digits (a digit adds at most 9, doubled or not). `isPanValid` runs the checksum only on format-valid PANs, and `IsPanValid` proves the sum stays within 0..171 on every one of them.
- Java strings are UTF-16 code units and Dafny characters are Unicode scalar values. They differ for characters outside the Basic Multilingual Plane, and for an unpaired surrogate, which a Java string can hold and a Dafny string cannot. The format check rejects both, so a direct call of `isValidLuhn` on such a string could sum differently.
- MaskCardNumber: lengths are counted in Unicode characters, not UTF-16 code units. In Java, `"abc"` followed by U+1F600 has `length()` 5 and is masked to `**** **** **** ` and its last four code units, while the model sees 4 characters and returns it unchanged. The endpoint only masks a PAN that has passed validation (ClearingCostController.java:143), which is all ASCII digits, where the two agree.
- A null card number at the endpoint: the parameter is required, so the endpoint model takes a non-null string.
