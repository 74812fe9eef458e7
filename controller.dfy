/** `ClearingCostController`: masking a card number, and the decision procedure of the
    `payment-cards-cost` endpoint, which answers with a status and a body. */
module Controller {
  import opened Wrappers
  import opened PanValidation
  import opened CostStore
  import Service

  /** A response body: a plain message, or the country code with the cost. */
  datatype Body = Message(text: string) | CostBody(country: string, cost: Cents)

  datatype Response = Response(status: int, body: Body)

  const InvalidFormatMessage := "Invalid card number. Please check the format and length."
  const InvalidCardMessage := "Invalid card number."
  const ErrorMessage := "An error occurred while processing the request."

  /** `maskCardNumber`: up to four characters are returned as they are; anything longer
      becomes three masked groups followed by its last four characters. */
  function MaskCardNumber(cardNumber: string): (masked: string)
    ensures |cardNumber| <= 4 ==> masked == cardNumber
    ensures |cardNumber| > 4 ==> |masked| == 19 && masked[15..] == cardNumber[|cardNumber| - 4..]
    ensures |cardNumber| > 4 ==> forall i :: 0 <= i < 15 ==> masked[i] == (if i % 5 == 4 then ' ' else '*')
  {
    if |cardNumber| <= 4 then cardNumber
    else "**** **** **** " + cardNumber[|cardNumber| - 4..]
  }

  /** Masking shows nothing of a long card number but its last four characters: two
      such numbers that end alike are masked alike. */
  lemma MaskShowsOnlyLastFour(a: string, b: string)
    requires |a| > 4 && |b| > 4 && a[|a| - 4..] == b[|b| - 4..]
    ensures MaskCardNumber(a) == MaskCardNumber(b)
  {
  }

  /** `calculateClearingCost` (the endpoint): 400 for an invalid PAN; otherwise look up
      the country and ask the service for the cost, answering 200 with both, 400 if the
      service reports an invalid argument and 500 for any other failure. */
  function CalculateClearingCost(store: Store, lookup: Service.CountryLookup, cardNumber: string): (response: Response)
    ensures !IsPanValid(Some(cardNumber)) ==> response == Response(400, Message(InvalidFormatMessage))
    ensures response.status == 200 <==> Service.CalculateClearingCost(store, lookup, Some(cardNumber)).Success?
    ensures response.status == 200 ==>
      response.body == CostBody(lookup(cardNumber).value, Service.CalculateClearingCost(store, lookup, Some(cardNumber)).value)
    ensures response.status == 500 <==> IsPanValid(Some(cardNumber)) && Service.CalculateClearingCost(store, lookup, Some(cardNumber)).Failure?
    ensures response.status == 500 ==> response.body == Message(ErrorMessage)
    ensures response.status in {200, 400, 500}
  {
    if !IsPanValid(Some(cardNumber)) then
      Response(400, Message(InvalidFormatMessage))
    else
      match lookup(cardNumber)
      case Failure(_) => Response(500, Message(ErrorMessage))
      case Success(alpha2) =>
        match Service.CalculateClearingCost(store, lookup, Some(cardNumber))
        case Failure(e) =>
          if e.InvalidArgument? then Response(400, Message(InvalidCardMessage))
          else Response(500, Message(ErrorMessage))
        case Success(cost) => Response(200, CostBody(alpha2, cost))
  }

  /** The handler for an invalid argument is never reached: the endpoint validates the
      PAN itself before the service would. */
  lemma InvalidArgumentHandlerUnreachable(store: Store, lookup: Service.CountryLookup, cardNumber: string)
    ensures CalculateClearingCost(store, lookup, cardNumber).body != Message(InvalidCardMessage)
  {
  }

  /** An invalid PAN is answered without the lookup or the store. */
  lemma InvalidCardNumberAnsweredAlone(store1: Store, store2: Store, lookup1: Service.CountryLookup, lookup2: Service.CountryLookup, cardNumber: string)
    requires !IsPanValid(Some(cardNumber))
    ensures CalculateClearingCost(store1, lookup1, cardNumber) == CalculateClearingCost(store2, lookup2, cardNumber)
  {
  }

  /** The documented example: "45717360" issued in "US", stored at 5.00, answers 200
      with country "US" and cost 5.00. */
  lemma EndpointExample(lookup: Service.CountryLookup)
    requires lookup("45717360") == Success("US")
    ensures CalculateClearingCost(map[1 := ClearingCost(Some(1), "US", 500)], lookup, "45717360") == Response(200, CostBody("US", 500))
  {
    Service.StoredCostExample(lookup);
  }
}
