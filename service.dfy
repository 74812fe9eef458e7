/** `ClearingCostService`: resolving the clearing cost of a card, finding a record by
    country code, and updating and deleting records by id. The country lookup
    (`BinlistService`, an HTTP call) is a function given as a parameter. */
module Service {
  import opened Wrappers
  import opened PanValidation
  import opened CostStore

  /** Why the lookup gave no country code: the HTTP request failed, or the response
      carried no country (a null body or country dereferenced by the caller). */
  datatype LookupError = RequestFailed | NoCountryInResponse

  /** `getCountryCodeFromCardNumber(pan).getCountry().getAlpha2()`: the issuing
      country's ISO alpha-2 code, or the reason there is none. */
  type CountryLookup = string -> Result<string, LookupError>

  /** The exceptions the service throws, as values. */
  datatype ServiceError =
    | InvalidArgument                // IllegalArgumentException: the PAN is not valid
    | NotFound                       // ResourceNotFoundException
    | LookupFailed(lookupError: LookupError)
    | QueryFailed(queryError: QueryError)

  /** The cost charged for a country that has no record: 10.00. */
  const DefaultCost: Cents := 1000

  /** `getDefaultClearingCost`: a record built in memory and never stored, so it has no id
      and is none of the rows of any table. */
  function DefaultClearingCost(countryCode: string): (d: ClearingCost)
    ensures d.id == None && d.countryCode == countryCode && d.cost == DefaultCost
    ensures forall s: Store, k :: WellKeyed(s) && k in s ==> s[k] != d
  {
    ClearingCost(None, countryCode, DefaultCost)
  }

  /** `calculateClearingCost`: validate the PAN, look up its country, and return the
      stored cost for that country or the default. It only reads the store. */
  function CalculateClearingCost(store: Store, lookup: CountryLookup, cardNumber: Option<string>): (r: Result<Cents, ServiceError>)
    ensures r == Failure(InvalidArgument) <==> !IsPanValid(cardNumber)
    ensures IsPanValid(cardNumber) && lookup(cardNumber.value).Failure? ==>
      r == Failure(LookupFailed(lookup(cardNumber.value).error))
    ensures IsPanValid(cardNumber) && lookup(cardNumber.value).Success? ==>
      var countryCode := lookup(cardNumber.value).value;
      && (NoRecordFor(store, countryCode) ==> r == Success(DefaultCost))
      && (forall k :: OnlyRecordFor(store, k, countryCode) ==> r == Success(store[k].cost))
      && (SharedCode(store, countryCode) ==> r == Failure(QueryFailed(NonUniqueResult)))
  {
    if !IsPanValid(cardNumber) then
      Failure(InvalidArgument)
    else
      match lookup(cardNumber.value)
      case Failure(e) => Failure(LookupFailed(e))
      case Success(countryCode) =>
        match CostStore.FindByCountryCode(store, countryCode)
        case Failure(e) => Failure(QueryFailed(e))
        case Success(found) =>
          var clearingCost := if found.Some? then found.value else DefaultClearingCost(countryCode);
          Success(clearingCost.cost)
  }

  /** `findByCountryCode`: the record for a country, not-found when there is none. */
  function FindByCountryCode(store: Store, countryCode: string): (r: Result<ClearingCost, ServiceError>)
    ensures r == Failure(NotFound) <==> NoRecordFor(store, countryCode)
    ensures forall k :: OnlyRecordFor(store, k, countryCode) ==> r == Success(store[k])
    ensures SharedCode(store, countryCode) ==> r == Failure(QueryFailed(NonUniqueResult))
  {
    match CostStore.FindByCountryCode(store, countryCode)
    case Failure(e) => Failure(QueryFailed(e))
    case Success(None) => Failure(NotFound)
    case Success(Some(clearingCost)) => Success(clearingCost)
  }

  /** The service's write operations over the repository's table. */
  class ClearingCostService {
    /** The repository's table. */
    var records: Store

    ghost predicate Valid()
      reads this
    {
      WellKeyed(records)
    }

    constructor (initial: Store)
      requires WellKeyed(initial)
      ensures Valid() && records == initial
    {
      records := initial;
    }

    /** `updateClearingCost`: find the record by id (not-found if absent), overwrite
        its country code and cost with those of `clearingCost`, and save it. The id
        of `clearingCost` is ignored; the record keeps its own. */
    method UpdateClearingCost(id: Id, clearingCost: ClearingCost) returns (r: Result<ClearingCost, ServiceError>)
      requires Valid()
      modifies this
      ensures Valid()
      ensures id !in old(records) ==> r == Failure(NotFound) && records == old(records)
      ensures id in old(records) ==>
        && r == Success(ClearingCost(Some(id), clearingCost.countryCode, clearingCost.cost))
        && records == old(records)[id := r.value]
    {
      if id !in records {
        return Failure(NotFound);
      }
      var existing := records[id];
      existing := existing.(countryCode := clearingCost.countryCode);
      existing := existing.(cost := clearingCost.cost);
      records := records[id := existing];
      r := Success(existing);
    }

    /** `deleteClearingCost`: not-found if no record has `id`, otherwise remove it. */
    method DeleteClearingCost(id: Id) returns (r: Result<(), ServiceError>)
      requires Valid()
      modifies this
      ensures Valid()
      ensures id !in old(records) ==> r == Failure(NotFound) && records == old(records)
      ensures id in old(records) ==> r == Success(()) && records == old(records) - {id}
    {
      if id !in records {
        return Failure(NotFound);
      }
      records := records - {id};
      r := Success(());
    }
  }

  /** An invalid PAN is rejected before the lookup or the store is consulted: the
      result does not depend on either. */
  lemma InvalidCardNumberConsultsNothing(store1: Store, store2: Store, lookup1: CountryLookup, lookup2: CountryLookup, cardNumber: Option<string>)
    requires !IsPanValid(cardNumber)
    ensures CalculateClearingCost(store1, lookup1, cardNumber) == CalculateClearingCost(store2, lookup2, cardNumber) == Failure(InvalidArgument)
  {
  }

  /** The service test's scenario: "45717360" issued in "US", stored at 5.00. */
  lemma StoredCostExample(lookup: CountryLookup)
    requires lookup("45717360") == Success("US")
    ensures CalculateClearingCost(map[1 := ClearingCost(Some(1), "US", 500)], lookup, Some("45717360")) == Success(500)
  {
    ValidExamplePan();
    assert OnlyRecordFor(map[1 := ClearingCost(Some(1), "US", 500)], 1, "US");
  }

  /** A country without a record costs exactly 10.00. */
  lemma DefaultCostExample(lookup: CountryLookup)
    requires lookup("45717360") == Success("ZZ")
    ensures CalculateClearingCost(map[1 := ClearingCost(Some(1), "US", 500)], lookup, Some("45717360")) == Success(1000)
  {
    ValidExamplePan();
  }

  /** After `updateClearingCost` gives the record at `id` a country code no other record
      has, resolving a card of that country returns the new cost. */
  lemma UpdateThenCalculate(store: Store, id: Id, clearingCost: ClearingCost, lookup: CountryLookup, cardNumber: string)
    requires id in store
    requires forall j :: j in store && j != id ==> store[j].countryCode != clearingCost.countryCode
    requires IsPanValid(Some(cardNumber)) && lookup(cardNumber) == Success(clearingCost.countryCode)
    ensures CalculateClearingCost(store[id := ClearingCost(Some(id), clearingCost.countryCode, clearingCost.cost)], lookup, Some(cardNumber))
         == Success(clearingCost.cost)
  {
    var updated := store[id := ClearingCost(Some(id), clearingCost.countryCode, clearingCost.cost)];
    assert OnlyRecordFor(updated, id, clearingCost.countryCode);
  }

  /** After `deleteClearingCost` removes the only record of a country, that country's
      cards fall back to the default cost, and finding it by code reports not-found. */
  lemma DeleteThenCalculate(store: Store, id: Id, lookup: CountryLookup, cardNumber: string)
    requires id in store && OnlyRecordFor(store, id, store[id].countryCode)
    requires IsPanValid(Some(cardNumber)) && lookup(cardNumber) == Success(store[id].countryCode)
    ensures CalculateClearingCost(store - {id}, lookup, Some(cardNumber)) == Success(DefaultCost)
    ensures FindByCountryCode(store - {id}, store[id].countryCode) == Failure(NotFound)
  {
  }
}
