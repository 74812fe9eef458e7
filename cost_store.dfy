/** The `clearing_cost` table and the query `ClearingCostRepository.findByCountryCode`.
    Costs are integer cents: the source's `BigDecimal` 5.00 is 500 here. */
module CostStore {
  import opened Wrappers

  /** The entity's `Long id`. */
  type Id = int

  /** An amount of money in cents. */
  type Cents = int

  /** `ClearingCost{id, countryCode, cost}`; `id` is `None` until the record has been
      stored (the identity column assigns it). */
  datatype ClearingCost = ClearingCost(id: Option<Id>, countryCode: string, cost: Cents)

  /** The table: every stored record, keyed by its id. */
  type Store = map<Id, ClearingCost>

  /** Every stored record carries the id it is stored under. */
  predicate WellKeyed(store: Store) {
    forall k :: k in store ==> store[k].id == Some(k)
  }

  /** No stored record has country code `code`. */
  predicate NoRecordFor(store: Store, code: string) {
    forall k :: k in store ==> store[k].countryCode != code
  }

  /** The record at `k` is the only one with country code `code`. */
  predicate OnlyRecordFor(store: Store, k: Id, code: string) {
    && k in store
    && store[k].countryCode == code
    && forall j :: j in store && store[j].countryCode == code ==> j == k
  }

  /** Two different records share country code `code`. */
  predicate SharedCode(store: Store, code: string) {
    exists i, j :: i in store && j in store && i != j && store[i].countryCode == code && store[j].countryCode == code
  }

  /** Whether a query that returns at most one record fails, finds nothing, or finds one. */
  datatype QueryError = NonUniqueResult

  /** `findByCountryCode`, a derived query whose result is an `Optional`: empty when no
      record matches, the record when exactly one does, and an error when several do
      (a single-result query over a column that is not unique). */
  function FindByCountryCode(store: Store, code: string): (r: Result<Option<ClearingCost>, QueryError>)
    ensures r == Success(None) <==> NoRecordFor(store, code)
    ensures r.Success? && r.value.Some? <==> exists k :: OnlyRecordFor(store, k, code)
    ensures forall k :: OnlyRecordFor(store, k, code) ==> r == Success(Some(store[k]))
    ensures r.Failure? <==> SharedCode(store, code)
  {
    if NoRecordFor(store, code) then
      Success(None)
    else if SharedCode(store, code) then
      Failure(NonUniqueResult)
    else
      var k :| k in store && store[k].countryCode == code;
      assert OnlyRecordFor(store, k, code);
      Success(Some(store[k]))
  }
}
