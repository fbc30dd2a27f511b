/**
 * The boundary of the OpenMensa client crate as the core sees it. The crate's
 * network calls are not modelled: each one is an oracle, a total function from
 * its arguments to the outcome the service reports, which callers pass in.
 */
module OpenMensa {
  import opened Wrappers

  /** A canteen record. Only the fields the core reads are kept. */
  datatype Canteen = Canteen(id: nat, name: string)

  /** The three canteen lookups of the crate, as oracles; an error is its message. */
  datatype Directory = Directory(
    canteenById: nat -> Result<Option<Canteen>, string>,
    canteensByLocation: string -> Result<seq<Canteen>, string>,
    canteensByIds: seq<nat> -> Result<seq<Canteen>, string>)

  /** Which of the three lookups was asked, with its argument. */
  datatype Lookup = ById(id: nat) | ByLocation(location: string) | ByIds(ids: seq<nat>)

  /** Two directories give the same answer to the one lookup `q`. */
  ghost predicate AgreeOn(d1: Directory, d2: Directory, q: Lookup)
  {
    match q
    case ById(id) => d1.canteenById(id) == d2.canteenById(id)
    case ByLocation(text) => d1.canteensByLocation(text) == d2.canteensByLocation(text)
    case ByIds(ids) => d1.canteensByIds(ids) == d2.canteensByIds(ids)
  }

  /** One meal request sent to the service: the canteen and the date text. */
  datatype MealRequest = MealRequest(canteen: Canteen, date: string)
}
