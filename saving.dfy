/**
 * The save routing both list pages share: a record whose id carries the
 * `temp-` prefix the detail forms give new records is created, any other
 * record is updated.
 */
module Saving {
  import opened Text

  const TempPrefix: string := "temp-"

  datatype Route = Create | Update

  /** `id.startsWith('temp-') ? create : update` */
  function RouteFor(id: string): (r: Route)
    ensures r == Create <==> |id| >= 5 && id[..5] == "temp-"
  {
    if StartsWith(id, TempPrefix) then Create else Update
  }

  /** Every id the forms make for a new record is routed to create. */
  lemma TempIdsCreate(stamp: string)
    ensures RouteFor(TempPrefix + stamp) == Create
  {
    assert (TempPrefix + stamp)[..5] == TempPrefix;
  }
}
