/**
 * The Ad entity as the hosted backend stores it (src/lib/supabaseClient.ts).
 */
module AdRecord {
  import opened Wrappers

  /** `status: 'active' | 'inactive'`. */
  datatype Status = Active | Inactive

  /** The wire spelling of a status. */
  function StatusName(s: Status): string
  {
    match s
    case Active => "active"
    case Inactive => "inactive"
  }

  /** Reads a status back from its wire spelling; anything else is not a status. */
  function ParseStatus(v: string): (r: Option<Status>)
    ensures r.Some? <==> v == "active" || v == "inactive"
    ensures r.Some? ==> StatusName(r.value) == v
  {
    if v == "active" then Some(Active)
    else if v == "inactive" then Some(Inactive)
    else None
  }

  /** Spelling a status and reading it back gives the same status. */
  lemma ParseStatusName(s: Status)
    ensures ParseStatus(StatusName(s)) == Some(s)
  {
  }

  /** One row of the `ads` table. */
  datatype Ad = Ad(
    id: string,
    title: string,
    description: string,
    destinationUrl: string,
    status: Status,
    userId: string,
    createdAt: string)

  /** `Partial<Ad>`: every field may be absent. */
  datatype PartialAd = PartialAd(
    id: Option<string>,
    title: Option<string>,
    description: Option<string>,
    destinationUrl: Option<string>,
    status: Option<Status>,
    userId: Option<string>,
    createdAt: Option<string>)

  /** A stored ad seen as a `Partial<Ad>` with every field present (what the edit page passes). */
  function AsPartial(ad: Ad): PartialAd
  {
    PartialAd(Some(ad.id), Some(ad.title), Some(ad.description), Some(ad.destinationUrl),
              Some(ad.status), Some(ad.userId), Some(ad.createdAt))
  }
}
