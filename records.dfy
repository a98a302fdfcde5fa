/** The records the views pass around. Booths (locations.json) and services
    (services.json) are both plain objects keyed by `boothId`; only the fields
    the modelled logic reads are kept. */
module Records {
  import opened Base

  /** A booth or service record. `kind` is the optional `type` field ("service"
      marks a service handed to the list's `onSelect`); `contacts`, `emails` and
      `sectorjourneys` are the raw comma-separated strings. */
  datatype Place = Place(
    boothId: string,
    name: string,
    kind: Option<string>,
    neighbourhood: Option<string>,
    contacts: Option<string>,
    emails: Option<string>,
    sectorjourneys: Option<string>)

  /** `locationOrigin`: whether a booth was opened from the map or from the list. */
  datatype Origin = FromMap | FromList
}
