/**
 * The record the enrichment service answers with (utils/utils.go). The HTTP
 * request that fetches it is not part of this model; the record reaches the
 * model as a value.
 */
module Enrichment {

  /** Release date, full lyrics and reference link of a song, as the service sends them. */
  datatype SongDetails = SongDetails(releaseDate: string, text: string, link: string)
}
