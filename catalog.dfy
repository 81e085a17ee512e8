/** The one record the UI state handles: an anime as returned by the catalogue API. */
module Catalog {

  /** Only the fields the modelled handlers read: `mal_id` and `title`. */
  datatype Anime = Anime(malId: int, title: string)
}
