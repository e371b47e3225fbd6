/**
 * The values that travel between the catalog, the client, its local storage
 * and the share server.
 */
module Tracks {
  import opened Wrappers

  /**
   * A catalog track, kept verbatim. Only `id` is ever inspected; the other
   * fields stand for the display metadata the client renders.
   */
  datatype Track = Track(
    id: string,
    name: string,
    album: string,
    artists: seq<string>,
    previewUrl: Option<string>,
    externalUrl: string)

  /**
   * A parsed JSON value, down to the distinctions the core makes: whether it
   * is a string (`typeof x === "string"`) and whether it is an array
   * (`Array.isArray`). Array elements are tracks.
   */
  datatype Json =
    | JNull
    | JBool(b: bool)
    | JNumber(n: int)
    | JString(s: string)
    | JArray(items: seq<Track>)
    | JObject
}
