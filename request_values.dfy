/** Shapes a JSON request field may take, shared by the order and product routes. */
module RequestValues {
  /** An `image` field: missing, one URL, or an array of URLs. */
  datatype ImageInput = NoImage | Single(url: string) | List(urls: seq<string>)
}
