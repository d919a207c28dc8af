/** The image record and the HTTP responses that carry it. */
module Schema {
  import opened JsValues

  /** The `metadata` column is free-form JSON; the only producer here writes a timestamp. */
  datatype Metadata = Metadata(timestamp: int)

  /** A row of the `images` table: a non-null original and three nullable columns. */
  datatype Image = Image(
    id: int,
    originalImage: string,
    aiDescription: Option<string>,
    generatedImage: Option<string>,
    metadata: Option<Metadata>)

  /** The argument of `createImage`: the optional fields may be missing or `null`. */
  datatype NewImage = NewImage(
    originalImage: string,
    aiDescription: Field<string>,
    generatedImage: Field<string>,
    metadata: Field<Metadata>)

  datatype Body =
    | ErrorBody(error: string)
    | RecordBody(record: Image)
    | ListBody(records: seq<Image>)

  /** What a handler sends: a status code and a JSON body. */
  datatype Response = Response(status: int, body: Body)

  function ErrorResponse(status: int, message: string): Response {
    Response(status, ErrorBody(message))
  }

  /** The data-URL prefix put before a bare base64 photo, by the server when it sends the
      photo to the vision model and by the client when it formats one. */
  const JpegDataUrlPrefix := "data:image/jpeg;base64,"
}
