/** The control-channel message shared by the daemon and the client: an
    `Envelope` carrying one payload variant. Its protobuf encoding is not
    modelled; a frame either decodes to an envelope or does not. */
module Proto {
  import opened Wrappers

  datatype FileType = Image | Markdown

  /** Asks the client to show a registered asset. */
  datatype OpenViewRequest = OpenViewRequest(assetId: string, url: string, fileType: FileType, title: string)

  datatype AnnotationData = AnnotationData(
    id: string, contextHash: string, targetText: string, body: string, timestamp: int)

  /** An annotation made on a shown file; `filePath` holds the asset ID the
      file was shown under, or a path. */
  datatype AnnotationAction = AnnotationAction(filePath: string, data: AnnotationData)

  datatype Envelope =
    | Ping(timestamp: int)
    | OpenView(request: OpenViewRequest)
    | Annotation(action: AnnotationAction)
    | NoPayload
}
