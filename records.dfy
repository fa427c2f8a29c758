/** The image row that the handlers read and update. */
module Records {
  import opened Common

  /** Where an upload is in background processing. */
  datatype ProcessingStatus = Pending | Processing | Completed | Failed

  datatype ImageRecord = ImageRecord(
    id: string,
    ownerId: string,
    title: string,
    mimeType: string,
    size: nat,
    originalSize: nat,
    processedSize: Option<nat>,
    path: string,
    isPublic: bool,
    status: ProcessingStatus,
    encrypted: bool,
    thumbnailExists: bool,
    processingTime: Option<int>,
    createdAt: int)
}
