/** The records and enumerations of src/lib/types.ts, plus the tag records the
    dashboard components pass around. */
module Types {
  import opened Wrappers

  /** The recorder's lifecycle states, named as the source names them. */
  datatype RecorderState = IDLE | PREVIEWING | COUNTDOWN | RECORDING | PAUSED | STOPPED | UPLOADING | DONE

  datatype WebcamPosition = BottomLeft | BottomRight | TopLeft | TopRight

  /** A recording as the client sees it (camelCase fields). Numbers the source
      keeps as JavaScript numbers are `real` here when they may be fractional. */
  datatype Recording = Recording(
    id: string,
    title: string,
    blobUrl: string,
    fileSize: int,
    duration: real,
    mimeType: string,
    width: Option<int>,
    height: Option<int>,
    hasWebcam: bool,
    thumbnail: Option<string>,
    viewCount: int,
    status: string,
    createdAt: string,
    updatedAt: string)

  /** A row of the `recordings` table (snake_case columns, `has_webcam` as an integer). */
  datatype RecordingRow = RecordingRow(
    id: string,
    title: string,
    blob_url: string,
    file_size: int,
    duration: real,
    mime_type: string,
    width: Option<int>,
    height: Option<int>,
    has_webcam: int,
    thumbnail: Option<string>,
    view_count: int,
    status: string,
    created_at: string,
    updated_at: string)

  datatype Tag = Tag(id: string, name: string, color: string, icon: string)

  datatype TagWithCount = TagWithCount(id: string, name: string, color: string, icon: string, count: int)
}
