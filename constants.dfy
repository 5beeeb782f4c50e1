/** The constants of src/lib/constants.ts that the modelled code reads. */
module Constants {
  /** Container/codec preferences, most preferred first. */
  const SupportedMimeTypes: seq<string> := [
    "video/webm;codecs=vp9,opus",
    "video/webm;codecs=vp8,opus",
    "video/webm;codecs=vp9",
    "video/webm;codecs=vp8",
    "video/webm"
  ]

  /** What the recorder uses when the platform supports none of the preferences. */
  const FallbackMimeType: string := "video/webm"

  const ChunkSize: int := 5 * 1024 * 1024
  const VideoBitrate: int := 2500000
  /** Diameter in pixels of the webcam circle drawn by the compositor. */
  const WebcamDefaultSize: int := 180
  const RecordingFps: int := 30
}
