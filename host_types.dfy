/** The records the Tauri host (src-tauri/src/lib.rs) passes around: file
    items shown in the file lists, sync results, and the messages the
    bridge process writes to its standard output. */
module HostTypes {
  import opened Wrappers

  /** Rust `u64`, `usize` (64-bit target) and `u8`. */
  const TWO_TO_64: int := 0x1_0000_0000_0000_0000
  type U64 = x: nat | x < TWO_TO_64
  type U8 = x: nat | x < 256

  /** A Rust `f64` delay, kept opaque: only its 64-bit pattern is modelled. */
  datatype Delay = Delay(bits: bv64)

  /** `FileItem`: one entry of a picked folder; `fileType` is the serialised
      "type" field, "video" or "audio". */
  datatype FileItem = FileItem(name: string, path: string, fileType: string, size: Option<U64>)

  /** `PickResponse`: the folder that was picked (if any) and its files. */
  datatype PickResponse = PickResponse(folder: Option<string>, files: seq<FileItem>)

  /** `SyncResult`: one analysed (video, audio) pair as the host returns it. */
  datatype SyncResult = SyncResult(
    videoFile: string,
    audioFile: string,
    startDelay: Option<Delay>,
    endDelay: Option<Delay>,
    error: Option<string>,
    elapsedMs: Option<U64>)

  /** `BridgeMessage`, tagged by its "type" field on the wire. `ResultMsg` is
      the variant the source calls `Result`; its `elapsedMs` is the wire field
      `elapsed_ms`. */
  datatype BridgeMessage =
    | Progress(processed: U64, total: U64, current: Option<string>)
    | FileStart(file: string)
    | FileEnd(file: string, elapsed: U64)
    | FileProgress(file: string, percent: U8)
    | Log(message: string)
    | ResultMsg(
        videoFile: string,
        audioFile: string,
        startDelay: Option<Delay>,
        endDelay: Option<Delay>,
        error: Option<string>,
        elapsedMs: Option<U64>)
    | Done(results: seq<SyncResult>)
}
