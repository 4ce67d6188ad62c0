/** The JSON values the video-search proxy reads and writes, as Dafny values.
    A JSON key that may be absent is an `Option`; `dict.get(key, default)` in
    the service becomes one of the accessor functions below. */
module PexelsData {

  datatype Option<+T> = None | Some(value: T)

  datatype Result<+T, +E> = Success(value: T) | Failure(error: E)

  /** One entry of a video's `video_files` list: a rendition of the video. */
  datatype FileInfo = FileInfo(quality: Option<string>, link: Option<string>)

  /** The `user` object of a video; `name` is the photographer's name. */
  datatype User = User(name: Option<string>)

  /** One entry of the upstream `videos` list. */
  datatype Video = Video(id: Option<int>, user: Option<User>, videoFiles: Option<seq<FileInfo>>)

  /** The decoded body of the upstream search reply. */
  datatype Payload = Payload(videos: Option<seq<Video>>)

  /** One entry of the refined reply: `id`, `photographer`, `download_url`. */
  datatype Summary = Summary(id: Option<int>, photographer: Option<string>, downloadUrl: string)

  /** The refined reply `{"status": ..., "videos": [...]}`. */
  datatype SearchResult = SearchResult(status: string, videos: seq<Summary>)

  /** The quality label of the rendition whose link the refined reply carries. */
  const SdQuality: string := "sd"

  /** The `status` of every refined reply. */
  const SuccessStatus: string := "success"

  /** `video.get("video_files", [])`: a missing list reads as empty. */
  function FilesOf(v: Video): seq<FileInfo>
  {
    match v.videoFiles
    case None => []
    case Some(fs) => fs
  }

  /** `video.get("user", {}).get("name")`: absent when either key is missing. */
  function PhotographerOf(v: Video): Option<string>
  {
    match v.user
    case None => None
    case Some(u) => u.name
  }

  /** The upstream `videos` list; the refinement iterates over nothing when the key is missing. */
  function VideosOf(p: Payload): seq<Video>
  {
    match p.videos
    case None => []
    case Some(vs) => vs
  }
}
