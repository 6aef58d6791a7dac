/** The track reference that command handlers build and the queue stores. */
module Tracks {
  import opened Outcomes

  /** PLATFORMS.YOUTUBE and PLATFORMS.SOUNDCLOUD. */
  datatype Platform = YouTube | SoundCloud

  /** A queued song: `{ title, url, duration, thumbnail, requestedBy, platform }`.
      `duration` is whole seconds, 0 when unknown. The queue identifies a song
      for retry bookkeeping by its `url`. */
  datatype Song = Song(
    title: string,
    url: string,
    duration: int,
    thumbnail: Option<string>,
    requestedBy: string,
    platform: Platform)
}
