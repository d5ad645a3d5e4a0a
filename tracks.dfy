/**
 * Entries of the track registry (`playlistData`) and the per-track media resolution done
 * once when the video API becomes ready (js/player.js, setupYouTubeReady).
 */
module Tracks {
  import opened Options

  /**
   * A track. `youtubeId` and `cover` are filled in at start-up; before that `youtubeId`
   * is `None` and `cover` is empty.
   */
  datatype Track = Track(title: string, artist: string, link: string, youtubeId: Option<string>, cover: string)

  /** JavaScript truthiness of an optional media identifier: present and not the empty string. */
  predicate IsId(id: Option<string>) {
    id.Some? && id.value != ""
  }

  /** A track can be sent to the widget only when its media identifier is truthy. */
  predicate HasId(t: Track) {
    IsId(t.youtubeId)
  }

  function ThumbnailUrl(videoId: string): string {
    "https://img.youtube.com/vi/" + videoId + "/hqdefault.jpg"
  }

  /** The placeholder image keyed by a title; `encode` is `encodeURIComponent`, which lives outside this model. */
  function AvatarUrl(name: string, encode: string -> string): string {
    "https://ui-avatars.com/api/?name=" + encode(name) + "&background=333&color=fff"
  }

  /**
   * A track after start-up resolution, given what the link parser returned for it: the
   * identifier is stored as returned, and the cover is the thumbnail of a truthy identifier,
   * otherwise the placeholder keyed by the title.
   */
  function Resolve(t: Track, extracted: Option<string>, encode: string -> string): (r: Track)
    ensures r.title == t.title && r.artist == t.artist && r.link == t.link
    ensures r.youtubeId == extracted
    ensures HasId(r) ==> r.cover == ThumbnailUrl(extracted.value)
    ensures !HasId(r) ==> r.cover == AvatarUrl(t.title, encode)
  {
    t.(youtubeId := extracted,
       cover := if IsId(extracted) then ThumbnailUrl(extracted.value) else AvatarUrl(t.title, encode))
  }
}
