/** The two secondary sources every workflow node consults besides NetEase Cloud Music. */
module Platforms {
  datatype Platform = Spotify | QQMusic
  {
    /** The name written in `confirmed_by` lists. */
    function DisplayName(): string {
      match this
      case Spotify => "Spotify"
      case QQMusic => "QQ音乐"
    }

    /** The key of the platform's entry in a `sources` dict. */
    function Key(): string {
      match this
      case Spotify => "spotify"
      case QQMusic => "qqmusic"
    }
  }
}
