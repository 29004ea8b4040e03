/**
 * What pressing a track's play button does. Instead of starting an audio element
 * or opening a browser tab, the choice is returned as an `Action` value.
 */
module Playback {
  import opened Options
  import opened Catalog

  datatype Action =
    | PlayPreview(url: string)   // start local playback of the preview sample
    | OpenInNewTab(url: string)  // open the link in a new browsing context

  /** JavaScript truthiness of the optional preview URL: present and not the empty string. */
  predicate HasPreview(t: Track) {
    t.previewUrl.Some? && t.previewUrl.value != ""
  }

  /** The external-link button: always opens the given URL in a new tab. */
  function OpenInJioSaavn(url: string): Action {
    OpenInNewTab(url)
  }

  /**
   * The play button: the preview when there is one, otherwise the same action as
   * the external-link button on the track's catalog link. The choice looks only
   * at the preview URL.
   */
  function ChoosePlayAction(t: Track): (a: Action)
    ensures a.PlayPreview? <==> HasPreview(t)
    ensures a.PlayPreview? ==> a.url == t.previewUrl.value
    ensures a.OpenInNewTab? ==> a == OpenInJioSaavn(t.jiosaavnUrl)
  {
    if HasPreview(t) then PlayPreview(t.previewUrl.value) else OpenInJioSaavn(t.jiosaavnUrl)
  }
}
