/**
 * The stand-alone share page (client/src/ShareCreatePage.jsx). The router in
 * client/src/App.js does not mount it, but it repeats the rehydration and the
 * share guards of the main page, with its own ordering of the two loads.
 */
module ShareCreate {
  import opened Wrappers
  import opened Tracks
  import opened Playlist
  import opened JsString

  class ShareCreatePage {
    var playlist: seq<Track>
    var ownerName: string
    var loading: bool

    ghost predicate Valid()
      reads this
    {
      |playlist| <= MaxPlaylist
    }

    /** The initial state: nothing loaded yet. */
    constructor ()
      ensures Valid()
      ensures playlist == [] && ownerName == "" && loading
    {
      playlist, ownerName, loading := [], "", true;
    }

    /**
     * The mount effect: `saved` and `savedName` are what `localStorage.getItem`
     * returned, `parse` is `JSON.parse`. A parse failure jumps to the handler
     * before the saved name is read into the state, so the name is adopted
     * only when it is non-empty and the stored playlist did not fail to parse.
     */
    method Load(saved: Option<string>, savedName: Option<string>, parse: string -> Option<Json>)
      modifies this
      ensures Valid() && !loading
      ensures playlist == Rehydrate(saved, parse)
      ensures ownerName ==
        if Truthy(saved) && parse(saved.value).None? then old(ownerName)
        else if Truthy(savedName) then savedName.value
        else old(ownerName)
    {
      if Truthy(saved) {
        var parsed := parse(saved.value);
        if parsed.None? {
          playlist := [];
          loading := false;
          return;
        }
        playlist := if parsed.value.JArray? then SliceTo(parsed.value.items, MaxPlaylist) else [];
      } else {
        playlist := [];
      }
      if Truthy(savedName) {
        ownerName := savedName.value;
      }
      loading := false;
    }

    /**
     * `handleCreateShare`: the same guards as the main page, except that an
     * empty playlist also sends the user back to the home route.
     */
    method CreateShare() returns (decision: ShareDecision, navigateHome: bool)
      ensures decision == ShareGuard(playlist, ownerName)
      ensures navigateHome <==> playlist == []
    {
      if |playlist| == 0 {
        return NothingToShare, true;
      }
      navigateHome := false;
      if Trim(ownerName) == "" {
        return NameRequired, false;
      }
      decision := Send(ShareRequest(Trim(ownerName), playlist));
    }
  }
}
