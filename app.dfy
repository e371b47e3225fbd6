/**
 * The playlist state of the main page (`MainApp` in client/src/App.js): the
 * liked tracks and the nickname used for sharing, rehydrated from local
 * storage when the page mounts and changed by the like, clear and share
 * buttons.
 */
module App {
  import opened Wrappers
  import opened Tracks
  import opened Playlist
  import opened JsString

  /** What pressing "clear playlist" did. */
  datatype ClearOutcome =
    | NothingToClear   // the list was already empty: notice, no confirmation asked
    | ClearCancelled   // the user declined the confirmation
    | Cleared

  class MainApp {
    var playlist: seq<Track>
    var ownerName: string

    /** The cap holds in every state the page can reach. */
    ghost predicate Valid()
      reads this
    {
      |playlist| <= MaxPlaylist
    }

    /**
     * The lazy initialisers: `savedPlaylist` and `savedName` are what
     * `localStorage.getItem` returned for "playlist" and "ownerName", `parse`
     * is `JSON.parse`.
     */
    constructor (savedPlaylist: Option<string>, parse: string -> Option<Json>, savedName: Option<string>)
      ensures Valid()
      ensures playlist == Rehydrate(savedPlaylist, parse)
      ensures ownerName == if Truthy(savedName) then savedName.value else ""
    {
      playlist := Rehydrate(savedPlaylist, parse);
      ownerName := if Truthy(savedName) then savedName.value else "";
    }

    /** `handleToggleLike`: remove the track if its id is present, else append it unless the list is full. */
    method ToggleLike(track: Track) returns (outcome: ToggleOutcome)
      requires Valid()
      modifies this
      ensures Valid()
      ensures outcome == ToggleOutcomeOf(old(playlist), track)
      ensures playlist == Toggle(old(playlist), track)
      ensures UniqueIds(old(playlist)) ==> UniqueIds(playlist)
      ensures ownerName == old(ownerName)
    {
      ToggleInvariant(playlist, track);
      var present := HasId(playlist, track.id);
      if present {
        playlist := RemoveId(playlist, track.id);
        outcome := Removed;
      } else {
        if |playlist| >= MaxPlaylist {
          outcome := Full;
          return;
        }
        playlist := playlist + [track];
        outcome := Added;
      }
    }

    /** `handleClearPlaylist`, with `confirmed` the answer to `window.confirm`. */
    method ClearPlaylist(confirmed: bool) returns (outcome: ClearOutcome)
      requires Valid()
      modifies this
      ensures Valid()
      ensures old(playlist) == [] ==> outcome == NothingToClear
      ensures old(playlist) != [] ==> outcome == if confirmed then Cleared else ClearCancelled
      ensures playlist == if outcome == Cleared then [] else old(playlist)
      ensures ownerName == old(ownerName)
    {
      if |playlist| == 0 {
        return NothingToClear;
      }
      if !confirmed {
        return ClearCancelled;
      }
      playlist := [];
      outcome := Cleared;
    }

    /** The guards of `handleCreateShare` and the request body it sends when they pass. */
    method CreateShare() returns (decision: ShareDecision)
      ensures decision == ShareGuard(playlist, ownerName)
    {
      if |playlist| == 0 {
        return NothingToShare;
      }
      var trimmedName := Trim(ownerName);
      if trimmedName == "" {
        return NameRequired;
      }
      decision := Send(ShareRequest(trimmedName, playlist));
    }
  }
}
