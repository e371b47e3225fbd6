/**
 * The pure list transforms behind the client's playlist (client/src/App.js,
 * client/src/ShareCreatePage.jsx): membership by id (`some`), removal by id
 * (`filter`), append, the capped toggle, rehydration from local storage
 * (`Array.isArray` and `slice(0, MAX_PLAYLIST)`) and the share-request guard.
 */
module Playlist {
  import opened Wrappers
  import opened Tracks
  import opened JsString

  /** `MAX_PLAYLIST` of both pages. */
  const MaxPlaylist: nat := 10

  /** `playlist.some((t) => t.id === id)`. */
  predicate HasId(p: seq<Track>, id: string)
    ensures HasId(p, id) <==> exists t :: t in p && t.id == id
  {
    exists i :: 0 <= i < |p| && p[i].id == id
  }

  /** No two entries share an id. */
  predicate UniqueIds(p: seq<Track>) {
    forall i, j :: 0 <= i < j < |p| ==> p[i].id != p[j].id
  }

  /**
   * `playlist.filter((t) => t.id !== id)`: drops every entry with that id and
   * keeps exactly the other entries.
   */
  function RemoveId(p: seq<Track>, id: string): (r: seq<Track>)
    ensures |r| <= |p|
    ensures HasId(p, id) ==> |r| < |p|
    ensures !HasId(r, id)
    ensures forall t :: t in r <==> t in p && t.id != id
  {
    if p == [] then []
    else
      var rest := RemoveId(p[1..], id);
      assert forall t :: t in p <==> t == p[0] || t in p[1..];
      assert HasId(p, id) && p[0].id != id ==> HasId(p[1..], id) by {
        if HasId(p, id) && p[0].id != id {
          var i :| 0 <= i < |p| && p[i].id == id;
          assert p[1..][i - 1] == p[i];
        }
      }
      if p[0].id == id then rest else [p[0]] + rest
  }

  /** Filtering distributes over concatenation, so it keeps the order of what it keeps. */
  lemma {:induction false} RemoveIdAppend(a: seq<Track>, b: seq<Track>, id: string)
    ensures RemoveId(a + b, id) == RemoveId(a, id) + RemoveId(b, id)
  {
    if a == [] {
      assert a + b == b;
    } else {
      assert (a + b)[1..] == a[1..] + b;
      RemoveIdAppend(a[1..], b, id);
    }
  }

  /** Filtering out an id that is absent returns the list itself. */
  lemma {:induction false} RemoveAbsentId(p: seq<Track>, id: string)
    requires !HasId(p, id)
    ensures RemoveId(p, id) == p
  {
    if p != [] {
      assert !HasId(p[1..], id) by {
        forall i | 0 <= i < |p[1..]| ensures p[1..][i].id != id { assert p[1..][i] == p[i + 1]; }
      }
      RemoveAbsentId(p[1..], id);
      assert p[0].id != id by { assert p[0] == p[0]; }
      assert p == [p[0]] + p[1..];
    }
  }

  /** Every id of a filtered list was an id of the list. */
  lemma RemoveIdKeepsIds(p: seq<Track>, id: string, other: string)
    ensures HasId(RemoveId(p, id), other) ==> HasId(p, other) && other != id
  {
    var r := RemoveId(p, id);
    if HasId(r, other) {
      var i :| 0 <= i < |r| && r[i].id == other;
      assert r[i] in r;
      var j :| 0 <= j < |p| && p[j] == r[i];
    }
  }

  /** Putting a track in front of a list without its id keeps ids unique. */
  lemma ConsKeepsUnique(x: Track, rest: seq<Track>)
    requires UniqueIds(rest) && !HasId(rest, x.id)
    ensures UniqueIds([x] + rest)
  {
    var p := [x] + rest;
    forall i, j | 0 <= i < j < |p| ensures p[i].id != p[j].id {
      assert p[j] == rest[j - 1];
      if i > 0 { assert p[i] == rest[i - 1]; }
    }
  }

  /** Filtering keeps ids unique. */
  lemma {:induction false} RemoveIdKeepsUnique(p: seq<Track>, id: string)
    requires UniqueIds(p)
    ensures UniqueIds(RemoveId(p, id))
  {
    if p != [] {
      var rest := RemoveId(p[1..], id);
      assert UniqueIds(p[1..]) by {
        forall i, j | 0 <= i < j < |p[1..]| ensures p[1..][i].id != p[1..][j].id {
          assert p[1..][i] == p[i + 1] && p[1..][j] == p[j + 1];
        }
      }
      RemoveIdKeepsUnique(p[1..], id);
      if p[0].id != id {
        assert !HasId(p[1..], p[0].id) by {
          forall i | 0 <= i < |p[1..]| ensures p[1..][i].id != p[0].id {
            assert p[1..][i] == p[i + 1];
          }
        }
        RemoveIdKeepsIds(p[1..], id, p[0].id);
        ConsKeepsUnique(p[0], rest);
      }
    }
  }

  /** Appending a track whose id is absent keeps ids unique. */
  lemma AppendKeepsUnique(p: seq<Track>, t: Track)
    requires UniqueIds(p) && !HasId(p, t.id)
    ensures UniqueIds(p + [t])
  {
    forall i, j | 0 <= i < j < |p + [t]| ensures (p + [t])[i].id != (p + [t])[j].id {
      if j == |p| {
        assert (p + [t])[i] == p[i];
      } else {
        assert (p + [t])[i] == p[i] && (p + [t])[j] == p[j];
      }
    }
  }

  /** What one press of the like button did. */
  datatype ToggleOutcome =
    | Removed   // the id was present: every entry with it was filtered out
    | Added     // the id was absent and there was room: the track was appended
    | Full      // the id was absent and the list was at capacity: the cap notice is raised

  /** The branch `handleToggleLike` takes: the id test first, then the cap test. */
  function ToggleOutcomeOf(p: seq<Track>, t: Track): (r: ToggleOutcome)
    ensures r == Removed <==> HasId(p, t.id)
    ensures r == Full <==> !HasId(p, t.id) && |p| >= MaxPlaylist
    ensures r == Added <==> !HasId(p, t.id) && |p| < MaxPlaylist
  {
    if HasId(p, t.id) then Removed
    else if |p| >= MaxPlaylist then Full
    else Added
  }

  /**
   * The list after `handleToggleLike(t)`: afterwards the id is present exactly
   * when it was absent and there was room, and the list grew by at most one.
   */
  function Toggle(p: seq<Track>, t: Track): (r: seq<Track>)
    ensures HasId(r, t.id) <==> !HasId(p, t.id) && |p| < MaxPlaylist
    ensures |r| <= |p| + 1
    ensures |r| > |p| ==> |p| < MaxPlaylist
  {
    match ToggleOutcomeOf(p, t)
    case Removed => RemoveId(p, t.id)
    case Added => assert (p + [t])[|p|] == t; p + [t]
    case Full => p
  }

  /** A present track is removed: no entry with its id stays, every other entry does. */
  lemma TogglePresentRemoves(p: seq<Track>, t: Track)
    requires HasId(p, t.id)
    ensures !HasId(Toggle(p, t), t.id)
    ensures forall u :: u in Toggle(p, t) <==> u in p && u.id != t.id
  {
  }

  /** Removing a present track keeps the other entries in order: it filters each part of the list in place. */
  lemma TogglePresentKeepsOrder(p: seq<Track>, t: Track, q: seq<Track>, s: seq<Track>)
    requires HasId(p, t.id) && p == q + s
    ensures Toggle(p, t) == RemoveId(q, t.id) + RemoveId(s, t.id)
  {
    RemoveIdAppend(q, s, t.id);
  }

  /** An absent track with room is appended after the unchanged earlier entries. */
  lemma ToggleAbsentWithRoom(p: seq<Track>, t: Track)
    requires !HasId(p, t.id) && |p| < MaxPlaylist
    ensures Toggle(p, t) == p + [t]
    ensures HasId(Toggle(p, t), t.id)
  {
    assert (p + [t])[|p|] == t;
  }

  /** An absent track at capacity leaves the list unchanged and raises the notice. */
  lemma ToggleAbsentWhenFull(p: seq<Track>, t: Track)
    requires !HasId(p, t.id) && |p| >= MaxPlaylist
    ensures ToggleOutcomeOf(p, t) == Full && Toggle(p, t) == p
  {
  }

  /** A toggle never takes a list within the cap beyond it, and keeps ids unique. */
  lemma ToggleInvariant(p: seq<Track>, t: Track)
    ensures |p| <= MaxPlaylist ==> |Toggle(p, t)| <= MaxPlaylist
    ensures UniqueIds(p) ==> UniqueIds(Toggle(p, t))
  {
    if UniqueIds(p) {
      match ToggleOutcomeOf(p, t)
      case Removed => RemoveIdKeepsUnique(p, t.id);
      case Added => AppendKeepsUnique(p, t);
      case Full =>
    }
  }

  /** Adding an absent track and toggling it again restores the list exactly. */
  lemma ToggleTwiceRestores(p: seq<Track>, t: Track)
    requires !HasId(p, t.id)
    ensures Toggle(Toggle(p, t), t) == p
  {
    if |p| < MaxPlaylist {
      ToggleAbsentWithRoom(p, t);
      RemoveIdAppend(p, [t], t.id);
      RemoveAbsentId(p, t.id);
      assert RemoveId([t], t.id) == [] by { assert [t][1..] == []; }
      assert p + [] == p;
    }
  }

  /** Within the cap, toggling the same track twice restores whether its id is present. */
  lemma ToggleTwiceMembership(p: seq<Track>, t: Track)
    requires |p| <= MaxPlaylist
    ensures HasId(Toggle(Toggle(p, t), t), t.id) == HasId(p, t.id)
  {
    if HasId(p, t.id) {
      ToggleAbsentWithRoom(Toggle(p, t), t);
    } else {
      ToggleTwiceRestores(p, t);
    }
  }

  /** The list after the user presses the like button on each of `ts` in turn. */
  function ToggleAll(p: seq<Track>, ts: seq<Track>): seq<Track>
    decreases |ts|
  {
    if ts == [] then p else ToggleAll(Toggle(p, ts[0]), ts[1..])
  }

  /** No sequence of toggles takes a list within the cap beyond it. */
  lemma {:induction false} ToggleAllWithinCap(p: seq<Track>, ts: seq<Track>)
    requires |p| <= MaxPlaylist
    ensures |ToggleAll(p, ts)| <= MaxPlaylist
    decreases |ts|
  {
    if ts != [] {
      ToggleInvariant(p, ts[0]);
      ToggleAllWithinCap(Toggle(p, ts[0]), ts[1..]);
    }
  }

  /** No sequence of toggles breaks unique ids. */
  lemma {:induction false} ToggleAllKeepsUnique(p: seq<Track>, ts: seq<Track>)
    requires UniqueIds(p)
    ensures UniqueIds(ToggleAll(p, ts))
    decreases |ts|
  {
    if ts != [] {
      ToggleInvariant(p, ts[0]);
      ToggleAllKeepsUnique(Toggle(p, ts[0]), ts[1..]);
    }
  }

  /** `s.slice(0, end)` for a non-negative `end`: the first `min(|s|, end)` elements. */
  function SliceTo(s: seq<Track>, end: nat): (r: seq<Track>)
    ensures |r| <= end && |r| <= |s|
    ensures |r| == end || |r| == |s|
    ensures r == s[..|r|]
  {
    if end <= |s| then s[..end] else s
  }

  /**
   * The playlist rehydrated from the stored string `saved`, with `parse`
   * standing for `JSON.parse` (`None` when it throws): the first ten
   * elements of a stored array, and the empty list for a missing, empty,
   * unparsable or non-array value.
   */
  function Rehydrate(saved: Option<string>, parse: string -> Option<Json>): (r: seq<Track>)
    ensures |r| <= MaxPlaylist
    ensures !Truthy(saved) ==> r == []
    ensures Truthy(saved) && (parse(saved.value).None? || !parse(saved.value).value.JArray?) ==> r == []
    ensures Truthy(saved) && parse(saved.value).Some? && parse(saved.value).value.JArray? ==>
              var items := parse(saved.value).value.items;
              |r| <= |items| && r == items[..|r|] && (|r| == MaxPlaylist || |r| == |items|)
  {
    if !Truthy(saved) then []
    else match parse(saved.value)
      case None => []
      case Some(v) => if v.JArray? then SliceTo(v.items, MaxPlaylist) else []
  }

  /** Rehydration keeps the ids of a stored list with unique ids unique (it never deduplicates). */
  lemma RehydrateKeepsUnique(saved: Option<string>, parse: string -> Option<Json>)
    requires Truthy(saved) && parse(saved.value).Some? && parse(saved.value).value.JArray?
    requires UniqueIds(parse(saved.value).value.items)
    ensures UniqueIds(Rehydrate(saved, parse))
  {
    var items := parse(saved.value).value.items;
    var r := Rehydrate(saved, parse);
    forall i, j | 0 <= i < j < |r| ensures r[i].id != r[j].id {
      assert r[i] == items[i] && r[j] == items[j];
    }
  }

  /** The body of a `POST /api/share` request the client sends. */
  datatype ShareRequest = ShareRequest(ownerName: string, playlist: seq<Track>)

  /** What pressing the share button decides before any request. */
  datatype ShareDecision =
    | NothingToShare           // empty playlist: notice, no request
    | NameRequired             // blank nickname: notice, no request
    | Send(request: ShareRequest)

  /**
   * The guards of `handleCreateShare`: no request for an empty playlist or a
   * blank name; otherwise the trimmed name with the playlist unchanged.
   */
  function ShareGuard(playlist: seq<Track>, ownerName: string): (d: ShareDecision)
    ensures d.NothingToShare? <==> playlist == []
    ensures d.NameRequired? <==> playlist != [] && IsBlank(ownerName)
    ensures d.Send? ==> d.request == ShareRequest(Trim(ownerName), playlist)
    ensures d.Send? ==> IsTrimmed(d.request.ownerName) && d.request.ownerName != "" && d.request.playlist != []
  {
    TrimEmptyIffBlank(ownerName);
    if |playlist| == 0 then NothingToShare
    else if Trim(ownerName) == "" then NameRequired
    else Send(ShareRequest(Trim(ownerName), playlist))
  }
}
