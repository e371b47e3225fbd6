/**
 * The backend (server/server.js): the cached catalog access token, the
 * search proxy's guards, and the share-snapshot store with its POST and GET
 * handlers. The JSON file behind the store is the in-memory map `db`; the
 * clock, the id generator and the catalog's answers are parameters.
 */
module Server {
  import opened Wrappers
  import opened Tracks
  import opened JsString
  import opened Playlist

  /** The owner label used when no usable name was given. */
  const DefaultOwner: string := "Someone"
  /** Prefix of the share link returned by a successful POST. */
  const ShareUrlBase: string := "http://localhost:3000/share/"
  /** Seconds subtracted from the token lifetime before it is considered expired. */
  const TokenMarginSeconds: int := 60

  const EmptyPlaylistMessage: string := "플레이리스트가 비어 있습니다."
  const NotFoundMessage: string := "플레이리스트를 찾을 수 없습니다."
  const QueryRequiredMessage: string := "q(query) is required"
  const InternalErrorMessage: string := "internal_error"

  /** One stored share: `{createdAt, ownerName, playlist}`. */
  datatype Snapshot = Snapshot(createdAt: int, ownerName: string, playlist: seq<Track>)

  /** The parsed body of `POST /api/share`; `None` is a missing field. */
  datatype ShareBody = ShareBody(ownerName: Option<Json>, playlist: Option<Json>)

  datatype PostResponse =
    | PostFailed(status: nat, message: string)
    | PostOk(shareId: string, shareUrl: string)

  /** The answer to `GET /api/share/:id`; a playlist that is `undefined` is dropped from the JSON. */
  datatype GetResponse =
    | GetFailed(status: nat, message: string)
    | GetOk(ownerName: string, playlist: Option<seq<Track>>)

  datatype SearchResponse =
    | SearchFailed(status: nat, error: string)
    | SearchOk(data: Json)

  /** The catalog's answer to a client-credentials exchange: a non-ok response, or the parsed token. */
  datatype TokenResponse = TokenRejected | TokenGranted(accessToken: string, expiresIn: int)

  /** `getAccessToken` either resolves to a token or throws. */
  datatype TokenResult = TokenFailed | TokenOk(token: string)

  // ---------------------------------------------------------------- token cache

  /** The cached token may be reused at time `now` (milliseconds). */
  predicate Fresh(token: Option<string>, expiresAt: int, now: int)
    ensures token.None? || token == Some("") ==> !Fresh(token, expiresAt, now)
    ensures now >= expiresAt ==> !Fresh(token, expiresAt, now)
    ensures Truthy(token) && now < expiresAt ==> Fresh(token, expiresAt, now)
  {
    Truthy(token) && now < expiresAt
  }

  /** The expiry recorded for a token obtained at `now` that lives `expiresIn` seconds. */
  function ExpiryAfterRefresh(now: int, expiresIn: int): (r: int)
    ensures r > now <==> expiresIn > TokenMarginSeconds
    ensures r - now <= expiresIn * 1000
  {
    now + (expiresIn - TokenMarginSeconds) * 1000
  }

  /**
   * A non-empty token obtained at `now0` is reused by a later call at `now1`
   * exactly while `now1` is before the lifetime less the 60-second margin.
   */
  lemma TokenReuseWindow(tok: string, now0: int, expiresIn: int, now1: int)
    requires tok != ""
    ensures Fresh(Some(tok), ExpiryAfterRefresh(now0, expiresIn), now1)
      <==> now1 - now0 < (expiresIn - TokenMarginSeconds) * 1000
  {
  }

  /** A token granted for at most the margin is never reused: the next call fetches again. */
  lemma ShortLivedTokenNotReused(tok: string, now0: int, expiresIn: int, now1: int)
    requires expiresIn <= TokenMarginSeconds && now0 <= now1
    ensures !Fresh(Some(tok), ExpiryAfterRefresh(now0, expiresIn), now1)
  {
  }

  // ---------------------------------------------------------------- share store

  /** `Array.isArray(playlist) && playlist.length !== 0`. */
  predicate PlaylistAccepted(playlist: Option<Json>)
    ensures playlist.None? ==> !PlaylistAccepted(playlist)
    ensures playlist.Some? && !playlist.value.JArray? ==> !PlaylistAccepted(playlist)
    ensures playlist == Some(JArray([])) ==> !PlaylistAccepted(playlist)
    ensures playlist.Some? && playlist.value.JArray? && |playlist.value.items| > 0 ==> PlaylistAccepted(playlist)
  {
    playlist.Some? && playlist.value.JArray? && playlist.value.items != []
  }

  /** The default label is itself a non-empty trimmed name. */
  lemma DefaultOwnerTrimmed()
    ensures DefaultOwner != "" && IsTrimmed(DefaultOwner)
  {
    assert DefaultOwner[0] == 'S' && DefaultOwner[|DefaultOwner| - 1] == 'e';
  }

  /**
   * The stored owner name: the trimmed name when `ownerName` is a string that
   * is not blank, and "Someone" otherwise. Either way it is non-empty and trimmed.
   */

  function SafeName(ownerName: Option<Json>): (r: string)
    ensures r != "" && IsTrimmed(r)
    ensures ownerName.Some? && ownerName.value.JString? && !IsBlank(ownerName.value.s) ==>
              r == Trim(ownerName.value.s)
    ensures !(ownerName.Some? && ownerName.value.JString? && !IsBlank(ownerName.value.s)) ==>
              r == DefaultOwner
  {
    if ownerName.Some? && ownerName.value.JString? && |Trim(ownerName.value.s)| > 0 then
      TrimEmptyIffBlank(ownerName.value.s);
      Trim(ownerName.value.s)
    else
      TrimEmptyIffBlank(if ownerName.Some? && ownerName.value.JString? then ownerName.value.s else "");
      DefaultOwnerTrimmed();
      DefaultOwner
  }

  /** A non-empty trimmed string is stored as it is. */
  lemma SafeNameOfTrimmed(name: string)
    requires name != "" && IsTrimmed(name)
    ensures SafeName(Some(JString(name))) == name
  {
    TrimOfTrimmed(name);
    assert |Trim(name)| > 0;
  }

  /** Normalising an already stored name again changes nothing. */
  lemma SafeNameIdempotent(ownerName: Option<Json>)
    ensures SafeName(Some(JString(SafeName(ownerName)))) == SafeName(ownerName)
  {
    SafeNameOfTrimmed(SafeName(ownerName));
  }

  /** `ownerName || "Someone"`: the empty (falsy) name reads as the default. */
  function OwnerOrDefault(name: string): (r: string)
    ensures r != ""
    ensures name == "" ==> r == DefaultOwner
    ensures name != "" ==> r == name
  {
    if name == "" then DefaultOwner else name
  }

  /**
   * The lookup of `GET /api/share/:id` on the store's own keys: a snapshot
   * for a stored id, 404 for every other.
   */
  function Lookup(db: map<string, Snapshot>, id: string): (r: GetResponse)
    ensures r.GetFailed? <==> id !in db
    ensures r.GetFailed? ==> r.status == 404
    ensures id in db ==> r.playlist == Some(db[id].playlist)
    ensures id in db ==> r.ownerName == OwnerOrDefault(db[id].ownerName)
  {
    if id in db then GetOk(OwnerOrDefault(db[id].ownerName), Some(db[id].playlist))
    else GetFailed(404, NotFoundMessage)
  }

  /** Writing one id leaves the lookup of every other id as it was. */
  lemma OtherSharesUnchanged(db: map<string, Snapshot>, id: string, snap: Snapshot, other: string)
    requires other != id
    ensures Lookup(db[id := snap], other) == Lookup(db, other)
  {
  }

  /**
   * Round trip: once an accepted body is stored under `id`, looking `id` up
   * yields its playlist and its normalised name.
   */
  lemma ShareRoundTrip(db: map<string, Snapshot>, body: ShareBody, id: string, now: int)
    requires PlaylistAccepted(body.playlist)
    ensures Lookup(db[id := Snapshot(now, SafeName(body.ownerName), body.playlist.value.items)], id)
      == GetOk(SafeName(body.ownerName), Some(body.playlist.value.items))
  {
  }

  /** The body the client posts for a share request. */
  function BodyOf(request: ShareRequest): ShareBody {
    ShareBody(Some(JString(request.ownerName)), Some(JArray(request.playlist)))
  }

  /**
   * End to end: a non-empty playlist with a non-blank name passes the
   * client's share guard; the server accepts the request, stores the
   * client's trimmed name unchanged, and a lookup of the new id gives back
   * that name and the playlist.
   */
  lemma ClientShareStoredAsSent(playlist: seq<Track>, ownerName: string, db: map<string, Snapshot>, id: string, now: int)
    requires playlist != [] && !IsBlank(ownerName)
    ensures ShareGuard(playlist, ownerName).Send?
    ensures var request := ShareGuard(playlist, ownerName).request;
      && PlaylistAccepted(BodyOf(request).playlist)
      && SafeName(BodyOf(request).ownerName) == Trim(ownerName)
      && Lookup(db[id := Snapshot(now, SafeName(BodyOf(request).ownerName), playlist)], id)
           == GetOk(Trim(ownerName), Some(playlist))
  {
    var request := ShareGuard(playlist, ownerName).request;
    SafeNameOfTrimmed(request.ownerName);
  }

  // ---------------------------------------------------------------- ids and the prototype chain

  /**
   * The names a plain JavaScript object inherits from `Object.prototype`;
   * indexing `db` with one of them yields a truthy value although no share
   * was stored under it.
   */
  const ObjectPrototypeKeys: set<string> := {
    "constructor", "hasOwnProperty", "isPrototypeOf", "propertyIsEnumerable",
    "toLocaleString", "toString", "valueOf", "__proto__",
    "__defineGetter__", "__defineSetter__", "__lookupGetter__", "__lookupSetter__"
  }

  /**
   * `!db[id]` as written: a stored id answers its snapshot; an inherited
   * prototype name answers success with the default name and no playlist;
   * any other id answers 404.
   */
  function LookupAsWritten(db: map<string, Snapshot>, id: string): (r: GetResponse)
    ensures id in db ==> r == Lookup(db, id)
    ensures id !in db && id !in ObjectPrototypeKeys ==> r == Lookup(db, id)
    ensures id !in db && id in ObjectPrototypeKeys ==> r == GetOk(DefaultOwner, None)
  {
    if id in db then Lookup(db, id)
    else if id in ObjectPrototypeKeys then GetOk(OwnerOrDefault(""), None)
    else GetFailed(404, NotFoundMessage)
  }

  /**
   * An id that was never stored is reported as found: on any store without a
   * `"toString"` share, `GET /api/share/toString` answers success instead of 404.
   */
  lemma PrototypeNameFoundAsWritten(db: map<string, Snapshot>)
    requires "toString" !in db
    ensures LookupAsWritten(db, "toString") == GetOk(DefaultOwner, None)
    ensures Lookup(db, "toString") == GetFailed(404, NotFoundMessage)
  {
  }

  /** `Math.random().toString(36).slice(2, 10)`: at most eight base-36 digits in lower case. */
  predicate IsGeneratedId(id: string)
    ensures IsGeneratedId(id) ==> '/' !in id && '?' !in id && '#' !in id  // one path segment of the share link
  {
    |id| <= 8 && forall k :: 0 <= k < |id| ==> ('0' <= id[k] <= '9' || 'a' <= id[k] <= 'z')
  }

  /** No generated id is an inherited name, so the as-written lookup agrees with `Lookup` on them. */
  lemma GeneratedIdsAvoidPrototype(db: map<string, Snapshot>, id: string)
    requires IsGeneratedId(id)
    ensures id !in ObjectPrototypeKeys
    ensures LookupAsWritten(db, id) == Lookup(db, id)
  {
    assert "toString"[2] == 'S' && "valueOf"[5] == 'O';
  }

  // ---------------------------------------------------------------- the server state

  class Backend {
    /** The share store: id to snapshot. */
    var db: map<string, Snapshot>
    /** `cachedToken`; `None` is `null`. */
    var cachedToken: Option<string>
    /** `tokenExpiresAt`, in milliseconds. */
    var tokenExpiresAt: int

    /** Process start: the token cache is empty and the store holds what the file held. */
    constructor (stored: map<string, Snapshot>)
      ensures db == stored && cachedToken == None && tokenExpiresAt == 0
    {
      db, cachedToken, tokenExpiresAt := stored, None, 0;
    }

    /**
     * `getAccessToken` at time `now`; `response` is what the token endpoint
     * answers if it is asked, and `fetched` says whether it was.
     */
    method GetAccessToken(now: int, response: TokenResponse) returns (result: TokenResult, fetched: bool)
      modifies this`cachedToken, this`tokenExpiresAt
      ensures fetched <==> !Fresh(old(cachedToken), old(tokenExpiresAt), now)
      ensures !fetched ==> result == TokenOk(old(cachedToken).value)
      ensures !fetched || response.TokenRejected? ==>
                cachedToken == old(cachedToken) && tokenExpiresAt == old(tokenExpiresAt)
      ensures fetched && response.TokenRejected? ==> result == TokenFailed
      ensures fetched && response.TokenGranted? ==>
                && cachedToken == Some(response.accessToken)
                && tokenExpiresAt == ExpiryAfterRefresh(now, response.expiresIn)
                && result == TokenOk(response.accessToken)
    {
      if Fresh(cachedToken, tokenExpiresAt, now) {
        return TokenOk(cachedToken.value), false;
      }
      fetched := true;
      if response.TokenRejected? {
        return TokenFailed, fetched;
      }
      cachedToken := Some(response.accessToken);
      tokenExpiresAt := now + (response.expiresIn - TokenMarginSeconds) * 1000;
      result := TokenOk(cachedToken.value);
    }

    /**
     * `GET /api/search?q=`: 400 for a missing or empty query; otherwise a
     * token is obtained (500 if that throws) and the catalog's parsed answer
     * `catalogAnswer` is passed through (500 if it could not be fetched or parsed).
     */
    method Search(q: Option<string>, now: int, tokenResponse: TokenResponse, catalogAnswer: Option<Json>)
      returns (response: SearchResponse)
      modifies this`cachedToken, this`tokenExpiresAt
      ensures !Truthy(q) ==>
                response == SearchFailed(400, QueryRequiredMessage)
                && cachedToken == old(cachedToken) && tokenExpiresAt == old(tokenExpiresAt)
      ensures Truthy(q) && !Fresh(old(cachedToken), old(tokenExpiresAt), now) && tokenResponse.TokenRejected? ==>
                response == SearchFailed(500, InternalErrorMessage)
                && cachedToken == old(cachedToken) && tokenExpiresAt == old(tokenExpiresAt)
      ensures Truthy(q) && Fresh(old(cachedToken), old(tokenExpiresAt), now) ==>
                cachedToken == old(cachedToken) && tokenExpiresAt == old(tokenExpiresAt)
      ensures Truthy(q) && !Fresh(old(cachedToken), old(tokenExpiresAt), now) && tokenResponse.TokenGranted? ==>
                cachedToken == Some(tokenResponse.accessToken)
                && tokenExpiresAt == ExpiryAfterRefresh(now, tokenResponse.expiresIn)
      ensures Truthy(q) && (Fresh(old(cachedToken), old(tokenExpiresAt), now) || tokenResponse.TokenGranted?) ==>
                response == if catalogAnswer.Some? then SearchOk(catalogAnswer.value)
                            else SearchFailed(500, InternalErrorMessage)
    {
      if !Truthy(q) {
        return SearchFailed(400, QueryRequiredMessage);
      }
      var token, _ := GetAccessToken(now, tokenResponse);
      if token.TokenFailed? {
        return SearchFailed(500, InternalErrorMessage);
      }
      if catalogAnswer.None? {
        return SearchFailed(500, InternalErrorMessage);
      }
      response := SearchOk(catalogAnswer.value);
    }

    /**
     * `POST /api/share` with the generated `id` and the clock reading `now`:
     * 400 and no write for a missing, non-array or empty playlist; otherwise
     * the snapshot is written under `id` (overwriting on a collision) and
     * every other id keeps its snapshot.
     */
    method PostShare(body: ShareBody, id: string, now: int) returns (response: PostResponse)
      modifies this`db
      ensures !PlaylistAccepted(body.playlist) ==>
                response == PostFailed(400, EmptyPlaylistMessage) && db == old(db)
      ensures PlaylistAccepted(body.playlist) ==>
                && db == old(db)[id := Snapshot(now, SafeName(body.ownerName), body.playlist.value.items)]
                && response == PostOk(id, ShareUrlBase + id)
      ensures forall other :: other != id ==> Lookup(db, other) == Lookup(old(db), other)
    {
      if !PlaylistAccepted(body.playlist) {
        return PostFailed(400, EmptyPlaylistMessage);
      }
      var safeName := SafeName(body.ownerName);
      db := db[id := Snapshot(now, safeName, body.playlist.value.items)];
      response := PostOk(id, ShareUrlBase + id);
    }

    /** `GET /api/share/:id`, on the store's own keys. */
    method GetShare(id: string) returns (response: GetResponse)
      ensures response == Lookup(db, id)
      ensures response.GetFailed? <==> id !in db
      ensures id !in db ==> response == GetFailed(404, NotFoundMessage)
      ensures id in db ==> response == GetOk(OwnerOrDefault(db[id].ownerName), Some(db[id].playlist))
    {
      if id !in db {
        return GetFailed(404, NotFoundMessage);
      }
      var snap := db[id];
      response := GetOk(if snap.ownerName == "" then DefaultOwner else snap.ownerName, Some(snap.playlist));
    }
  }
}
