/**
 * Avatar URL resolution and the avatar cache of the client's user service
 * (front/src/project/services/user.service.ts).
 */
module Avatars {
  import opened Wrappers
  import opened Users

  const DefaultAvatarUrl := "assets/default-avatar.png"
  const BackendOrigin := "http://localhost:8000"
  const MediaRoot := "http://localhost:8000/media/"

  /** JavaScript truthiness of an optional string field: present and non-empty. */
  predicate Truthy(o: Option<string>) {
    o.Some? && o.value != ""
  }

  predicate IsSuffix(suffix: string, s: string) {
    |suffix| <= |s| && s[|s| - |suffix|..] == suffix
  }

  /**
   * The URL a fetched user record resolves to: `avatar_url` if set; else a
   * stored `avatar`, made absolute against the backend; else the default image.
   */
  function AvatarUrlFor(u: User): (r: string)
    ensures r != ""
    ensures Truthy(u.avatarUrl) ==> r == u.avatarUrl.value
    ensures !Truthy(u.avatarUrl) && Truthy(u.avatar) ==> "http" <= r && IsSuffix(u.avatar.value, r)
    ensures !Truthy(u.avatarUrl) && !Truthy(u.avatar) ==> r == DefaultAvatarUrl
  {
    if Truthy(u.avatarUrl) then u.avatarUrl.value
    else if Truthy(u.avatar) then
      var a := u.avatar.value;
      if "/" <= a then BackendOrigin + a
      else if "http" <= a then a
      else MediaRoot + a
    else DefaultAvatarUrl
  }

  /** A root-relative avatar path is joined to the backend origin. */
  lemma RootRelativeAvatar(u: User)
    requires !Truthy(u.avatarUrl) && Truthy(u.avatar) && "/" <= u.avatar.value
    ensures AvatarUrlFor(u) == "http://localhost:8000" + u.avatar.value
  {
  }

  /** An avatar that already is an `http...` URL is returned unchanged. */
  lemma AbsoluteAvatar(u: User)
    requires !Truthy(u.avatarUrl) && Truthy(u.avatar) && "http" <= u.avatar.value
    ensures AvatarUrlFor(u) == u.avatar.value
  {
    assert u.avatar.value[0] == 'h';
  }

  /** Any other avatar path is taken relative to the media root. */
  lemma MediaRelativeAvatar(u: User)
    requires !Truthy(u.avatarUrl) && Truthy(u.avatar)
    requires !("/" <= u.avatar.value) && !("http" <= u.avatar.value)
    ensures AvatarUrlFor(u) == "http://localhost:8000/media/" + u.avatar.value
  {
  }

  /**
   * Resolution is stable: a record whose avatar path is replaced by the URL it
   * resolved to resolves to that same URL again.
   */
  lemma ResolvedAvatarIsStable(u: User)
    requires !Truthy(u.avatarUrl) && Truthy(u.avatar)
    ensures var r := AvatarUrlFor(u); AvatarUrlFor(u.(avatar := Some(r))) == r
  {
    var r := AvatarUrlFor(u);
    assert r[0] == 'h';
    assert !("/" <= r);
  }

  /**
   * The user service's avatar state. `avatarCache` is the `Map<number, string>`;
   * `fetches` logs the user ids for which `GET /users/{id}/` was issued.
   */
  class UserService {
    var avatarCache: map<int, string>
    var fetches: seq<int>

    /** Only non-empty URLs are ever cached. */
    ghost predicate Valid()
      reads this
    {
      forall id :: id in avatarCache ==> avatarCache[id] != ""
    }

    constructor ()
      ensures Valid() && avatarCache == map[] && fetches == []
    {
      avatarCache := map[];
      fetches := [];
    }

    /**
     * The synchronous part of `getAvatarUrl(userId)`. `invalidated` is the
     * truthiness of the stored `avatar_cache_invalidated` item and
     * `storedUserId` is `Number(localStorage.getItem('user_id'))` (`None` for
     * NaN). A hit answers at once with `Some(url)`; a miss issues the request
     * and answers `None`: the cache is written only when the response arrives,
     * in `OnAvatarFetched`.
     */
    method GetAvatarUrl(userId: int, invalidated: bool, storedUserId: Option<int>)
      returns (hit: Option<string>)
      requires Valid()
      modifies this
      ensures Valid()
      ensures var cache := if invalidated && storedUserId == Some(userId)
                           then old(avatarCache) - {userId} else old(avatarCache);
              && avatarCache == cache
              && (userId in cache ==> hit == Some(cache[userId]) && fetches == old(fetches))
              && (userId !in cache ==> hit == None && fetches == old(fetches) + [userId])
      ensures hit.Some? ==> hit.value != ""
    {
      if invalidated && storedUserId == Some(userId) {
        avatarCache := avatarCache - {userId};
      }
      if userId in avatarCache {
        var url := avatarCache[userId];
        if url == "" {
          url := DefaultAvatarUrl;
        }
        return Some(url);
      }
      fetches := fetches + [userId];
      hit := None;
    }

    /**
     * Completion of the request `GetAvatarUrl` issued: the `map` step on a
     * user record, or `catchError` (`response == None`). Either way the
     * resulting URL is cached for `userId`, whatever happened to the cache
     * in the meantime.
     */
    method OnAvatarFetched(userId: int, response: Option<User>) returns (url: string)
      requires Valid()
      modifies this
      ensures Valid()
      ensures url != ""
      ensures url == if response.Some? then AvatarUrlFor(response.value) else DefaultAvatarUrl
      ensures avatarCache == old(avatarCache)[userId := url] && fetches == old(fetches)
    {
      match response {
        case Some(user) =>
          url := AvatarUrlFor(user);
        case None =>
          url := DefaultAvatarUrl;
      }
      avatarCache := avatarCache[userId := url];
    }

    /** `clearAvatarCache(userId?)`: an absent or zero id is falsy and clears every entry. */
    method ClearAvatarCache(userId: Option<int>)
      requires Valid()
      modifies this
      ensures Valid()
      ensures fetches == old(fetches)
      ensures avatarCache == if userId.Some? && userId.value != 0
                             then old(avatarCache) - {userId.value} else map[]
    {
      if userId.Some? && userId.value != 0 {
        avatarCache := avatarCache - {userId.value};
      } else {
        avatarCache := map[];
      }
    }

    /** The `storage` listener: a write of `avatar_cache_invalidated` in another tab clears the cache. */
    method OnStorage(key: string)
      requires Valid()
      modifies this
      ensures Valid()
      ensures fetches == old(fetches)
      ensures avatarCache == if key == "avatar_cache_invalidated" then map[] else old(avatarCache)
    {
      if key == "avatar_cache_invalidated" {
        ClearAvatarCache(None);
      }
    }
  }

  /**
   * Invalidation forces a re-fetch: with the flag set, the current user's
   * entry is dropped and the next lookup misses, while other users' hits stay hits.
   */
  method InvalidatedLookupRefetches(s: UserService, userId: int, other: int, response: Option<User>)
    returns (url: string)
    requires s.Valid() && userId in s.avatarCache && other in s.avatarCache && other != userId
    modifies s
    ensures s.fetches == old(s.fetches) + [userId]
    ensures other in s.avatarCache && s.avatarCache[other] == old(s.avatarCache[other])
    ensures userId in s.avatarCache && s.avatarCache[userId] == url
    ensures url == if response.Some? then AvatarUrlFor(response.value) else DefaultAvatarUrl
  {
    var hit := s.GetAvatarUrl(userId, true, Some(userId));
    assert hit == None;
    url := s.OnAvatarFetched(userId, response);
  }

  /**
   * Lookups are not coalesced: a second lookup of the same id made before the
   * first response arrives misses again and issues a second request.
   */
  method MissesAreNotCoalesced(s: UserService, userId: int)
    requires s.Valid() && userId !in s.avatarCache
    modifies s
    ensures s.fetches == old(s.fetches) + [userId, userId]
    ensures s.avatarCache == old(s.avatarCache)
  {
    var first := s.GetAvatarUrl(userId, false, None);
    var second := s.GetAvatarUrl(userId, false, None);
    assert first == None && second == None;
  }

  /**
   * A cross-tab invalidation that lands while a request is in flight is undone
   * for that id: the late response writes its URL back into the cleared cache.
   */
  method LateResponseRefillsClearedCache(s: UserService, userId: int, response: Option<User>)
    requires s.Valid() && userId !in s.avatarCache
    modifies s
    ensures s.avatarCache.Keys == {userId}
    ensures s.avatarCache[userId] == if response.Some? then AvatarUrlFor(response.value) else DefaultAvatarUrl
  {
    var hit := s.GetAvatarUrl(userId, false, None);
    s.OnStorage("avatar_cache_invalidated");
    var url := s.OnAvatarFetched(userId, response);
  }
}
