/**
 * Signing out: the auth session is ended first, then every AsyncStorage
 * entry whose key marks it as user data is removed, then the fixed cache
 * keys. AsyncStorage is a map from key to stored text; whether each
 * storage call and the sign-out succeed is a parameter.
 */
module SessionManager {
  import opened Common
  import opened JsText

  /** AsyncStorage's contents. */
  type Storage = map<string, string>

  /** The key fragments that mark an entry as user data. */
  const UserDataMarkers: seq<string> := ["user_", "debt_", "currency_", "notification_", "category_", "auth_"]

  /** The cache keys removed by name. */
  const CacheKeys: set<string> := {"exchange_rates", "cached_debts", "user_preferences", "app_settings"}

  /** The `keys.filter` test of `clearLocalStorage`: the key contains one of the markers. */
  predicate IsUserDataKey(key: string) {
    Contains(key, "user_") || Contains(key, "debt_") || Contains(key, "currency_")
    || Contains(key, "notification_") || Contains(key, "category_") || Contains(key, "auth_")
  }

  /** The test names exactly the markers of `UserDataMarkers`. */
  lemma UserDataKeyIff(key: string)
    ensures IsUserDataKey(key) <==> exists i :: 0 <= i < |UserDataMarkers| && Contains(key, UserDataMarkers[i])
  {
    if IsUserDataKey(key) {
      if Contains(key, "user_") { assert Contains(key, UserDataMarkers[0]); }
      else if Contains(key, "debt_") { assert Contains(key, UserDataMarkers[1]); }
      else if Contains(key, "currency_") { assert Contains(key, UserDataMarkers[2]); }
      else if Contains(key, "notification_") { assert Contains(key, UserDataMarkers[3]); }
      else if Contains(key, "category_") { assert Contains(key, UserDataMarkers[4]); }
      else { assert Contains(key, UserDataMarkers[5]); }
    }
  }

  /** The keys `clearLocalStorage` hands to `multiRemove`. */
  function UserDataKeys(keys: set<string>): set<string> {
    set k | k in keys && IsUserDataKey(k)
  }

  /** Storage after a successful `clearLocalStorage`. */
  function WithoutUserData(entries: Storage): Storage {
    entries - UserDataKeys(entries.Keys)
  }

  /** Storage after a successful `clearCache`. */
  function WithoutCache(entries: Storage): Storage {
    entries - CacheKeys
  }

  /**
   * Storage after the two clearing steps of `clearSession`: a step whose
   * storage call fails removes nothing, and the other step still runs.
   */
  function Cleared(entries: Storage, localReadOk: bool, localRemoveOk: bool, cacheRemoveOk: bool): Storage {
    var afterLocal := if localReadOk && localRemoveOk then WithoutUserData(entries) else entries;
    if cacheRemoveOk then WithoutCache(afterLocal) else afterLocal
  }

  /**
   * When every storage call succeeds, what is left is exactly the entries
   * whose key is neither user data nor a cache key, each with the text it
   * had.
   */
  lemma ClearedEntries(entries: Storage)
    ensures var r := Cleared(entries, true, true, true);
      && (forall k :: k in r <==> k in entries && !IsUserDataKey(k) && k !in CacheKeys)
      && (forall k :: k in r ==> r[k] == entries[k])
  {
  }

  /** Whatever fails, nothing is added and no surviving entry changes its text. */
  lemma ClearedOnlyRemoves(entries: Storage, localReadOk: bool, localRemoveOk: bool, cacheRemoveOk: bool)
    ensures var r := Cleared(entries, localReadOk, localRemoveOk, cacheRemoveOk);
      && r.Keys <= entries.Keys
      && (forall k :: k in r ==> r[k] == entries[k])
      && (cacheRemoveOk ==> forall k :: k in CacheKeys ==> k !in r)
  {
  }

  /** `s` begins with `p`, so it contains it. */
  lemma PrefixContained(s: string, p: string)
    requires StartsWith(s, p)
    ensures Contains(s, p)
  {
  }

  /**
   * The keys the services write (the category list, the reminder
   * preferences, the currency preference and the exchange-rate cache) are
   * all gone once every storage call of sign-out succeeds; the cache key
   * `user_preferences` is user data too.
   */
  lemma ServiceKeysCleared(entries: Storage)
    ensures var r := Cleared(entries, true, true, true);
      && "debt_categories" !in r && "notification_preferences" !in r
      && "currency_preference" !in r && "exchange_rates" !in r
    ensures IsUserDataKey("user_preferences")
  {
    PrefixContained("debt_categories", "debt_");
    PrefixContained("notification_preferences", "notification_");
    PrefixContained("currency_preference", "currency_");
    PrefixContained("user_preferences", "user_");
    ClearedEntries(entries);
  }

  /** What `supabase.auth.getSession()` gave: a throw, or a session (or none) and an error (or none). */
  datatype SessionResponse = Threw | Responded(session: Option<string>, error: Option<string>)

  /** `isSessionValid`: a throw counts as invalid. */
  function IsSessionValid(response: SessionResponse): (valid: bool)
    ensures valid <==> response.Responded? && response.error.None? && response.session.Some?
  {
    match response
    case Threw => false
    case Responded(session, error) => error.None? && session.Some?
  }

  /** A call made on the outside world, in the order made. */
  datatype Call = SignOut | MultiRemove(keys: set<string>)

  /** The `multiRemove` call `clearLocalStorage` makes, if any. */
  function LocalRemoveCalls(entries: Storage, readOk: bool): seq<Call> {
    var userDataKeys := UserDataKeys(entries.Keys);
    if readOk && userDataKeys != {} then [MultiRemove(userDataKeys)] else []
  }

  class SessionStore {
    /** AsyncStorage's contents. */
    var entries: Storage
    /** The auth client's current session (its access token), if any. */
    var session: Option<string>
    /** The sign-out and `multiRemove` calls made, oldest first. */
    var calls: seq<Call>

    constructor (entries: Storage, session: Option<string>)
      ensures this.entries == entries && this.session == session && calls == []
    {
      this.entries := entries;
      this.session := session;
      calls := [];
    }

    /**
     * `clearLocalStorage`: `multiRemove` is called only when some key is
     * user data; a failing `getAllKeys` or `multiRemove` is logged and
     * swallowed, and removes nothing.
     */
    method ClearLocalStorage(readOk: bool, removeOk: bool)
      modifies this
      ensures calls == old(calls) + LocalRemoveCalls(old(entries), readOk)
      ensures entries == (if readOk && removeOk then WithoutUserData(old(entries)) else old(entries))
      ensures session == old(session)
    {
      if !readOk {
        return;
      }
      var userDataKeys := UserDataKeys(entries.Keys);
      if userDataKeys != {} {
        calls := calls + [MultiRemove(userDataKeys)];
        if removeOk {
          entries := entries - userDataKeys;
        }
      }
    }

    /** `clearCache`: the fixed keys go; a failing `multiRemove` is logged and swallowed. */
    method ClearCache(removeOk: bool)
      modifies this
      ensures calls == old(calls) + [MultiRemove(CacheKeys)]
      ensures entries == (if removeOk then WithoutCache(old(entries)) else old(entries))
      ensures session == old(session)
    {
      calls := calls + [MultiRemove(CacheKeys)];
      if removeOk {
        entries := entries - CacheKeys;
      }
    }

    /**
     * `clearSession`: sign out, then clear local storage, then the cache. A
     * throw from sign-out is passed on and storage is left alone; an error
     * that sign-out returns is not looked at, so storage is cleared while the
     * session stays; storage failures never reach the caller.
     */
    method ClearSession(signOut: SignOutOutcome, localReadOk: bool, localRemoveOk: bool, cacheRemoveOk: bool)
      returns (error: Option<string>)
      modifies this
      ensures error == (if signOut.SignOutThrew? then Some(signOut.message) else None)
      ensures session == SessionAfter(old(session), signOut)
      ensures signOut.SignOutThrew? ==> calls == old(calls) + [SignOut] && entries == old(entries)
      ensures !signOut.SignOutThrew? ==>
        && entries == Cleared(old(entries), localReadOk, localRemoveOk, cacheRemoveOk)
        && calls == old(calls) + [SignOut] + LocalRemoveCalls(old(entries), localReadOk) + [MultiRemove(CacheKeys)]
      ensures signOut == SignedOut ==> !IsSessionValid(Responded(session, None))
    {
      calls := calls + [SignOut];
      if signOut.SignOutThrew? {
        return Some(signOut.message);
      }
      if signOut == SignedOut {
        session := None;
      }
      ClearLocalStorage(localReadOk, localRemoveOk);
      ClearCache(cacheRemoveOk);
      error := None;
    }
  }

  /**
   * How `supabase.auth.signOut()` ended: the session was ended, it resolved
   * with an error (the session stays), or it threw.
   */
  datatype SignOutOutcome = SignedOut | SignOutReturnedError(message: string) | SignOutThrew(message: string)

  /** The auth client's session once `clearSession` has called sign-out. */
  function SessionAfter(session: Option<string>, signOut: SignOutOutcome): Option<string> {
    if signOut == SignedOut then None else session
  }

  /**
   * After `clearSession` a fresh `isSessionValid` check (with no error
   * reported) fails exactly when sign-out ended the session or there was
   * none to begin with; a sign-out that returned an error or threw leaves a
   * session that still reads as valid.
   */
  lemma SignedOutInvalid(session: Option<string>, signOut: SignOutOutcome)
    ensures IsSessionValid(Responded(SessionAfter(session, signOut), None))
            <==> session.Some? && signOut != SignedOut
  {
  }
}
