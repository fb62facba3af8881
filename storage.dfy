/**
 * The `storage` helper object: a setter, getter and remover for each of four
 * `localStorage` entries, plus `clearAll`.
 */
module Storage {
  import opened Wrappers
  import opened Json
  import opened WebStorage
  import AuthUtils

  const AccessTokenKey := "steam_buds_access_token"
  const RefreshTokenKey := "steam_buds_refresh_token"
  const UserKey := "steam_buds_user"
  const ProfileKey := "steam_buds_profile"

  /** The four entries this object manages. */
  const Keys: set<string> := {AccessTokenKey, RefreshTokenKey, UserKey, ProfileKey}

  /** The four keys are pairwise distinct, so each setter and remover affects one entry only. */
  lemma KeysDistinct()
    ensures AccessTokenKey != RefreshTokenKey && AccessTokenKey != UserKey && AccessTokenKey != ProfileKey
    ensures RefreshTokenKey != UserKey && RefreshTokenKey != ProfileKey && UserKey != ProfileKey
  {
  }

  /**
   * The token keys are the ones the token utilities use, so both read and
   * write the same tokens; the user entries are different keys.
   */
  lemma SharedTokenKeys()
    ensures AccessTokenKey == AuthUtils.AccessTokenKey && RefreshTokenKey == AuthUtils.RefreshTokenKey
    ensures UserKey != AuthUtils.UserDataKey && AuthUtils.UserDataKey !in Keys
  {
  }

  // Access token

  method SetAccessToken(ls: LocalStorage, token: string)
    modifies ls
    ensures ls.items == old(ls.items)[AccessTokenKey := token]
    ensures GetAccessToken(ls) == Some(token)
  {
    ls.SetItem(AccessTokenKey, token);
  }

  function GetAccessToken(ls: LocalStorage): (r: Option<string>)
    reads ls
    ensures r.Some? <==> AccessTokenKey in ls.items
    ensures r.Some? ==> r.value == ls.items[AccessTokenKey]
  {
    ls.GetItem(AccessTokenKey)
  }

  method RemoveAccessToken(ls: LocalStorage)
    modifies ls
    ensures ls.items == old(ls.items) - {AccessTokenKey}
    ensures GetAccessToken(ls).None?
  {
    ls.RemoveItem(AccessTokenKey);
  }

  // Refresh token

  method SetRefreshToken(ls: LocalStorage, token: string)
    modifies ls
    ensures ls.items == old(ls.items)[RefreshTokenKey := token]
    ensures GetRefreshToken(ls) == Some(token)
  {
    ls.SetItem(RefreshTokenKey, token);
  }

  function GetRefreshToken(ls: LocalStorage): (r: Option<string>)
    reads ls
    ensures r.Some? <==> RefreshTokenKey in ls.items
    ensures r.Some? ==> r.value == ls.items[RefreshTokenKey]
  {
    ls.GetItem(RefreshTokenKey)
  }

  method RemoveRefreshToken(ls: LocalStorage)
    modifies ls
    ensures ls.items == old(ls.items) - {RefreshTokenKey}
    ensures GetRefreshToken(ls).None?
  {
    ls.RemoveItem(RefreshTokenKey);
  }

  // User

  /** Stores `JSON.stringify(user)`; reading it back gives `user` (a stored `null` reads as absent). */
  method SetUser(ls: LocalStorage, user: Json)
    modifies ls
    ensures ls.items == old(ls.items)[UserKey := Serialize(user)]
    ensures user != JNull ==> GetUser(ls) == Some(user)
    ensures user == JNull ==> GetUser(ls).None?
  {
    ls.SetItem(UserKey, Serialize(user));
    if user != JNull {
      ReadStoredSerialized(user);
    } else {
      assert Serialize(user) == "null";
      ParseSerialize(JNull);
    }
  }

  /** `getUser`: the parsed entry, or `None` when it is absent, empty or does not parse. */
  function GetUser(ls: LocalStorage): (r: Option<Json>)
    reads ls
    ensures (UserKey !in ls.items || ls.items[UserKey] == "") ==> r.None?
    ensures r.Some? <==> UserKey in ls.items && ls.items[UserKey] != "" &&
                         Parse(ls.items[UserKey]).Some? && Parse(ls.items[UserKey]) != Some(JNull)
    ensures r.Some? ==> Serialize(r.value) == ls.items[UserKey]
  {
    ReadStored(ls.GetItem(UserKey))
  }

  method RemoveUser(ls: LocalStorage)
    modifies ls
    ensures ls.items == old(ls.items) - {UserKey}
    ensures GetUser(ls).None?
  {
    ls.RemoveItem(UserKey);
  }

  // Profile

  method SetProfile(ls: LocalStorage, profile: Json)
    modifies ls
    ensures ls.items == old(ls.items)[ProfileKey := Serialize(profile)]
    ensures profile != JNull ==> GetProfile(ls) == Some(profile)
    ensures profile == JNull ==> GetProfile(ls).None?
  {
    ls.SetItem(ProfileKey, Serialize(profile));
    if profile != JNull {
      ReadStoredSerialized(profile);
    } else {
      assert Serialize(profile) == "null";
      ParseSerialize(JNull);
    }
  }

  /** `getProfile`: the parsed entry, or `None` when it is absent, empty or does not parse. */
  function GetProfile(ls: LocalStorage): (r: Option<Json>)
    reads ls
    ensures (ProfileKey !in ls.items || ls.items[ProfileKey] == "") ==> r.None?
    ensures r.Some? <==> ProfileKey in ls.items && ls.items[ProfileKey] != "" &&
                         Parse(ls.items[ProfileKey]).Some? && Parse(ls.items[ProfileKey]) != Some(JNull)
    ensures r.Some? ==> Serialize(r.value) == ls.items[ProfileKey]
  {
    ReadStored(ls.GetItem(ProfileKey))
  }

  method RemoveProfile(ls: LocalStorage)
    modifies ls
    ensures ls.items == old(ls.items) - {ProfileKey}
    ensures GetProfile(ls).None?
  {
    ls.RemoveItem(ProfileKey);
  }

  /** `clearAll`: removes exactly the four entries; every other entry is kept. */
  method ClearAll(ls: LocalStorage)
    modifies ls
    ensures ls.items == old(ls.items) - Keys
    ensures GetAccessToken(ls).None? && GetRefreshToken(ls).None? && GetUser(ls).None? && GetProfile(ls).None?
  {
    RemoveAccessToken(ls);
    RemoveRefreshToken(ls);
    RemoveUser(ls);
    RemoveProfile(ls);
  }
}
