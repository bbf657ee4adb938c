/**
 * Credential resolution and the memoised browser client (src/lib/supabase/client.ts).
 *
 * The module-level cache, the `window.__SUPABASE_OVERRIDE__` slot, `localStorage`
 * and the build-time environment are the fields of one `ClientCache` object. A
 * created client is represented by a token: the number of clients created so far.
 */
module SupabaseClient {
  import opened Types

  /** A `{ url, anonKey }` pair; either part may be missing. */
  datatype Credentials = Credentials(url: Option<string>, anonKey: Option<string>)

  const UrlKey := "supabase-url-override"
  const AnonKeyKey := "supabase-anon-override"
  const NotConfigured :=
    "Supabase não configurado. Defina NEXT_PUBLIC_SUPABASE_URL/ANON_KEY ou use /admin/config."

  /** JavaScript truthiness of a nullable string: present and non-empty. */
  predicate Truthy(s: Option<string>)
  {
    s.Some? && s.value != ""
  }

  predicate Complete(c: Credentials)
  {
    Truthy(c.url) && Truthy(c.anonKey)
  }

  /** The `localStorage` pair, when both items are truthy. */
  function StoredPair(storage: map<string, string>): Option<Credentials>
  {
    if UrlKey in storage && AnonKeyKey in storage && storage[UrlKey] != "" && storage[AnonKeyKey] != ""
    then Some(Credentials(Some(storage[UrlKey]), Some(storage[AnonKeyKey])))
    else None
  }

  /** What `readCredentials` returns. */
  function Resolve(inBrowser: bool, override: Option<Credentials>, storage: map<string, string>, env: Credentials): Credentials
  {
    if !inBrowser then env
    else if override.Some? && Complete(override.value) then override.value
    else if StoredPair(storage).Some? then StoredPair(storage).value
    else env
  }

  /** The override slot after `readCredentials`: the stored pair is installed when it was used. */
  function OverrideAfterRead(inBrowser: bool, override: Option<Credentials>, storage: map<string, string>): Option<Credentials>
  {
    if inBrowser && !(override.Some? && Complete(override.value)) && StoredPair(storage).Some?
    then StoredPair(storage)
    else override
  }

  /** On the server the environment is always used. */
  lemma ServerUsesEnvironment(override: Option<Credentials>, storage: map<string, string>, env: Credentials)
    ensures Resolve(false, override, storage, env) == env
    ensures OverrideAfterRead(false, override, storage) == override
  {
  }

  /**
   * In the browser a complete override wins; otherwise a complete stored pair,
   * which is then installed as the override; otherwise the environment.
   */
  lemma BrowserPrecedence(override: Option<Credentials>, storage: map<string, string>, env: Credentials)
    ensures override.Some? && Complete(override.value) ==>
      Resolve(true, override, storage, env) == override.value
    ensures !(override.Some? && Complete(override.value)) && UrlKey in storage && AnonKeyKey in storage &&
            storage[UrlKey] != "" && storage[AnonKeyKey] != "" ==>
      Resolve(true, override, storage, env) == Credentials(Some(storage[UrlKey]), Some(storage[AnonKeyKey])) &&
      OverrideAfterRead(true, override, storage) == Some(Resolve(true, override, storage, env))
    ensures !(override.Some? && Complete(override.value)) && StoredPair(storage).None? ==>
      Resolve(true, override, storage, env) == env
  {
  }

  /** Reading again after a read resolves to the same pair, so the cache stays valid. */
  lemma ResolveStable(inBrowser: bool, override: Option<Credentials>, storage: map<string, string>, env: Credentials)
    ensures Resolve(inBrowser, OverrideAfterRead(inBrowser, override, storage), storage, env) ==
      Resolve(inBrowser, override, storage, env)
    ensures OverrideAfterRead(inBrowser, OverrideAfterRead(inBrowser, override, storage), storage) ==
      OverrideAfterRead(inBrowser, override, storage)
  {
  }

  /** After `setSupabaseCredentials(u, k)` with non-empty values, resolution yields exactly `(u, k)`. */
  lemma ResolveAfterSet(u: string, k: string, storage: map<string, string>, env: Credentials)
    ensures u != "" && k != "" ==>
      Resolve(true, Some(Credentials(Some(u), Some(k))), storage[UrlKey := u][AnonKeyKey := k], env) ==
      Credentials(Some(u), Some(k))
    ensures u == "" || k == "" ==>
      Resolve(true, Some(Credentials(Some(u), Some(k))), storage[UrlKey := u][AnonKeyKey := k], env) == env
  {
    var st := storage[UrlKey := u][AnonKeyKey := k];
    assert UrlKey != AnonKeyKey;
    assert st[UrlKey] == u && st[AnonKeyKey] == k;
  }

  /** After the overrides are cleared, resolution falls back to the environment. */
  lemma ResolveAfterClear(storage: map<string, string>, env: Credentials)
    ensures Resolve(true, None, storage - {UrlKey, AnonKeyKey}, env) == env
  {
  }

  class ClientCache {
    /** `typeof window !== 'undefined'`. */
    const inBrowser: bool
    /** `NEXT_PUBLIC_SUPABASE_URL` and `NEXT_PUBLIC_SUPABASE_ANON_KEY`. */
    const env: Credentials
    /** `window.__SUPABASE_OVERRIDE__`. */
    var override: Option<Credentials>
    /** `window.localStorage`. */
    var storage: map<string, string>
    /** `cachedClient`, as the token of the client it holds. */
    var cachedClient: Option<nat>
    var cachedCreds: Credentials
    /** How many clients `createBrowserClient` has made. */
    var created: nat

    constructor (inBrowser: bool, env: Credentials, storage: map<string, string>)
      ensures this.inBrowser == inBrowser && this.env == env && this.storage == storage
      ensures override == None && cachedClient == None && cachedCreds == Credentials(None, None) && created == 0
    {
      this.inBrowser := inBrowser;
      this.env := env;
      this.storage := storage;
      override := None;
      cachedClient := None;
      cachedCreds := Credentials(None, None);
      created := 0;
    }

    method ReadCredentials() returns (c: Credentials)
      modifies this`override
      ensures c == Resolve(inBrowser, old(override), storage, env)
      ensures override == OverrideAfterRead(inBrowser, old(override), storage)
    {
      if !inBrowser {
        return env;
      }
      if override.Some? && Complete(override.value) {
        return override.value;
      }
      var lsUrl := if UrlKey in storage then Some(storage[UrlKey]) else None;
      var lsAnon := if AnonKeyKey in storage then Some(storage[AnonKeyKey]) else None;
      if Truthy(lsUrl) && Truthy(lsAnon) {
        c := Credentials(lsUrl, lsAnon);
        override := Some(c);
        return c;
      }
      return env;
    }

    /** `ensureClient`: fail when unconfigured, reuse the cache for the same pair, else create. */
    method EnsureClient() returns (r: Result<nat, string>)
      modifies this`override, this`cachedClient, this`cachedCreds, this`created
      ensures override == OverrideAfterRead(inBrowser, old(override), storage)
      ensures var c := Resolve(inBrowser, old(override), storage, env);
        !Complete(c) ==>
          r == Err(NotConfigured) && cachedClient == old(cachedClient) &&
          cachedCreds == old(cachedCreds) && created == old(created)
      ensures var c := Resolve(inBrowser, old(override), storage, env);
        Complete(c) && old(cachedClient).Some? && old(cachedCreds) == c ==>
          r == Ok(old(cachedClient).value) && cachedClient == old(cachedClient) &&
          cachedCreds == old(cachedCreds) && created == old(created)
      ensures var c := Resolve(inBrowser, old(override), storage, env);
        Complete(c) && (old(cachedClient).None? || old(cachedCreds) != c) ==>
          created == old(created) + 1 && r == Ok(created) && cachedClient == Some(created) && cachedCreds == c
    {
      var c := ReadCredentials();
      if !Truthy(c.url) || !Truthy(c.anonKey) {
        return Err(NotConfigured);
      }
      if cachedClient.None? || cachedCreds.url != c.url || cachedCreds.anonKey != c.anonKey {
        created := created + 1;
        cachedClient := Some(created);
        cachedCreds := Credentials(c.url, c.anonKey);
      }
      r := Ok(cachedClient.value);
    }

    /** `setSupabaseCredentials`: a no-op on the server. */
    method SetCredentials(url: string, anonKey: string)
      modifies this`override, this`storage, this`cachedClient
      ensures !inBrowser ==>
        override == old(override) && storage == old(storage) && cachedClient == old(cachedClient)
      ensures inBrowser ==>
        override == Some(Credentials(Some(url), Some(anonKey))) &&
        storage == old(storage)[UrlKey := url][AnonKeyKey := anonKey] && cachedClient == None
    {
      if !inBrowser {
        return;
      }
      override := Some(Credentials(Some(url), Some(anonKey)));
      storage := storage[UrlKey := url];
      storage := storage[AnonKeyKey := anonKey];
      cachedClient := None;
    }

    /** `clearSupabaseCredentialsOverrides`: a no-op on the server. */
    method ClearOverrides()
      modifies this`override, this`storage, this`cachedClient
      ensures !inBrowser ==>
        override == old(override) && storage == old(storage) && cachedClient == old(cachedClient)
      ensures inBrowser ==>
        override == None && storage == old(storage) - {UrlKey, AnonKeyKey} && cachedClient == None
    {
      if !inBrowser {
        return;
      }
      override := None;
      storage := storage - {UrlKey};
      storage := storage - {AnonKeyKey};
      cachedClient := None;
    }
  }

  /** Two `createClient()` calls in a row hand out the same client and create at most one. */
  method ConsecutiveCallsShareClient(cache: ClientCache) returns (first: Result<nat, string>, second: Result<nat, string>)
    modifies cache
    ensures first == second
    ensures cache.created <= old(cache.created) + 1
  {
    first := cache.EnsureClient();
    ResolveStable(cache.inBrowser, old(cache.override), cache.storage, cache.env);
    second := cache.EnsureClient();
  }

  /** Setting non-empty credentials makes the next `createClient()` build a client for exactly that pair. */
  method SetThenCreate(cache: ClientCache, url: string, anonKey: string) returns (r: Result<nat, string>)
    requires cache.inBrowser && url != "" && anonKey != ""
    modifies cache
    ensures r == Ok(cache.created) && cache.created == old(cache.created) + 1
    ensures cache.cachedCreds == Credentials(Some(url), Some(anonKey))
  {
    cache.SetCredentials(url, anonKey);
    ResolveAfterSet(url, anonKey, old(cache.storage), cache.env);
    r := cache.EnsureClient();
  }

  /** Clearing the overrides makes the next `createClient()` use the environment. */
  method ClearThenCreate(cache: ClientCache) returns (r: Result<nat, string>)
    requires cache.inBrowser
    modifies cache
    ensures !Complete(cache.env) ==> r == Err(NotConfigured)
    ensures Complete(cache.env) ==> r == Ok(cache.created) && cache.cachedCreds == cache.env
  {
    cache.ClearOverrides();
    ResolveAfterClear(old(cache.storage), cache.env);
    r := cache.EnsureClient();
  }
}
