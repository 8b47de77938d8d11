/**
 * backend/cache.py: the optional Redis cache for sync-job status, per
 * connection table lists and chat results, with an in-process fallback for
 * sync jobs only. The Redis server is an object whose entries hold decoded
 * JSON values and which may be down, in which case every command raises.
 */
module Cache {
  import opened Base
  import opened TextUtil
  import opened Settings

  /** A JSON value, as `json.dumps` writes it and `json.loads` reads it back. */
  datatype Json = JNull | JBool(b: bool) | JInt(i: int) | JStr(s: string) | JList(items: seq<Json>) | JObject(fields: map<string, Json>)

  /** The Redis server the settings point at. */
  class RedisServer {
    var entries: map<string, Json>
    /** False when the server cannot be reached: every command then raises. */
    var up: bool

    constructor (up: bool)
      ensures entries == map[] && this.up == up
    {
      entries := map[];
      this.up := up;
    }
  }

  const SyncJobPrefix: string := "querypilot:sync:job:"
  const SchemaTablesPrefix: string := "querypilot:schema:tables:"
  const ChatPrefix: string := "querypilot:chat:"

  function SyncJobKey(jobId: string): (k: string)
    ensures StartsWith(k, SyncJobPrefix) && k[|SyncJobPrefix|..] == jobId
  {
    SyncJobPrefix + jobId
  }

  function SchemaTablesKey(connectionKey: string): (k: string)
    ensures StartsWith(k, SchemaTablesPrefix) && k[|SchemaTablesPrefix|..] == connectionKey
  {
    SchemaTablesPrefix + connectionKey
  }

  function ChatKey(connectionKey: string, messageHash: string): (k: string)
    ensures StartsWith(k, ChatPrefix)
  {
    ChatPrefix + connectionKey + ":" + messageHash
  }

  /** Keys of the three namespaces never coincide, whatever the ids, connection keys and hashes. */
  lemma KeyNamespacesDisjoint(jobId: string, tablesKey: string, chatKey: string, messageHash: string)
    ensures SyncJobKey(jobId) != SchemaTablesKey(tablesKey)
    ensures SyncJobKey(jobId) != ChatKey(chatKey, messageHash)
    ensures SchemaTablesKey(tablesKey) != ChatKey(chatKey, messageHash)
  {
    assert SyncJobKey(jobId)[12] == 'y';
    assert SchemaTablesKey(tablesKey)[12] == 'c';
    assert SyncJobKey(jobId)[11] == 's';
    assert ChatKey(chatKey, messageHash)[11] == 'c';
  }

  /** Within one namespace, distinct ids give distinct keys. */
  lemma SyncJobKeyInjective(a: string, b: string)
    requires SyncJobKey(a) == SyncJobKey(b)
    ensures a == b
  {
    assert a == SyncJobKey(a)[|SyncJobPrefix|..];
  }

  /** Chat keys identify the connection and the message hash when connection keys hold no ':'. */
  lemma ChatKeyInjective(k1: string, h1: string, k2: string, h2: string)
    requires ':' !in k1 && ':' !in k2
    requires ChatKey(k1, h1) == ChatKey(k2, h2)
    ensures k1 == k2 && h1 == h2
  {
    var p := |ChatPrefix|;
    var t := ChatKey(k1, h1)[p..];
    assert t == k1 + ":" + h1 && t == k2 + ":" + h2;
    FirstSeparator(t, ':', |k1|);
    FirstSeparator(t, ':', |k2|);
    assert k1 == t[..|k1|] && k2 == t[..|k2|];
    assert h1 == t[|k1| + 1..] && h2 == t[|k2| + 1..];
  }

  lemma FirstSeparator(t: string, c: char, i: nat)
    requires i < |t| && t[i] == c && c !in t[..i]
    ensures IndexOf(t, c) == i
  {
    forall j | 0 <= j < i
      ensures t[j] != c
    {
      assert t[..i][j] == t[j];
    }
  }

  /** Both the Redis host and password are set. */
  predicate Configured(settings: Settings) {
    settings.redisHost != "" && settings.redisPassword != ""
  }

  /** The payload `sync_job_set` stores. */
  function SyncPayload(status: string, result: Json, error: Option<string>): (p: Json)
    ensures p.JObject? && p.fields.Keys == {"status", "result", "error"}
    ensures p.fields["status"] == JStr(status) && p.fields["result"] == result
    ensures p.fields["error"] == if error.Some? then JStr(error.value) else JNull
  {
    JObject(map["status" := JStr(status), "result" := result, "error" := if error.Some? then JStr(error.value) else JNull])
  }

  /** The module state: the memoised client and the sync-job fallback dictionary. */
  class CacheState {
    const settings: Settings
    const server: RedisServer
    var client: Option<RedisServer>
    var syncJobsFallback: map<string, Json>

    /** The memoised client, when there is one, is the configured server. */
    predicate Valid()
      reads this
    {
      client.None? || client.value == server
    }

    /** The memoised client after one `get_redis` call that started from `c`. */
    function NextClient(c: Option<RedisServer>): Option<RedisServer> {
      if c.None? && !Configured(settings) then None else Some(server)
    }

    constructor (settings: Settings, server: RedisServer)
      ensures this.settings == settings && this.server == server
      ensures client.None? && syncJobsFallback == map[]
      ensures Valid()
    {
      this.settings := settings;
      this.server := server;
      client := None;
      syncJobsFallback := map[];
    }

    /**
     * `get_redis`: a memoised client is returned as is; unconfigured settings
     * give None; otherwise the client is memoised before it is pinged, and a
     * failing ping gives None for this call only.
     */
    method GetRedis() returns (r: Option<RedisServer>)
      requires Valid()
      modifies this`client
      ensures Valid() && client == NextClient(old(client))
      ensures old(client).Some? ==> client == old(client) && r == client
      ensures old(client).None? && !Configured(settings) ==> client.None? && r.None?
      ensures old(client).None? && Configured(settings) ==>
        client == Some(server) && r == (if server.up then Some(server) else None)
      ensures r.Some? ==> r.value == server
    {
      if client.Some? {
        return client;
      }
      if !Configured(settings) {
        return None;
      }
      client := Some(server);
      if !server.up {
        return None;
      }
      return client;
    }

    /**
     * `sync_job_set`: written to Redis when a client is returned and the
     * server accepts it, and always written to the fallback.
     */
    method SyncJobSet(jobId: string, status: string, result: Json, error: Option<string>)
      requires Valid()
      modifies this`client, this`syncJobsFallback, server`entries
      ensures Valid() && client == NextClient(old(client))
      ensures syncJobsFallback == old(syncJobsFallback)[jobId := SyncPayload(status, result, error)]
      ensures client.Some? && server.up ==>
        server.entries == old(server.entries)[SyncJobKey(jobId) := SyncPayload(status, result, error)]
      ensures !(client.Some? && server.up) ==> server.entries == old(server.entries)
    {
      var payload := SyncPayload(status, result, error);
      var r := GetRedis();
      if r.Some? && server.up {
        server.entries := server.entries[SyncJobKey(jobId) := payload];
      }
      syncJobsFallback := syncJobsFallback[jobId := payload];
    }

    /** `sync_job_get`: the Redis value when found, else the fallback entry, else None. */
    method SyncJobGet(jobId: string) returns (v: Option<Json>)
      requires Valid()
      modifies this`client
      ensures Valid() && client == NextClient(old(client))
      ensures client.Some? && server.up && SyncJobKey(jobId) in server.entries ==>
        v == Some(server.entries[SyncJobKey(jobId)])
      ensures !(client.Some? && server.up && SyncJobKey(jobId) in server.entries) ==>
        v == (if jobId in syncJobsFallback then Some(syncJobsFallback[jobId]) else None)
    {
      var r := GetRedis();
      if r.Some? && server.up && SyncJobKey(jobId) in server.entries {
        return Some(server.entries[SyncJobKey(jobId)]);
      }
      v := if jobId in syncJobsFallback then Some(syncJobsFallback[jobId]) else None;
    }

    /** `schema_tables_set`: written only through a reachable client; there is no fallback. */
    method SchemaTablesSet(connectionKey: string, tableNames: seq<string>)
      requires Valid()
      modifies this`client, server`entries
      ensures Valid() && client == NextClient(old(client))
      ensures client.Some? && server.up ==>
        server.entries == old(server.entries)[SchemaTablesKey(connectionKey) := JList(Strings(tableNames))]
      ensures !(client.Some? && server.up) ==> server.entries == old(server.entries)
    {
      var r := GetRedis();
      if r.Some? && server.up {
        server.entries := server.entries[SchemaTablesKey(connectionKey) := JList(Strings(tableNames))];
      }
    }

    /** `schema_tables_get`: the Redis value when found, else None. */
    method SchemaTablesGet(connectionKey: string) returns (v: Option<Json>)
      requires Valid()
      modifies this`client
      ensures Valid() && client == NextClient(old(client))
      ensures v == (if client.Some? && server.up && SchemaTablesKey(connectionKey) in server.entries
                    then Some(server.entries[SchemaTablesKey(connectionKey)]) else None)
    {
      var r := GetRedis();
      if r.Some? && server.up && SchemaTablesKey(connectionKey) in server.entries {
        return Some(server.entries[SchemaTablesKey(connectionKey)]);
      }
      return None;
    }

    /** `chat_cache_set`: written only through a reachable client; there is no fallback. */
    method ChatCacheSet(connectionKey: string, messageHash: string, response: Json)
      requires Valid()
      modifies this`client, server`entries
      ensures Valid() && client == NextClient(old(client))
      ensures client.Some? && server.up ==>
        server.entries == old(server.entries)[ChatKey(connectionKey, messageHash) := response]
      ensures !(client.Some? && server.up) ==> server.entries == old(server.entries)
    {
      var r := GetRedis();
      if r.Some? && server.up {
        server.entries := server.entries[ChatKey(connectionKey, messageHash) := response];
      }
    }

    /** `chat_cache_get`: the Redis value when found, else None. */
    method ChatCacheGet(connectionKey: string, messageHash: string) returns (v: Option<Json>)
      requires Valid()
      modifies this`client
      ensures Valid() && client == NextClient(old(client))
      ensures v == (if client.Some? && server.up && ChatKey(connectionKey, messageHash) in server.entries
                    then Some(server.entries[ChatKey(connectionKey, messageHash)]) else None)
    {
      var r := GetRedis();
      if r.Some? && server.up && ChatKey(connectionKey, messageHash) in server.entries {
        return Some(server.entries[ChatKey(connectionKey, messageHash)]);
      }
      return None;
    }
  }

  /** A table list as a JSON list of strings. */
  function Strings(names: seq<string>): (j: seq<Json>)
    ensures |j| == |names| && forall k :: 0 <= k < |names| ==> j[k] == JStr(names[k])
  {
    seq(|names|, k requires 0 <= k < |names| => JStr(names[k]))
  }

  /** The table names of a cached JSON value; anything but a list of strings gives None. */
  function TableNamesOf(v: Json): (r: Option<seq<string>>)
    ensures r.Some? <==> v.JList? && forall k :: 0 <= k < |v.items| ==> v.items[k].JStr?
    ensures r.Some? ==> |r.value| == |v.items| && forall k :: 0 <= k < |v.items| ==> v.items[k] == JStr(r.value[k])
  {
    if v.JList? && forall k :: 0 <= k < |v.items| ==> v.items[k].JStr? then
      Some(seq(|v.items|, k requires 0 <= k < |v.items| && v.items[k].JStr? => v.items[k].s))
    else None
  }

  /** A table list written as JSON reads back as the same names. */
  lemma TableNamesRoundTrip(names: seq<string>)
    ensures TableNamesOf(JList(Strings(names))) == Some(names)
  {
    var r := TableNamesOf(JList(Strings(names)));
    assert r.Some?;
    assert |r.value| == |names|;
    forall k | 0 <= k < |names|
      ensures r.value[k] == names[k]
    {
      assert JStr(r.value[k]) == Strings(names)[k] == JStr(names[k]);
    }
    assert r.value == names;
  }

  /**
   * Without Redis settings, a sync job read back after being set is the last
   * payload set, and table lists and chat results are never cached.
   */
  method NoRedisScenario(jobId: string, connectionKey: string, names: seq<string>, response: Json)
    returns (job: Option<Json>, tables: Option<Json>, chat: Option<Json>)
    ensures job == Some(SyncPayload("completed", JNull, None))
    ensures tables.None? && chat.None?
  {
    var server := new RedisServer(true);
    var cache := new CacheState(Default, server);
    cache.SyncJobSet(jobId, "running", JNull, None);
    cache.SyncJobSet(jobId, "completed", JNull, None);
    job := cache.SyncJobGet(jobId);
    cache.SchemaTablesSet(connectionKey, names);
    tables := cache.SchemaTablesGet(connectionKey);
    cache.ChatCacheSet(connectionKey, "h", response);
    chat := cache.ChatCacheGet(connectionKey, "h");
  }

  /**
   * A server that is down when first contacted: the first lookup gives None,
   * but the unpinged client is kept, so the next lookup returns it.
   */
  method UnpingedClientScenario(settings: Settings) returns (first: Option<RedisServer>, second: Option<RedisServer>)
    requires Configured(settings)
    ensures first.None? && second.Some?
  {
    var server := new RedisServer(false);
    var cache := new CacheState(settings, server);
    first := cache.GetRedis();
    second := cache.GetRedis();
  }

  /** With a reachable server, a cached table list reads back as the same names. */
  method TablesRoundTripScenario(settings: Settings, connectionKey: string, names: seq<string>)
    returns (read: Option<seq<string>>)
    requires Configured(settings)
    ensures read == Some(names)
  {
    var server := new RedisServer(true);
    var cache := new CacheState(settings, server);
    cache.SchemaTablesSet(connectionKey, names);
    var raw := cache.SchemaTablesGet(connectionKey);
    read := if raw.Some? then TableNamesOf(raw.value) else None;
    TableNamesRoundTrip(names);
  }
}
