/** The write side: creating a short URL (createShortApi, controller/apiController.js:32-66)
    and following one (redirectShortApi, controller/apiController.js:68-156). The ShortUrl
    and Analytics collections are two maps keyed by alias, held by one object; each request
    runs as one sequential step. */
module Service {
  import opened Records
  import opened Series
  import opened Tallies
  import opened Clicks

  const Host: string := "http://localhost:"

  /** Body of the 201 response to a create request. */
  datatype Created = Created(shortUrl: string, createdAt: int)

  /** The public short URL of `alias` on a server whose PORT setting is `port`. */
  function ShortUrlFor(port: string, alias: string): string {
    Host + port + "/" + alias
  }

  /** Different aliases get different short URLs, so `shortUrl` is unique whenever `alias` is. */
  lemma ShortUrlInjective(port: string, a: string, b: string)
    requires ShortUrlFor(port, a) == ShortUrlFor(port, b)
    ensures a == b
  {
    var prefix := Host + port + "/";
    assert ShortUrlFor(port, a) == prefix + a && ShortUrlFor(port, b) == prefix + b;
    assert (prefix + a)[|prefix|..] == a;
    assert (prefix + b)[|prefix|..] == b;
  }

  /** The alias of a new short URL: the custom alias when it is truthy, else the generated one. */
  function ChosenAlias(customAlias: Option<string>, generated: string): string {
    if Truthy(customAlias) then customAlias.value else generated
  }

  /** The stored topic: `topic || null`. */
  function StoredTopic(topic: Option<string>): Option<string> {
    if Truthy(topic) then topic else None
  }

  /** What every registry entry satisfies: it is filed under its own alias, its short URL is
      derived from that alias, it has no `customAlias`, and its required strings are non-empty. */
  predicate RegistryValid(port: string, registry: map<string, ShortUrl>) {
    forall k :: k in registry ==>
      && registry[k].alias == k
      && registry[k].shortUrl == ShortUrlFor(port, k)
      && registry[k].customAlias == None
      && registry[k].longUrl != ""
      && registry[k].userId != ""
  }

  /** No two registry entries share a short URL. */
  lemma ShortUrlsUnique(port: string, registry: map<string, ShortUrl>)
    requires RegistryValid(port, registry)
    ensures forall a, b :: a in registry && b in registry && registry[a].shortUrl == registry[b].shortUrl ==> a == b
  {
    forall a, b | a in registry && b in registry && registry[a].shortUrl == registry[b].shortUrl
      ensures a == b
    {
      ShortUrlInjective(port, a, b);
    }
  }

  /** Whether the unique index on `customAlias` admits one more record whose `customAlias`
      is `c`. The index is not sparse: a record without the field is indexed as null, and
      two such records collide. */
  predicate CustomAliasFree(registry: map<string, ShortUrl>, c: Option<string>) {
    forall k :: k in registry ==> registry[k].customAlias != c
  }

  /** The answer of createShortApi as written: the record it saves has no `customAlias`, so
      the save also fails, with 500, whenever an earlier record has none either. */
  function CreateAsWritten(registry: map<string, ShortUrl>, port: string, longUrl: Option<string>,
                           customAlias: Option<string>, generated: string, userId: string, now: int): Outcome<Created>
  {
    if !Truthy(longUrl) then Fail(400, "longUrl is required")
    else if ChosenAlias(customAlias, generated) in registry then Fail(400, "Alias already in use")
    else if userId == "" || !CustomAliasFree(registry, None) then Fail(500, "Server error")
    else Ok(Created(ShortUrlFor(port, ChosenAlias(customAlias, generated)), now))
  }

  /** As written, once one short URL is registered every further create fails: a request
      with a long URL, an unused alias and a user is answered with 500. */
  lemma SecondCreateFailsAsWritten(registry: map<string, ShortUrl>, port: string, longUrl: Option<string>,
                                   customAlias: Option<string>, generated: string, userId: string, now: int)
    requires RegistryValid(port, registry) && registry != map[]
    ensures CreateAsWritten(registry, port, longUrl, customAlias, generated, userId, now).Fail?
    ensures Truthy(longUrl) && ChosenAlias(customAlias, generated) !in registry ==>
              CreateAsWritten(registry, port, longUrl, customAlias, generated, userId, now) == Fail(500, "Server error")
  {
    assert registry.Keys != {};
    var k :| k in registry;
    assert registry[k].customAlias == None;
  }

  /** What every analytics record satisfies: it belongs to a registered alias, is filed
      under its own alias and keeps the click invariants. */
  predicate StoreValid(registry: map<string, ShortUrl>, store: map<string, Analytics>) {
    forall k :: k in store ==> k in registry && store[k].shortUrlAlias == k && Consistent(store[k])
  }

  /** Storing a consistent record under a registered alias keeps the store valid. */
  lemma StoreUpdate(registry: map<string, ShortUrl>, store: map<string, Analytics>, alias: string, a: Analytics)
    requires StoreValid(registry, store)
    requires alias in registry && a.shortUrlAlias == alias && Consistent(a)
    ensures StoreValid(registry, store[alias := a])
  {
  }


  class Shortener {
    /** The server's PORT setting. */
    const port: string
    /** The ShortUrl collection, by alias. */
    var registry: map<string, ShortUrl>
    /** The Analytics collection, by alias. */
    var store: map<string, Analytics>

    /** Registry entries are well formed; analytics records exist only for registered
        aliases, are filed under their own alias and keep the click invariants. */
    ghost predicate Valid()
      reads this
    {
      && RegistryValid(port, registry)
      && StoreValid(registry, store)
    }

    constructor(port: string)
      ensures Valid() && this.port == port && registry == map[] && store == map[]
    {
      this.port := port;
      registry := map[];
      store := map[];
    }

    /** createShortApi. `generated` stands for the random alias generateAlias would return,
        `userId` for the authenticated user and `now` for the creation time. Rejects a falsy
        `longUrl` and an alias already in use with 400; a record the schema rejects (an
        empty `userId`) fails its save with 500; otherwise adds exactly one record. */
    method CreateShortUrl(longUrl: Option<string>, customAlias: Option<string>, topic: Option<string>,
                          generated: string, userId: string, now: int) returns (r: Outcome<Created>)
      requires Valid()
      modifies this
      ensures Valid() && store == old(store)
      ensures !Truthy(longUrl) ==> r == Fail(400, "longUrl is required")
      ensures Truthy(longUrl) && ChosenAlias(customAlias, generated) in old(registry) ==>
                r == Fail(400, "Alias already in use")
      ensures Truthy(longUrl) && ChosenAlias(customAlias, generated) !in old(registry) && userId == "" ==>
                r == Fail(500, "Server error")
      ensures r.Fail? ==> registry == old(registry)
      ensures Truthy(longUrl) && ChosenAlias(customAlias, generated) !in old(registry) && userId != "" ==>
                var alias := ChosenAlias(customAlias, generated);
                var url := ShortUrlFor(port, alias);
                && r == Ok(Created(url, now))
                && registry == old(registry)[alias := ShortUrl(longUrl.value, url, None, alias, StoredTopic(topic), userId, now)]
                && |registry| == |old(registry)| + 1
    {
      if !Truthy(longUrl) {
        return Fail(400, "longUrl is required");
      }
      var alias := ChosenAlias(customAlias, generated);
      if alias in registry {
        return Fail(400, "Alias already in use");
      }
      var shortUrl := ShortUrlFor(port, alias);
      if userId == "" {
        return Fail(500, "Server error");
      }
      registry := registry[alias := ShortUrl(longUrl.value, shortUrl, None, alias, StoredTopic(topic), userId, now)];
      r := Ok(Created(shortUrl, now));
    }

    /** redirectShortApi for a visit to `alias` from address `ip` at time `now`
        (milliseconds), by a client the user-agent parser classifies as `osName` on
        `deviceName`. An unknown alias is answered with 404 and changes nothing; otherwise
        the alias's record (a fresh one on its first click) takes the click and the answer
        is a redirect to the long URL. */
    method Redirect(alias: string, ip: string, now: int, osName: string, deviceName: string) returns (r: Outcome<string>)
      requires Valid()
      modifies this
      ensures Valid() && registry == old(registry)
      ensures alias !in registry ==> r == Fail(404, "Short URL not founds") && store == old(store)
      ensures alias in registry ==>
                && r == Ok(registry[alias].longUrl)
                && store == old(store)[alias := Clicked(Loaded(old(store), alias), ip, now, osName, deviceName)]
    {
      if alias !in registry {
        return Fail(404, "Short URL not founds");
      }
      assert RegistryValid(port, registry);
      var shortUrlRecord := registry[alias];
      var data := if alias in store then store[alias] else NewAnalytics(alias);
      assert data == Loaded(store, alias) && data.shortUrlAlias == alias && Consistent(data);
      ClickKeepsConsistent(data, ip, now, osName, deviceName);
      data := RecordClick(data, ip, now, osName, deviceName);
      StoreUpdate(registry, store, alias, data);
      store := store[alias := data];
      assert StoreValid(registry, store);
      r := Ok(shortUrlRecord.longUrl);
    }
  }

  /** A client session of creates: a create, a create that reuses the alias, and a create
      with a new alias, which succeeds. */
  method CreateThrice()
  {
    var s := new Shortener("3000");
    assert ChosenAlias(Some("ab12"), "0f3c9a1e") == "ab12" && ChosenAlias(None, "ab12") == "ab12";
    assert ShortUrlFor("3000", "ab12") == "http://localhost:3000/ab12";
    var c := s.CreateShortUrl(Some("https://example.com/a"), Some("ab12"), None, "0f3c9a1e", "u1", 1735689600000);
    assert c == Ok(Created("http://localhost:3000/ab12", 1735689600000));
    var d := s.CreateShortUrl(Some("https://example.com/b"), None, Some("news"), "ab12", "u2", 1735689600001);
    assert d == Fail(400, "Alias already in use");
    var g := s.CreateShortUrl(Some("https://example.com/c"), None, None, "77e0b4d2", "u2", 1735689600002);
    assert g.Ok? && "77e0b4d2" in s.registry && |s.registry| == 2;
  }

  /** A client session of visits: a visit to a registered alias and one to an unknown alias. */
  method CreateAndFollow()
  {
    var s := new Shortener("3000");
    assert ChosenAlias(Some("ab12"), "0f3c9a1e") == "ab12";
    var c := s.CreateShortUrl(Some("https://example.com/a"), Some("ab12"), None, "0f3c9a1e", "u1", 1735689600000);
    var e := s.Redirect("ab12", "10.0.0.1", 1735689700000, "Windows", "Other");
    assert e == Ok("https://example.com/a");
    assert s.store == map["ab12" := Clicked(NewAnalytics("ab12"), "10.0.0.1", 1735689700000, "Windows", "Other")];
    var f := s.Redirect("zz99", "10.0.0.1", 1735689700000, "Windows", "Other");
    assert f == Fail(404, "Short URL not founds");
  }
}
