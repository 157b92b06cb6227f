/**
 * The custom-endpoint service of a provider (services/provider/endpoints.rs):
 * listing a provider's endpoints newest first, adding and removing one by its
 * normalised URL, and stamping the time an endpoint was last used. The clock
 * is a parameter (`now`).
 */
module Endpoints {
  import opened Wrappers
  import opened Text
  import opened Sorting
  import opened Providers
  import opened Store

  /** `url.trim().trim_end_matches('/')` */
  function NormalizeUrl(url: string): (r: string)
    ensures r == [] || r[|r| - 1] != '/'
    ensures |r| <= |Trim(url)| && r == Trim(url)[..|r|]
    ensures forall i :: |r| <= i < |Trim(url)| ==> Trim(url)[i] == '/'
  {
    TrimEndChar(Trim(url), '/')
  }

  /** A trimmed URL and the same URL with a trailing slash name the same endpoint. */
  lemma NormalizeUrlTrailingSlash(u: string)
    requires Trim(u) == u
    ensures NormalizeUrl(u + "/") == NormalizeUrl(u)
  {
    TrimShape(u);
    var v := u + "/";
    assert TrimStart(v) == v by {
      if u != [] {
        assert v[0] == u[0];
      }
    }
    assert v[|v| - 1] == '/' && v[..|v| - 1] == u;
    assert TrimEnd(v) == v;
    assert Trim(v) == v;
  }

  /** A normalised URL with no whitespace left at either end normalises to itself. */
  lemma NormalizeUrlFixedPoint(u: string)
    requires Trim(NormalizeUrl(u)) == NormalizeUrl(u)
    ensures NormalizeUrl(NormalizeUrl(u)) == NormalizeUrl(u)
  {
  }

  /**
   * Normalising is not idempotent in general: whitespace before the trailing
   * slashes survives one pass and is trimmed by the next. Every operation of
   * the service normalises exactly once, so the same input always names the
   * same endpoint.
   */
  lemma NormalizeUrlNotIdempotent()
    ensures NormalizeUrl("a /") == "a "
    ensures NormalizeUrl(NormalizeUrl("a /")) == "a"
  {
    assert TrimStart("a /") == "a /";
    assert TrimEnd("a /") == "a /";
    assert TrimEndChar("a /", '/') == "a ";
    assert TrimStart("a ") == "a ";
    assert TrimEnd("a ") == TrimEnd("a");
    assert TrimEnd("a") == "a";
  }

  /** The sort key of `sort_by(|a, b| b.added_at.cmp(&a.added_at))`: newest first. */
  function NewestFirst(e: CustomEndpoint): Key
  {
    [KInt(-e.addedAt)]
  }

  lemma NewestFirstOrder(a: CustomEndpoint, b: CustomEndpoint)
    requires KeyLe(NewestFirst(a), NewestFirst(b))
    ensures a.addedAt >= b.addedAt
  {
    KeyLeHead(NewestFirst(a), NewestFirst(b));
  }

  /** `custom_endpoints.values()`, in the order of the keys `ks`. */
  function ValuesAt(eps: map<string, CustomEndpoint>, ks: seq<string>): (r: seq<CustomEndpoint>)
    requires forall i :: 0 <= i < |ks| ==> ks[i] in eps
    ensures |r| == |ks| && forall i :: 0 <= i < |ks| ==> r[i] == eps[ks[i]]
  {
    seq(|ks|, i requires 0 <= i < |ks| => eps[ks[i]])
  }

  /** The endpoints of a provider's meta (none when it has no meta). */
  function EndpointsOfProvider(p: Option<Provider>): map<string, CustomEndpoint>
  {
    if p.Some? then MetaOrDefault(p.value).customEndpoints else map[]
  }

  /**
   * `get_custom_endpoints`: every endpoint of the provider, each once, newest
   * first; nothing for a provider that is not stored.
   */
  method GetCustomEndpoints(db: Database, app: string, id: string) returns (r: seq<CustomEndpoint>)
    ensures db.ProviderOf(app, id).None? ==> r == []
    ensures |r| == |EndpointsOfProvider(db.ProviderOf(app, id))|
    ensures forall u :: u in EndpointsOfProvider(db.ProviderOf(app, id)) ==> EndpointsOfProvider(db.ProviderOf(app, id))[u] in r
    ensures forall i :: 0 <= i < |r| ==> exists u :: u in EndpointsOfProvider(db.ProviderOf(app, id)) && EndpointsOfProvider(db.ProviderOf(app, id))[u] == r[i]
    ensures forall i, j :: 0 <= i < j < |r| ==> r[i].addedAt >= r[j].addedAt
  {
    var providers := db.GetAllProviders(app);
    var found := FindById(providers, id);
    if found.None? {
      assert (app, id) !in db.providers;
      return [];
    }
    var p := found.value;
    ghost var k :| 0 <= k < |providers| && providers[k] == p;
    assert db.ProviderOf(app, id) == Some(p);
    var eps := MetaOrDefault(p).customEndpoints;
    if eps == map[] {
      return [];
    }
    r := NewestFirstValues(eps);
  }

  /** `values().cloned().collect()` then the sort: each value once, newest first. */
  method NewestFirstValues(eps: map<string, CustomEndpoint>) returns (r: seq<CustomEndpoint>)
    ensures |r| == |eps|
    ensures forall u :: u in eps ==> eps[u] in r
    ensures forall i :: 0 <= i < |r| ==> exists u :: u in eps && eps[u] == r[i]
    ensures forall i, j :: 0 <= i < j < |r| ==> r[i].addedAt >= r[j].addedAt
  {
    var ks := Scan(eps.Keys);
    DistinctCardinality(ks, eps.Keys);
    var values := ValuesAt(eps, ks);
    r := SortBy(values, NewestFirst);
    SortByProperties(values, NewestFirst);
    assert |r| == |values| by {
      assert |multiset(r)| == |multiset(values)|;
    }
    forall u | u in eps
      ensures eps[u] in r
    {
      var i :| 0 <= i < |ks| && ks[i] == u;
      assert values[i] in multiset(values);
    }
    forall i | 0 <= i < |r|
      ensures exists u :: u in eps && eps[u] == r[i]
    {
      assert r[i] in multiset(values);
      var j :| 0 <= j < |values| && values[j] == r[i];
      assert eps[ks[j]] == r[i];
    }
    NewestFirstSorted(r);
  }

  lemma NewestFirstSorted(r: seq<CustomEndpoint>)
    requires SortedBy(r, NewestFirst)
    ensures forall i, j :: 0 <= i < j < |r| ==> r[i].addedAt >= r[j].addedAt
  {
    forall i, j | 0 <= i < j < |r|
      ensures r[i].addedAt >= r[j].addedAt
    {
      NewestFirstOrder(r[i], r[j]);
    }
  }

  /** A sequence listing each member of a set exactly once is as long as the set is large. */
  lemma {:induction false} DistinctCardinality(ks: seq<string>, s: set<string>)
    requires Distinct(ks)
    requires forall x :: x in ks <==> x in s
    ensures |ks| == |s|
    decreases |ks|
  {
    if ks != [] {
      var last := ks[|ks| - 1];
      var init := ks[..|ks| - 1];
      assert Distinct(init);
      forall x
        ensures x in init <==> x in s - {last}
      {
        if x in init {
          var i :| 0 <= i < |init| && init[i] == x;
          assert ks[i] == x && i < |ks| - 1;
        }
        if x in s - {last} {
          var i :| 0 <= i < |ks| && ks[i] == x;
          assert i != |ks| - 1;
          assert init[i] == x;
        }
      }
      DistinctCardinality(init, s - {last});
    } else {
      assert s == {};
    }
  }

  /**
   * `add_custom_endpoint`: a URL that normalises to nothing is refused before
   * the store is touched; otherwise the normalised URL is stored with the
   * current time, which fails for a provider that is not stored.
   */
  method AddCustomEndpoint(db: Database, app: string, id: string, url: string, now: int) returns (r: Result<()>)
    requires db.Valid()
    modifies db
    ensures db.Valid() && db.OnlyProviderTables() && db.providers == old(db.providers)
    ensures NormalizeUrl(url) == [] ==>
      r == Err(Localized("provider.endpoint.url_required", "URL 不能为空", "URL cannot be empty"))
    ensures NormalizeUrl(url) != [] ==> (r.Ok? <==> (app, id) in db.providers)
    ensures r.Ok? ==> db.endpoints == old(db.endpoints) + {EndpointRow(id, app, NormalizeUrl(url), Some(now))}
    ensures r.Err? ==> db.endpoints == old(db.endpoints)
  {
    var normalized := NormalizeUrl(url);
    if normalized == [] {
      return Err(Localized("provider.endpoint.url_required", "URL 不能为空", "URL cannot be empty"));
    }
    r := db.AddCustomEndpoint(app, id, normalized, now);
  }

  /** `remove_custom_endpoint`: every row of the provider for the normalised URL is deleted. */
  method RemoveCustomEndpoint(db: Database, app: string, id: string, url: string) returns (r: Result<()>)
    requires db.Valid()
    modifies db
    ensures r.Ok?
    ensures db.Valid() && db.OnlyProviderTables() && db.providers == old(db.providers)
    ensures db.endpoints == WithoutEndpoint(old(db.endpoints), app, id, NormalizeUrl(url))
  {
    db.RemoveCustomEndpoint(app, id, NormalizeUrl(url));
    r := Ok(());
  }

  /** Rows that agree on the rows for `url` agree on the time read back for it. */
  lemma LatestAgrees(a: set<EndpointRow>, b: set<EndpointRow>, url: string)
    requires url in Urls(a)
    requires forall e: EndpointRow :: e.url == url ==> (e in a <==> e in b)
    ensures url in Urls(b) && Latest(a, url) == Latest(b, url)
  {
    var e :| e in a && e.url == url;
    assert e in b;
    var v := Latest(a, url);
    assert IsLatest(b, url, v) by {
      assert IsLatest(a, url, v);
    }
    assert IsLatest(b, url, Latest(b, url));
    LatestUnique(b, url, v, Latest(b, url));
  }

  /**
   * An added endpoint is listed under its URL, with the time it was added when
   * no earlier row for that URL is newer.
   */
  lemma AddThenRead(rows: set<EndpointRow>, app: string, id: string, url: string, now: int)
    requires forall e :: e in RowsOf(rows, app, id) && e.url == url ==> AddedLe(e.addedAt, Some(now))
    ensures var m := EndpointsOf(RowsOf(rows + {EndpointRow(id, app, url, Some(now))}, app, id));
      url in m && m[url] == CustomEndpoint(url, now, None)
  {
    var added := EndpointRow(id, app, url, Some(now));
    var after := RowsOf(rows + {added}, app, id);
    assert added in after;
    assert url in Urls(after);
    assert IsLatest(after, url, Some(now));
    assert IsLatest(after, url, Latest(after, url));
    LatestUnique(after, url, Some(now), Latest(after, url));
  }

  /** Adding a URL leaves every other URL's entry as it was. */
  lemma AddKeepsOthers(rows: set<EndpointRow>, app: string, id: string, url: string, now: int, u: string)
    requires u != url
    ensures var before := EndpointsOf(RowsOf(rows, app, id));
      var after := EndpointsOf(RowsOf(rows + {EndpointRow(id, app, url, Some(now))}, app, id));
      (u in after <==> u in before) && (u in before ==> after[u] == before[u])
  {
    var a := RowsOf(rows, app, id);
    var b := RowsOf(rows + {EndpointRow(id, app, url, Some(now))}, app, id);
    assert u in Urls(b) ==> u in Urls(a) by {
      if u in Urls(b) {
        var e :| e in b && e.url == u;
        assert e in a;
      }
    }
    if u in Urls(a) {
      LatestAgrees(a, b, u);
    }
  }

  /** A removed URL is no longer listed, and every other URL's entry is as it was. */
  lemma RemoveThenRead(rows: set<EndpointRow>, app: string, id: string, url: string, u: string)
    ensures url !in EndpointsOf(RowsOf(WithoutEndpoint(rows, app, id, url), app, id))
    ensures var before := EndpointsOf(RowsOf(rows, app, id));
      var after := EndpointsOf(RowsOf(WithoutEndpoint(rows, app, id, url), app, id));
      u != url ==> (u in after <==> u in before) && (u in before ==> after[u] == before[u])
  {
    var a := RowsOf(rows, app, id);
    var b := RowsOf(WithoutEndpoint(rows, app, id, url), app, id);
    forall e | e in b
      ensures e.url != url
    {
    }
    if u != url {
      assert u in Urls(b) ==> u in Urls(a) by {
        if u in Urls(b) {
          var e :| e in b && e.url == u;
          assert e in a;
        }
      }
      if u in Urls(a) {
        LatestAgrees(a, b, u);
      }
    }
  }

  /** Removing a URL that was just added, and was not there before, restores the rows. */
  lemma RemoveAfterAdd(rows: set<EndpointRow>, app: string, id: string, url: string, now: int)
    requires forall e :: e in rows ==> !(e.providerId == id && e.app == app && e.url == url)
    ensures WithoutEndpoint(rows + {EndpointRow(id, app, url, Some(now))}, app, id, url) == rows
  {
  }

  /** `endpoint.last_used = Some(now)` on the provider's meta. */
  function MarkUsed(p: Provider, url: string, now: int): (q: Provider)
    requires url in MetaOrDefault(p).customEndpoints
    ensures q.meta.Some? && q.meta.value.customEndpoints.Keys == MetaOrDefault(p).customEndpoints.Keys
    ensures q.meta.value.customEndpoints[url].lastUsed == Some(now)
    ensures q.meta.value.customEndpoints[url].url == MetaOrDefault(p).customEndpoints[url].url
    ensures q.meta.value.customEndpoints[url].addedAt == MetaOrDefault(p).customEndpoints[url].addedAt
    ensures q.meta.value == MetaOrDefault(p).(customEndpoints := q.meta.value.customEndpoints)
    ensures q == p.(meta := q.meta)
  {
    var m := MetaOrDefault(p);
    p.(meta := Some(m.(customEndpoints := m.customEndpoints[url := m.customEndpoints[url].(lastUsed := Some(now))])))
  }

  /**
   * `update_endpoint_last_used`: when the provider is stored and has an
   * endpoint under the normalised URL, its `last_used` is set and the provider
   * is saved back; otherwise nothing happens. The save keeps the row's
   * `is_current` and does not touch the endpoint rows.
   */
  method UpdateEndpointLastUsed(db: Database, app: string, id: string, url: string, now: int) returns (r: Result<()>)
    requires db.Valid()
    modifies db
    ensures r.Ok?
    ensures db.Valid() && db.OnlyProviderTables() && db.endpoints == old(db.endpoints)
    ensures var p := old(db.ProviderOf(app, id));
      p.Some? && NormalizeUrl(url) in MetaOrDefault(p.value).customEndpoints ==>
        db.providers == old(db.providers)[(app, id) := RowOf(MarkUsed(p.value, NormalizeUrl(url), now), old(db.providers)[(app, id)].isCurrent)]
    ensures var p := old(db.ProviderOf(app, id));
      !(p.Some? && NormalizeUrl(url) in MetaOrDefault(p.value).customEndpoints) ==> db.providers == old(db.providers)
  {
    var normalized := NormalizeUrl(url);
    var providers := db.GetAllProviders(app);
    var found := FindById(providers, id);
    if found.Some? {
      var p := found.value;
      ghost var k :| 0 <= k < |providers| && providers[k] == p;
      assert db.ProviderOf(app, id) == Some(p);
      if normalized in MetaOrDefault(p).customEndpoints {
        db.SaveProvider(app, MarkUsed(p, normalized, now));
      }
    } else {
      assert (app, id) !in db.providers;
    }
    r := Ok(());
  }

  /**
   * The stamp is lost: the store keeps endpoints in rows with no `last_used`
   * column, and the save writes the meta blob without endpoints, so for a row
   * whose JSON columns parse and whose meta blob holds no endpoints the saved
   * row is the row that was there.
   */
  lemma LastUsedNotPersisted(id: string, row: ProviderRow, eps: map<string, CustomEndpoint>, url: string, now: int)
    requires row.settings.Parsed? && row.meta.Parsed? && row.meta.value.customEndpoints == map[]
    requires url in eps
    ensures RowOf(MarkUsed(ReadProvider(id, row, eps), url, now), row.isCurrent) == row
  {
    var p := ReadProvider(id, row, eps);
    var q := MarkUsed(p, url, now);
    assert WithoutEndpoints(MetaOrDefault(q)) == row.meta.value;
  }

  /** Every endpoint read back from the store reports that it was never used. */
  lemma ReadEndpointsNeverUsed(rows: set<EndpointRow>, u: string)
    requires u in EndpointsOf(rows)
    ensures EndpointsOf(rows)[u].lastUsed.None?
  {
  }
}
