/**
 * `PublicApiService`: the registry endpoints. The unit-measure list and
 * the company lists go through the shared cache; `findCompanyByPib`
 * searches the cached list of active companies.
 */
module PublicApi {
  import opened Wrappers
  import opened PhpValues
  import opened Http
  import opened DtoSchemas
  import opened EfakturaExceptions
  import opened Client
  import opened CacheStores
  import opened Queries
  import opened Dtos
  import BaseDto

  const UnitMeasuresName: string := "unit_measures"
  const UnitMeasuresCaller: string := "PublicApiService::getUnitMeasures"
  const CompaniesCaller: string := "PublicApiService::getAllCompanies"

  /** The logical cache name of a company list: all companies, or the active ones only. */
  function CompaniesName(includeAllStatuses: bool): string
  {
    "companies_" + (if includeAllStatuses then "all" else "active")
  }

  /** The two company lists are cached under different keys, and neither under the unit-measure key. */
  lemma CacheNamesDistinct()
    ensures CompaniesName(true) != CompaniesName(false)
    ensures CompaniesName(true) != UnitMeasuresName && CompaniesName(false) != UnitMeasuresName
  {
    assert CompaniesName(true)[10] == 'a' && CompaniesName(false)[10] == 'a';
    assert CompaniesName(true)[11] == 'l' && CompaniesName(false)[11] == 'c';
    assert CompaniesName(true)[0] == 'c' && UnitMeasuresName[0] == 'u';
  }

  /** `$flag ? 'true' : 'false'`. */
  function FlagText(flag: bool): string
  {
    if flag then "true" else "false"
  }

  /** `['includeAllStatuses' => 'true' | 'false']`. */
  function StatusesQuery(includeAllStatuses: bool): seq<Entry>
  {
    Single("includeAllStatuses", Str(FlagText(includeAllStatuses)))
  }

  /** `array_filter($a, fn($value) => $value !== null)`: the non-null entries, keys and order kept. */
  function DropNulls(es: seq<Entry>): (r: seq<Entry>)
    ensures |r| <= |es|
    ensures forall i :: 0 <= i < |r| ==> r[i].val != Null && r[i] in es
  {
    if es == [] then []
    else if es[0].val == Null then DropNulls(es[1..])
    else [es[0]] + DropNulls(es[1..])
  }

  /** The body of `checkIfCompanyRegistered`: the given identifiers among `companyId`, `pib`, `mb`, `jbkjs`. */
  function CheckBody(companyId: Option<string>, pib: Option<string>, mb: Option<string>, jbkjs: Option<string>): seq<Entry>
  {
    DropNulls([Entry(StrKey("companyId"), Nullable(companyId))] + ([Entry(StrKey("pib"), Nullable(pib))] +
              ([Entry(StrKey("mb"), Nullable(mb))] + [Entry(StrKey("jbkjs"), Nullable(jbkjs))])))
  }

  /** Filtering a given identifier keeps it, with its key; a missing one is dropped. */
  lemma DropGiven(k: string, v: Option<string>, rest: seq<Entry>)
    ensures DropNulls([Entry(StrKey(k), Nullable(v))] + rest) == EntryIfGiven(k, v) + DropNulls(rest)
  {
    var es := [Entry(StrKey(k), Nullable(v))] + rest;
    assert es[0] == Entry(StrKey(k), Nullable(v)) && es[1..] == rest;
  }

  /** The check body holds exactly the given identifiers, in the order `companyId`, `pib`, `mb`, `jbkjs`. */
  lemma CheckBodyEntries(companyId: Option<string>, pib: Option<string>, mb: Option<string>, jbkjs: Option<string>)
    ensures CheckBody(companyId, pib, mb, jbkjs) ==
      EntryIfGiven("companyId", companyId) + (EntryIfGiven("pib", pib) + (EntryIfGiven("mb", mb) + EntryIfGiven("jbkjs", jbkjs)))
  {
    var g1, g2 := EntryIfGiven("companyId", companyId), EntryIfGiven("pib", pib);
    var g3, g4 := EntryIfGiven("mb", mb), EntryIfGiven("jbkjs", jbkjs);
    var e4 := [Entry(StrKey("jbkjs"), Nullable(jbkjs))];
    var e3 := [Entry(StrKey("mb"), Nullable(mb))] + e4;
    var e2 := [Entry(StrKey("pib"), Nullable(pib))] + e3;
    var e1 := [Entry(StrKey("companyId"), Nullable(companyId))] + e2;
    assert CheckBody(companyId, pib, mb, jbkjs) == DropNulls(e1);
    DropGiven("jbkjs", jbkjs, []);
    assert e4 + [] == e4;
    assert DropNulls(e4) == g4;
    DropGiven("mb", mb, e4);
    DropGiven("pib", pib, e3);
    DropGiven("companyId", companyId, e2);
  }

  /** `checkByPib`, `checkByMb` and `checkByJbkjs` each send their one identifier and nothing else. */
  lemma CheckBySingleKey(x: string)
    ensures CheckBody(None, Some(x), None, None) == [Entry(StrKey("pib"), Str(x))]
    ensures CheckBody(None, None, Some(x), None) == [Entry(StrKey("mb"), Str(x))]
    ensures CheckBody(None, None, None, Some(x)) == [Entry(StrKey("jbkjs"), Str(x))]
  {
    CheckBodyEntries(None, Some(x), None, None);
    CheckBodyEntries(None, None, Some(x), None);
    CheckBodyEntries(None, None, None, Some(x));
  }

  /** PHP's name for the type of a value that has no properties, as its warnings print it. */
  function TypeName(v: Value): string
  {
    match v
    case Null => "null"
    case Bool(_) => "bool"
    case Int(_) => "int"
    case Float(_) => "float"
    case Str(_) => "string"
    case Arr(_) => "array"
    case Resource(_) => "resource"
    case _ => "object"
  }

  /**
   * `$company->pib`: a record object answers through `__get`, `null` for a
   * property it does not hold. Reading a property of anything else warns,
   * and Laravel rethrows the warning.
   */
  function PibOf(company: Value): (r: Result<Value, Failure>)
    ensures r.Ok? <==> company.Obj?
    ensures r.Ok? ==> r.value == BaseDto.Get(company.rec, "pib")
    ensures r.Err? ==> r.error.ErrorException?
    ensures !company.Obj? && !company.EnumCase? && !company.DateTime? ==>
      r == Err(ErrorException("Attempt to read property \"pib\" on " + TypeName(company)))
  {
    match company
    case Obj(rec) => Ok(BaseDto.Get(rec, "pib"))
    case EnumCase(_) => Err(ErrorException("Undefined property: enum case::$pib"))
    case DateTime(_) => Err(ErrorException("Undefined property: DateTimeInterface::$pib"))
    case _ => Err(ErrorException("Attempt to read property \"pib\" on " + TypeName(company)))
  }

  /** `$company->pib === $pib`: an object whose `pib` is exactly the string. */
  predicate HasPib(company: Value, pib: string)
  {
    company.Obj? && BaseDto.Get(company.rec, "pib") == Str(pib)
  }

  /**
   * `findCompanyByPib`'s search over the list: the first company whose
   * `pib` matches, which the `?MiniCompanyDto` return type then checks.
   * An item that is not a record object, met before any match, throws.
   */
  function FirstWithPib(companies: seq<Entry>, pib: string): (r: Result<Option<Record>, Failure>)
  {
    if companies == [] then Ok(None)
    else
      var found :- PibOf(companies[0].val);
      if found == Str(pib) then
        if companies[0].val.rec.cls == MiniCompanyDto then Ok(Some(companies[0].val.rec))
        else Err(TypeError("PublicApiService::findCompanyByPib(): Return value must be of type ?MiniCompanyDto"))
      else FirstWithPib(companies[1..], pib)
  }

  /** The companies before index `i` are record objects without the PIB: the search gets past them. */
  ghost predicate PassedBefore(companies: seq<Entry>, pib: string, i: int)
    requires 0 <= i <= |companies|
  {
    forall j :: 0 <= j < i ==> companies[j].val.Obj? && !HasPib(companies[j].val, pib)
  }

  /**
   * The search decides in list order: null when every item is a record
   * object without the PIB; otherwise the first item that is either a
   * match or not an object decides the result, whatever follows it.
   */
  lemma {:induction false} FirstWithPibSpec(companies: seq<Entry>, pib: string)
    ensures FirstWithPib(companies, pib) == Ok(None) <==> PassedBefore(companies, pib, |companies|)
    ensures forall i :: (0 <= i < |companies| && PassedBefore(companies, pib, i) && HasPib(companies[i].val, pib) &&
                         companies[i].val.rec.cls == MiniCompanyDto) ==>
                        FirstWithPib(companies, pib) == Ok(Some(companies[i].val.rec))
    ensures forall i :: (0 <= i < |companies| && PassedBefore(companies, pib, i) && !companies[i].val.Obj?) ==>
                        FirstWithPib(companies, pib) == Err(PibOf(companies[i].val).error)
    ensures forall c: Record :: FirstWithPib(companies, pib) == Ok(Some(c)) ==> c.cls == MiniCompanyDto && Obj(c) in Values(companies)
  {
    if companies != [] {
      var rest := companies[1..];
      FirstWithPibSpec(rest, pib);
      assert forall i :: 1 <= i < |companies| ==> companies[i] == rest[i - 1];
      forall i | 0 < i <= |companies| && PassedBefore(companies, pib, i)
        ensures PassedBefore(rest, pib, i - 1)
      {
        forall j | 0 <= j < i - 1 ensures rest[j].val.Obj? && !HasPib(rest[j].val, pib) {
          assert rest[j] == companies[j + 1];
        }
      }
      if PassedBefore(rest, pib, |rest|) && companies[0].val.Obj? && !HasPib(companies[0].val, pib) {
        forall j | 0 <= j < |companies| ensures companies[j].val.Obj? && !HasPib(companies[j].val, pib) {
          if j > 0 { assert companies[j] == rest[j - 1]; }
        }
      }
      assert Values(companies) == [companies[0].val] + Values(rest);
    }
  }

  /** The values of an array, in order. */
  function Values(es: seq<Entry>): (vs: seq<Value>)
    ensures |vs| == |es| && forall i :: 0 <= i < |es| ==> vs[i] == es[i].val
  {
    if es == [] then [] else [es[0].val] + Values(es[1..])
  }

  /** `$response['raw'] ?? ''` returned as a `string`: any other type is refused. */
  function SubscribeResult(response: seq<Entry>): (r: Result<string, Failure>)
    ensures !IsSet(response, StrKey("raw")) ==> r == Ok("")
    ensures r.Ok? <==> Coalesce(response, StrKey("raw"), Str("")).Str?
    ensures r.Ok? ==> Coalesce(response, StrKey("raw"), Str("")) == Str(r.value)
  {
    match Coalesce(response, StrKey("raw"), Str(""))
    case Str(s) => Ok(s)
    case _ => Err(TypeError("PublicApiService::subscribe(): Return value must be of type string"))
  }

  class PublicApiService {
    const client: EfakturaClient
    const cacheConfig: seq<Entry>
    const cache: CacheStore

    constructor(client: EfakturaClient, cacheConfig: seq<Entry>, cache: CacheStore)
      ensures this.client == client && this.cacheConfig == cacheConfig && this.cache == cache
    {
      this.client := client;
      this.cacheConfig := cacheConfig;
      this.cache := cache;
    }

    /** The JSON outcome of `req` sent after `history`. */
    function Answer(history: seq<Request>, req: Request): Result<seq<Entry>, Failure>
    {
      HandleResponse(client.server(history, req))
    }

    function UnitMeasuresRequest(): Request
    {
      client.Prepared(GET, "/api/publicApi/get-unit-measures", [], NoPayload)
    }

    function CompaniesRequest(includeAllStatuses: bool): Request
    {
      client.Prepared(GET, "/api/publicApi/getAllCompanies", StatusesQuery(includeAllStatuses), NoPayload)
    }

    /** `fetchAllCompanies` after `history`: the list, each item a `MiniCompanyDto`. */
    function CompaniesFetch(history: seq<Request>, includeAllStatuses: bool): Result<seq<Entry>, Failure>
    {
      var data :- Answer(history, CompaniesRequest(includeAllStatuses));
      CollectionOf(MiniCompanyDto, data, false)
    }

    /** What `getAllCompanies` does to the result, the store and the requests, from the store `entries` after `history`. */
    function Companies(entries: map<string, Stored>, history: seq<Request>, includeAllStatuses: bool): Remembered
    {
      Cached(cacheConfig, entries, CompaniesName(includeAllStatuses), "companies", CompaniesFetch(history, includeAllStatuses), CompaniesCaller)
    }

    function CheckRequest(companyId: Option<string>, pib: Option<string>, mb: Option<string>, jbkjs: Option<string>): Request
    {
      client.Prepared(POST, "/api/publicApi/Company/CheckIfCompanyRegisteredOnEfaktura", [], Data(CheckBody(companyId, pib, mb, jbkjs)))
    }

    /** `CompanyAccountOnEfakturaDto::fromArray` of the outcome of `req`. */
    function Account(history: seq<Request>, req: Request): Result<Record, Failure>
    {
      var data :- Answer(history, req);
      FromArray(CompanyAccountOnEfakturaDto, data, false)
    }

    /** `getVersion`: the answer as an `EfakturaVersionDto`. */
    method GetVersion() returns (r: Result<Record, Failure>)
      modifies client
      ensures var req := client.Prepared(GET, "/api/publicApi/getEfakturaVersion", [], NoPayload);
        client.sent == old(client.sent) + [req] &&
        r == (var data :- Answer(old(client.sent), req); FromArray(EfakturaVersionDto, data, false))
    {
      var data :- client.Get("/api/publicApi/getEfakturaVersion", []);
      r := FromArray(EfakturaVersionDto, data, false);
    }

    /** `getUnitMeasures`: the API's array, through the cache under `unit_measures`. */
    method GetUnitMeasures() returns (r: Result<seq<Entry>, Failure>)
      modifies client, cache
      ensures var o := Cached(cacheConfig, old(cache.entries), UnitMeasuresName, UnitMeasuresName,
                              Answer(old(client.sent), UnitMeasuresRequest()), UnitMeasuresCaller);
        r == o.result && cache.entries == o.entries &&
        client.sent == old(client.sent) + (if o.fetched then [UnitMeasuresRequest()] else [])
    {
      ghost var fetch := Answer(client.sent, UnitMeasuresRequest());
      var key := CacheKey(cacheConfig, UnitMeasuresName);
      if key.Err? {
        return Err(key.error);
      }
      var ttl := Ttl(cacheConfig, UnitMeasuresName);
      if Enabled(cacheConfig) {
        var found := cache.Get(key.value);
        if found != Null {
          return ArrayReturn(found, UnitMeasuresCaller);
        }
        r := client.Get("/api/publicApi/get-unit-measures", []);
        assert r == fetch;
        if r.Ok? {
          cache.Put(key.value, Arr(r.value), ttl);
        }
        return;
      }
      r := client.Get("/api/publicApi/get-unit-measures", []);
    }

    /** `fetchAllCompanies`: always asks the API. */
    method FetchAllCompanies(includeAllStatuses: bool) returns (r: Result<seq<Entry>, Failure>)
      modifies client
      ensures client.sent == old(client.sent) + [CompaniesRequest(includeAllStatuses)]
      ensures r == CompaniesFetch(old(client.sent), includeAllStatuses)
    {
      var data :- client.Get("/api/publicApi/getAllCompanies", StatusesQuery(includeAllStatuses));
      r := CollectionOf(MiniCompanyDto, data, false);
    }

    /** `getAllCompanies`: the company list, through the cache under `companies_all` or `companies_active`. */
    method GetAllCompanies(includeAllStatuses: bool) returns (r: Result<seq<Entry>, Failure>)
      modifies client, cache
      ensures var o := Companies(old(cache.entries), old(client.sent), includeAllStatuses);
        r == o.result && cache.entries == o.entries &&
        client.sent == old(client.sent) + (if o.fetched then [CompaniesRequest(includeAllStatuses)] else [])
    {
      ghost var fetch := CompaniesFetch(client.sent, includeAllStatuses);
      ghost var o := Cached(cacheConfig, cache.entries, CompaniesName(includeAllStatuses), "companies", fetch, CompaniesCaller);
      assert o == Companies(cache.entries, client.sent, includeAllStatuses);
      var key := CacheKey(cacheConfig, CompaniesName(includeAllStatuses));
      if key.Err? {
        return Err(key.error);
      }
      var ttl := Ttl(cacheConfig, "companies");
      if Enabled(cacheConfig) {
        var found := cache.Get(key.value);
        if found != Null {
          return ArrayReturn(found, CompaniesCaller);
        }
        r := FetchAllCompanies(includeAllStatuses);
        assert r == fetch;
        if r.Ok? {
          cache.Put(key.value, Arr(r.value), ttl);
        }
        return;
      }
      r := FetchAllCompanies(includeAllStatuses);
    }

    /** `downloadAllCompanies`: the company file, with the same status flag. */
    method DownloadAllCompanies(includeAllStatuses: bool) returns (r: Result<string, Failure>)
      modifies client
      ensures var req := client.Prepared(GET, "/api/publicApi/downloadAllCompanies", StatusesQuery(includeAllStatuses), NoPayload);
        client.sent == old(client.sent) + [req] && r == FileResponse(client.server(old(client.sent), req))
    {
      r := client.GetFile("/api/publicApi/downloadAllCompanies", StatusesQuery(includeAllStatuses));
    }

    /** `subscribe`: an empty POST; the result is the text the client found under `raw`, else ''. */
    method Subscribe() returns (r: Result<string, Failure>)
      modifies client
      ensures var req := client.Prepared(POST, "/api/publicApi/subscribe", [], Data([]));
        client.sent == old(client.sent) + [req] &&
        r == (var data :- Answer(old(client.sent), req); SubscribeResult(data))
    {
      var data :- client.Post("/api/publicApi/subscribe", [], []);
      r := SubscribeResult(data);
    }

    /** `updateCompany`: an empty PUT; the answer is returned as is. */
    method UpdateCompany() returns (r: Result<seq<Entry>, Failure>)
      modifies client
      ensures var req := client.Prepared(PUT, "/api/publicApi/company/update-company", [], Data([]));
        client.sent == old(client.sent) + [req] && r == Answer(old(client.sent), req)
    {
      r := client.Put("/api/publicApi/company/update-company", [], []);
    }

    /** `checkIfCompanyRegistered`: the given identifiers are the body; the answer a `CompanyAccountOnEfakturaDto`. */
    method CheckIfCompanyRegistered(companyId: Option<string>, pib: Option<string>, mb: Option<string>, jbkjs: Option<string>)
      returns (r: Result<Record, Failure>)
      modifies client
      ensures client.sent == old(client.sent) + [CheckRequest(companyId, pib, mb, jbkjs)]
      ensures r == Account(old(client.sent), CheckRequest(companyId, pib, mb, jbkjs))
    {
      var data :- client.Post("/api/publicApi/Company/CheckIfCompanyRegisteredOnEfaktura", CheckBody(companyId, pib, mb, jbkjs), []);
      r := FromArray(CompanyAccountOnEfakturaDto, data, false);
    }

    /** `checkByPib`: the check with only `pib`. */
    method CheckByPib(pib: string) returns (r: Result<Record, Failure>)
      modifies client
      ensures client.sent == old(client.sent) + [CheckRequest(None, Some(pib), None, None)]
      ensures r == Account(old(client.sent), CheckRequest(None, Some(pib), None, None))
    {
      r := CheckIfCompanyRegistered(None, Some(pib), None, None);
    }

    /** `checkByMb`: the check with only `mb`. */
    method CheckByMb(mb: string) returns (r: Result<Record, Failure>)
      modifies client
      ensures client.sent == old(client.sent) + [CheckRequest(None, None, Some(mb), None)]
      ensures r == Account(old(client.sent), CheckRequest(None, None, Some(mb), None))
    {
      r := CheckIfCompanyRegistered(None, None, Some(mb), None);
    }

    /** `checkByJbkjs`: the check with only `jbkjs`. */
    method CheckByJbkjs(jbkjs: string) returns (r: Result<Record, Failure>)
      modifies client
      ensures client.sent == old(client.sent) + [CheckRequest(None, None, None, Some(jbkjs))]
      ensures r == Account(old(client.sent), CheckRequest(None, None, None, Some(jbkjs)))
    {
      r := CheckIfCompanyRegistered(None, None, None, Some(jbkjs));
    }

    /**
     * `findCompanyByPib`: reads the active-company list exactly as
     * `getAllCompanies(false)` does, then returns the first company whose
     * `pib` is the argument, or null; an item before it that is not a
     * record object throws.
     */
    method FindCompanyByPib(pib: string) returns (r: Result<Option<Record>, Failure>)
      modifies client, cache
      ensures var o := Companies(old(cache.entries), old(client.sent), false);
        cache.entries == o.entries &&
        client.sent == old(client.sent) + (if o.fetched then [CompaniesRequest(false)] else []) &&
        r == (var companies :- o.result; FirstWithPib(companies, pib))
    {
      var companies :- GetAllCompanies(false);
      var i := 0;
      while i < |companies|
        invariant 0 <= i <= |companies|
        invariant FirstWithPib(companies[i..], pib) == FirstWithPib(companies, pib)
      {
        assert companies[i..][1..] == companies[i + 1..];
        var company := companies[i].val;
        var found := PibOf(company);
        if found.Err? {
          return Err(found.error);
        }
        if found.value == Str(pib) {
          if company.rec.cls != MiniCompanyDto {
            return Err(TypeError("PublicApiService::findCompanyByPib(): Return value must be of type ?MiniCompanyDto"));
          }
          return Ok(Some(company.rec));
        }
        i := i + 1;
      }
      r := Ok(None);
    }

    /**
     * `clearCache`: forgets the two company lists, the unit measures and
     * the VAT-exemption list under the prefix, and nothing else. A prefix
     * that is not a string fails at the first key, before anything is
     * forgotten.
     */
    method ClearCache() returns (r: Result<(), Failure>)
      modifies cache
      ensures CacheKey(cacheConfig, CompaniesName(true)).Err? ==> r.Err? && cache.entries == old(cache.entries)
      ensures CacheKey(cacheConfig, CompaniesName(true)).Ok? ==>
        (r.Ok? &&
         cache.entries == old(cache.entries) - {CacheKey(cacheConfig, CompaniesName(true)).value,
                                                CacheKey(cacheConfig, CompaniesName(false)).value,
                                                CacheKey(cacheConfig, UnitMeasuresName).value,
                                                CacheKey(cacheConfig, "vat_exemptions").value})
    {
      var all := CacheKey(cacheConfig, CompaniesName(true));
      if all.Err? {
        return Err(all.error);
      }
      cache.Forget(all.value);
      cache.Forget(CacheKey(cacheConfig, CompaniesName(false)).value);
      cache.Forget(CacheKey(cacheConfig, UnitMeasuresName).value);
      cache.Forget(CacheKey(cacheConfig, "vat_exemptions").value);
      r := Ok(());
    }
  }
}
