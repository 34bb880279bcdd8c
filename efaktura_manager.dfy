/**
 * `EfakturaManager`: the package's entry point. It builds the one
 * `EfakturaClient` from the package configuration, creates each service
 * on first use and keeps it, and forwards unknown property reads and
 * method calls to the services.
 */
module Manager {
  import opened Wrappers
  import opened PhpValues
  import opened Http
  import opened EfakturaExceptions
  import opened Client
  import opened CacheStores
  import SalesInvoices
  import PurchaseInvoices
  import PublicApi

  /** `$config['environment'] === 'demo'`; a key set to another value, or to `null`, is not 'demo'. */
  predicate IsDemoConfig(config: seq<Entry>)
  {
    Lookup(config, StrKey("environment")) == Some(Str("demo"))
  }

  /**
   * The base URL `createClient` picks, which the client's `string`
   * parameter then checks. `environment` is read without `??`, so a
   * configuration without it throws before any URL is chosen.
   */
  function BaseUrlOf(config: seq<Entry>): Result<string, Failure>
  {
    if Required(config, "environment").Err? then Err(UndefinedKey("environment"))
    else
      var url := if IsDemoConfig(config) then NestedOr(config, "urls", "demo", Str(DemoUrl))
                 else NestedOr(config, "urls", "production", Str(ProductionUrl));
      if url.Str? then Ok(url.s)
      else Err(TypeError("EfakturaClient::__construct(): Argument #2 ($baseUrl) must be of type string"))
  }

  /**
   * A configuration without `environment` throws the undefined-key
   * warning. Otherwise the demo URL is used exactly in the demo
   * environment, the production URL in any other, each falling back to
   * the client's constant when the configuration does not set it.
   */
  lemma BaseUrlSelection(config: seq<Entry>)
    ensures StrKey("environment") !in Keys(config) ==> BaseUrlOf(config) == Err(UndefinedKey("environment"))
    ensures IsDemoConfig(config) && Nested(config, "urls", "demo").None? ==> BaseUrlOf(config) == Ok(DemoUrl)
    ensures StrKey("environment") in Keys(config) && !IsDemoConfig(config) && Nested(config, "urls", "production").None? ==>
      BaseUrlOf(config) == Ok(ProductionUrl)
    ensures forall u :: IsDemoConfig(config) && Nested(config, "urls", "demo") == Some(Str(u)) ==> BaseUrlOf(config) == Ok(u)
    ensures forall u :: (StrKey("environment") in Keys(config) && !IsDemoConfig(config) &&
                         Nested(config, "urls", "production") == Some(Str(u))) ==> BaseUrlOf(config) == Ok(u)
    ensures BaseUrlOf(config).Err? <==>
      StrKey("environment") !in Keys(config) ||
      !(if IsDemoConfig(config) then NestedOr(config, "urls", "demo", Str(DemoUrl))
        else NestedOr(config, "urls", "production", Str(ProductionUrl))).Str?
  {
    if IsDemoConfig(config) {
      assert Required(config, "environment").Ok?;
    }
  }

  /**
   * `$config['api_key']` as the client's `string` parameter: a missing key
   * throws the undefined-key warning, a key holding anything but a string
   * (`null` included) is refused by the parameter's type.
   */
  function ApiKeyOf(config: seq<Entry>): (r: Result<string, Failure>)
    ensures r.Ok? <==> Lookup(config, StrKey("api_key")).Some? && Lookup(config, StrKey("api_key")).value.Str?
    ensures r.Ok? ==> Lookup(config, StrKey("api_key")) == Some(Str(r.value))
    ensures StrKey("api_key") !in Keys(config) <==> r == Err(UndefinedKey("api_key"))
  {
    var key := Required(config, "api_key");
    if key.Err? then Err(key.error)
    else if key.value.Str? then Ok(key.value.s)
    else Err(TypeError("EfakturaClient::__construct(): Argument #1 ($apiKey) must be of type string"))
  }

  /** The options array `createClient` hands to the client. */
  function ClientConfigOf(config: seq<Entry>): seq<Entry>
  {
    [Entry(StrKey("timeout"), NestedOr(config, "http", "timeout", Int(30))),
     Entry(StrKey("connect_timeout"), NestedOr(config, "http", "connect_timeout", Int(10))),
     Entry(StrKey("retry"), NestedOr(config, "http", "retry", Arr([]))),
     Entry(StrKey("logging"), Coalesce(config, StrKey("logging"), Arr([])))]
  }

  /** `retry` is found under its own key. */
  lemma RetryLookup(config: seq<Entry>)
    ensures Lookup(ClientConfigOf(config), StrKey("retry")) == Some(NestedOr(config, "http", "retry", Arr([])))
  {
    var cc := ClientConfigOf(config);
    assert cc[..3][2] == cc[2];
  }

  /** `connect_timeout` is found under its own key. */
  lemma ConnectTimeoutLookup(config: seq<Entry>)
    ensures Lookup(ClientConfigOf(config), StrKey("connect_timeout")) == Some(NestedOr(config, "http", "connect_timeout", Int(10)))
  {
    var cc := ClientConfigOf(config);
    var c2 := cc[..3];
    assert c2[..2] == cc[..2];
    assert Lookup(cc[..2], StrKey("connect_timeout")) == Some(cc[1].val);
  }

  /** `timeout` is found under its own key. */
  lemma TimeoutLookup(config: seq<Entry>)
    ensures Lookup(ClientConfigOf(config), StrKey("timeout")) == Some(NestedOr(config, "http", "timeout", Int(30)))
  {
    var cc := ClientConfigOf(config);
    var c2, c1 := cc[..3], cc[..2];
    assert c2[..2] == c1 && c1[..1] == cc[..1];
    assert Lookup(cc[..1], StrKey("timeout")) == Some(cc[0].val);
  }

  /**
   * The client reads back what the manager configured: the `http`
   * timeouts (30 and 10 seconds unless set), and a retry only when
   * `http.retry` is an array whose `times` is above zero by PHP's loose
   * `>`, with that `times` value passed on as it is.
   */
  lemma ClientOptions(config: seq<Entry>)
    ensures OptionsOf(ClientConfigOf(config)).timeout == NestedOr(config, "http", "timeout", Int(30))
    ensures OptionsOf(ClientConfigOf(config)).connectTimeout == NestedOr(config, "http", "connect_timeout", Int(10))
    ensures OptionsOf(ClientConfigOf(config)).retry.Some? <==>
      Nested(config, "http", "retry").Some? && Nested(config, "http", "retry").value.Arr? &&
      IsSet(Nested(config, "http", "retry").value.entries, StrKey("times")) &&
      AboveZero(Lookup(Nested(config, "http", "retry").value.entries, StrKey("times")).value)
    ensures OptionsOf(ClientConfigOf(config)).retry.Some? ==>
      OptionsOf(ClientConfigOf(config)).retry.value.times == Lookup(Nested(config, "http", "retry").value.entries, StrKey("times")).value
  {
    RetryLookup(config);
    ConnectTimeoutLookup(config);
    TimeoutLookup(config);
    var cc := ClientConfigOf(config);
    var t, c := NestedOr(config, "http", "timeout", Int(30)), NestedOr(config, "http", "connect_timeout", Int(10));
    assert t != Null && c != Null;
  }

  /**
   * With nothing configured, the first unguarded read throws: `environment`
   * is missing. Once `environment` and `api_key` are there and nothing else
   * is, the client gets the production URL, 30 and 10 second timeouts and
   * no retry.
   */
  lemma ManagerDefaults(k: string)
    ensures BaseUrlOf([]) == Err(UndefinedKey("environment"))
    ensures ApiKeyOf([]) == Err(UndefinedKey("api_key"))
    ensures OptionsOf(ClientConfigOf([])) == Options(Int(30), Int(10), None)
    ensures var c := [Entry(StrKey("environment"), Str("production")), Entry(StrKey("api_key"), Str(k))];
            BaseUrlOf(c) == Ok(ProductionUrl) && ApiKeyOf(c) == Ok(k) &&
            OptionsOf(ClientConfigOf(c)) == Options(Int(30), Int(10), None)
  {
    ClientOptions([]);
    assert Nested([], "http", "retry").None?;
    var c := [Entry(StrKey("environment"), Str("production")), Entry(StrKey("api_key"), Str(k))];
    assert c[..1][0] == c[0];
    assert Lookup(c, StrKey("environment")) == Some(Str("production"));
    assert Lookup(c, StrKey("api_key")) == Some(Str(k));
    assert Lookup(c, StrKey("urls")) == None && Lookup(c, StrKey("http")) == None && Lookup(c, StrKey("logging")) == None;
    ClientOptions(c);
    assert Nested(c, "http", "retry").None?;
    assert !IsDemoConfig(c) && Nested(c, "urls", "production").None?;
    BaseUrlSelection(c);
  }

  /** `$config['cache'] ?? []` as a service's `array $cacheConfig` parameter. */
  function CacheConfigOf(config: seq<Entry>, service: string): (r: Result<seq<Entry>, Failure>)
    ensures !IsSet(config, StrKey("cache")) ==> r == Ok([])
    ensures r.Ok? <==> Coalesce(config, StrKey("cache"), Arr([])).Arr?
    ensures r.Ok? ==> Coalesce(config, StrKey("cache"), Arr([])) == Arr(r.value)
  {
    match Coalesce(config, StrKey("cache"), Arr([]))
    case Arr(es) => Ok(es)
    case _ => Err(TypeError(service + "::__construct(): Argument #2 ($cacheConfig) must be of type array"))
  }

  const SalesClass: string := "SalesInvoiceService"
  const PurchaseClass: string := "PurchaseInvoiceService"
  const PublicClass: string := "PublicApiService"

  /** `strtolower` on one character: ASCII letters only. */
  function LowerChar(c: char): char
  {
    if 'A' <= c <= 'Z' then (c as int + 32) as char else c
  }

  /** PHP method names are matched without regard to ASCII case. */
  function Lower(s: string): (r: string)
    ensures |r| == |s| && forall i :: 0 <= i < |s| ==> r[i] == LowerChar(s[i])
  {
    if s == [] then [] else [LowerChar(s[0])] + Lower(s[1..])
  }

  /** The methods `method_exists` finds on each service, lower-cased; protected ones included. */
  const SalesMethods: set<string> := {
    "__construct", "get", "findbynumber", "uploadubl", "importubl", "importublfromfile", "buildublquery",
    "deletemultiple", "delete", "cancel", "storno", "getpdf", "downloadpdf", "getxml", "downloadxml",
    "getsignature", "getchanges", "getids", "getvatexemptionreasons", "fetchvatexemptionreasons"}
  const SalesProtected: set<string> := {"buildublquery", "fetchvatexemptionreasons"}
  const PurchaseMethods: set<string> := {
    "__construct", "get", "getpdf", "downloadpdf", "getxml", "downloadxml", "getublbycirinvoiceid",
    "getsignature", "acceptreject", "accept", "reject", "acceptrejectbycirinvoiceid", "acceptbycirid",
    "rejectbycirid", "getchanges", "getids", "getoverview", "getnew", "recordvatreversecharge",
    "assigncirinvoice", "cancelcirassignment"}
  const PublicMethods: set<string> := {
    "__construct", "getversion", "getunitmeasures", "getallcompanies", "fetchallcompanies",
    "downloadallcompanies", "subscribe", "updatecompany", "checkifcompanyregistered", "checkbypib",
    "checkbymb", "checkbyjbkjs", "findcompanybypib", "clearcache"}
  const PublicProtected: set<string> := {"fetchallcompanies"}

  datatype ServiceName = Sales | Purchase | Public

  /** Where `__call` sends a call: the service, and the method it resolves to (lower-cased). */
  datatype Target = Target(service: ServiceName, callee: string)

  /** Calling `name` on a service from the manager: a protected method is an `Error`. */
  function Forward(service: ServiceName, cls: string, protected: set<string>, name: string): Result<Target, Failure>
  {
    if Lower(name) in protected then Err(Error("Call to protected method " + cls + "::" + name + "() from scope EfakturaManager"))
    else Ok(Target(service, Lower(name)))
  }

  /**
   * `__call`'s dispatch: the first of sales, purchase and public that has
   * a method of that name, whatever its visibility, takes the call.
   */
  function RouteOf(name: string): Result<Target, Failure>
  {
    if Lower(name) in SalesMethods then Forward(Sales, SalesClass, SalesProtected, name)
    else if Lower(name) in PurchaseMethods then Forward(Purchase, PurchaseClass, {}, name)
    else if Lower(name) in PublicMethods then Forward(Public, PublicClass, PublicProtected, name)
    else Err(BadMethodCall("Method " + name + " does not exist."))
  }

  /**
   * The dispatch order decides: every public sales method reaches sales,
   * even the names purchase also has; purchase gets the rest of its own;
   * public gets only names neither invoice service has; the protected
   * helpers cannot be reached; and a name no service has is refused.
   */
  lemma {:induction false} RouteSpec(name: string)
    ensures Lower(name) in SalesMethods - SalesProtected ==> RouteOf(name) == Ok(Target(Sales, Lower(name)))
    ensures Lower(name) !in SalesMethods && Lower(name) in PurchaseMethods ==> RouteOf(name) == Ok(Target(Purchase, Lower(name)))
    ensures Lower(name) !in SalesMethods + PurchaseMethods && Lower(name) in PublicMethods - PublicProtected ==>
              RouteOf(name) == Ok(Target(Public, Lower(name)))
    ensures Lower(name) in SalesProtected + PublicProtected ==> RouteOf(name).Err? && RouteOf(name).error.Error?
    ensures RouteOf(name).Err? && RouteOf(name).error.BadMethodCall? <==> Lower(name) !in SalesMethods + PurchaseMethods + PublicMethods
  {
    assert "fetchallcompanies" !in SalesMethods && "fetchallcompanies" !in PurchaseMethods;
  }

  /** `get`, which both invoice services define, reaches the sales service. */
  lemma GetReachesSales()
    ensures RouteOf("get") == Ok(Target(Sales, "get"))
  {
    assert Lower("get") == "get";
  }

  /** `accept`, which only purchase defines, reaches the purchase service. */
  lemma AcceptReachesPurchase()
    ensures RouteOf("accept") == Ok(Target(Purchase, "accept"))
  {
    assert Lower("accept") == "accept";
    assert "accept" !in SalesMethods;
  }

  /** Dispatch sees only the lower-cased name: two spellings of one method go to the same place. */
  lemma RouteIgnoresCase(a: string, b: string)
    requires Lower(a) == Lower(b)
    ensures RouteOf(a).Ok? <==> RouteOf(b).Ok?
    ensures RouteOf(a).Ok? ==> RouteOf(a) == RouteOf(b)
  {
  }

  /** What `__get` hands back. */
  datatype Service =
    | SalesService(sales: SalesInvoices.SalesInvoiceService)
    | PurchaseService(purchase: PurchaseInvoices.PurchaseInvoiceService)
    | PublicService(publicApi: PublicApi.PublicApiService)

  class EfakturaManager {
    const config: seq<Entry>
    const client: EfakturaClient
    /** The application cache the services share. */
    const cache: CacheStore
    var sales: SalesInvoices.SalesInvoiceService?
    var purchase: PurchaseInvoices.PurchaseInvoiceService?
    var publicApi: PublicApi.PublicApiService?

    /**
     * Every service that exists was built on the manager's client, the
     * shared cache and `config['cache']`.
     */
    ghost predicate Valid()
      reads this
    {
      (sales != null ==> sales.client == client && sales.cache == cache &&
                         CacheConfigOf(config, SalesClass) == Ok(sales.cacheConfig)) &&
      (purchase != null ==> purchase.client == client &&
                            CacheConfigOf(config, PurchaseClass) == Ok(purchase.cacheConfig)) &&
      (publicApi != null ==> publicApi.client == client && publicApi.cache == cache &&
                             CacheConfigOf(config, PublicClass) == Ok(publicApi.cacheConfig))
    }

    constructor(config: seq<Entry>, client: EfakturaClient, cache: CacheStore)
      ensures this.config == config && this.client == client && this.cache == cache
      ensures sales == null && purchase == null && publicApi == null
      ensures Valid()
    {
      this.config := config;
      this.client := client;
      this.cache := cache;
      sales := null;
      purchase := null;
      publicApi := null;
    }

    /**
     * `new EfakturaManager($config)`: the client gets the API key, the
     * base URL of the configured environment (trailing slashes trimmed)
     * and the transport options; no service exists yet.
     */
    static method Create(config: seq<Entry>, server: (seq<Request>, Request) -> Response,
                         encodeQuery: seq<Entry> -> string, cache: CacheStore)
      returns (r: Result<EfakturaManager, Failure>)
      ensures StrKey("environment") !in Keys(config) ==> r == Err(UndefinedKey("environment"))
      ensures StrKey("environment") in Keys(config) && StrKey("api_key") !in Keys(config) ==> r == Err(UndefinedKey("api_key"))
      ensures StrKey("environment") in Keys(config) && ApiKeyOf(config).Err? ==> r == Err(ApiKeyOf(config).error)
      ensures ApiKeyOf(config).Ok? && BaseUrlOf(config).Err? ==> r == Err(BaseUrlOf(config).error)
      ensures r.Ok? <==> ApiKeyOf(config).Ok? && BaseUrlOf(config).Ok?
      ensures r.Ok? ==> fresh(r.value) && fresh(r.value.client) && r.value.Valid() &&
                        r.value.config == config && r.value.cache == cache &&
                        r.value.sales == null && r.value.purchase == null && r.value.publicApi == null &&
                        r.value.client.apiKey == ApiKeyOf(config).value &&
                        r.value.client.baseUrl == RTrimSlash(BaseUrlOf(config).value) &&
                        r.value.client.config == ClientConfigOf(config) &&
                        r.value.client.sent == []
    {
      // `environment` is read first, then `api_key`; the client's parameter
      // types are checked in order once both values are in hand.
      var environment := Required(config, "environment");
      if environment.Err? {
        return Err(environment.error);
      }
      var baseUrl := BaseUrlOf(config);
      var apiKey := ApiKeyOf(config);
      if apiKey.Err? {
        return Err(apiKey.error);
      }
      if baseUrl.Err? {
        return Err(baseUrl.error);
      }
      var client := new EfakturaClient(apiKey.value, baseUrl.value, ClientConfigOf(config), server, encodeQuery);
      var m := new EfakturaManager(config, client, cache);
      r := Ok(m);
    }

    /** `isDemo()`. */
    predicate IsDemo()
    {
      IsDemoConfig(config)
    }

    /** `isProduction()`: `environment !== 'demo'`. */
    predicate IsProduction()
    {
      Lookup(config, StrKey("environment")) != Some(Str("demo"))
    }

    /** Exactly one of the two environments holds, and the client talks to that environment's URL. */
    lemma EnvironmentComplement()
      requires BaseUrlOf(config).Ok?
      ensures IsDemo() <==> !IsProduction()
      ensures IsDemo() ==> Str(BaseUrlOf(config).value) == NestedOr(config, "urls", "demo", Str(DemoUrl))
      ensures IsProduction() ==> Str(BaseUrlOf(config).value) == NestedOr(config, "urls", "production", Str(ProductionUrl))
    {
    }

    /** `salesInvoice()`: built on first use with the shared client, then the same instance every time. */
    method SalesInvoice() returns (r: Result<SalesInvoices.SalesInvoiceService, Failure>)
      requires Valid()
      modifies this
      ensures Valid()
      ensures old(sales) != null ==> r == Ok(old(sales)) && sales == old(sales)
      ensures old(sales) == null && CacheConfigOf(config, SalesClass).Err? ==>
                r == Err(CacheConfigOf(config, SalesClass).error) && sales == null
      ensures old(sales) == null && CacheConfigOf(config, SalesClass).Ok? ==> r.Ok? && fresh(r.value) && sales == r.value
      ensures r.Ok? ==> r.value.client == client
      ensures purchase == old(purchase) && publicApi == old(publicApi)
    {
      if sales == null {
        var cacheConfig :- CacheConfigOf(config, SalesClass);
        sales := new SalesInvoices.SalesInvoiceService(client, cacheConfig, cache);
      }
      r := Ok(sales);
    }

    /** `purchaseInvoice()`: built on first use with the shared client, then the same instance every time. */
    method PurchaseInvoice() returns (r: Result<PurchaseInvoices.PurchaseInvoiceService, Failure>)
      requires Valid()
      modifies this
      ensures Valid()
      ensures old(purchase) != null ==> r == Ok(old(purchase)) && purchase == old(purchase)
      ensures old(purchase) == null && CacheConfigOf(config, PurchaseClass).Err? ==>
                r == Err(CacheConfigOf(config, PurchaseClass).error) && purchase == null
      ensures old(purchase) == null && CacheConfigOf(config, PurchaseClass).Ok? ==> r.Ok? && fresh(r.value) && purchase == r.value
      ensures r.Ok? ==> r.value.client == client
      ensures sales == old(sales) && publicApi == old(publicApi)
    {
      if purchase == null {
        var cacheConfig :- CacheConfigOf(config, PurchaseClass);
        purchase := new PurchaseInvoices.PurchaseInvoiceService(client, cacheConfig);
      }
      r := Ok(purchase);
    }

    /** `publicApi()`: built on first use with the shared client, then the same instance every time. */
    method PublicApiService() returns (r: Result<PublicApi.PublicApiService, Failure>)
      requires Valid()
      modifies this
      ensures Valid()
      ensures old(publicApi) != null ==> r == Ok(old(publicApi)) && publicApi == old(publicApi)
      ensures old(publicApi) == null && CacheConfigOf(config, PublicClass).Err? ==>
                r == Err(CacheConfigOf(config, PublicClass).error) && publicApi == null
      ensures old(publicApi) == null && CacheConfigOf(config, PublicClass).Ok? ==> r.Ok? && fresh(r.value) && publicApi == r.value
      ensures r.Ok? ==> r.value.client == client
      ensures sales == old(sales) && purchase == old(purchase)
    {
      if publicApi == null {
        var cacheConfig :- CacheConfigOf(config, PublicClass);
        publicApi := new PublicApi.PublicApiService(client, cacheConfig, cache);
      }
      r := Ok(publicApi);
    }

    /** `__get`: the three service names, and nothing else. */
    method Property(name: string) returns (r: Result<Service, Failure>)
      requires Valid()
      modifies this
      ensures Valid()
      ensures name !in {"salesInvoice", "purchaseInvoice", "publicApi"} ==>
                r == Err(InvalidArgument("Unknown service: " + name)) &&
                sales == old(sales) && purchase == old(purchase) && publicApi == old(publicApi)
      ensures name == "salesInvoice" && r.Ok? ==> sales != null && r.value == SalesService(sales)
      ensures name == "purchaseInvoice" && r.Ok? ==> purchase != null && r.value == PurchaseService(purchase)
      ensures name == "publicApi" && r.Ok? ==> publicApi != null && r.value == PublicService(publicApi)
      ensures name == "salesInvoice" ==> (r.Ok? <==> old(sales) != null || CacheConfigOf(config, SalesClass).Ok?)
      ensures name == "purchaseInvoice" ==> (r.Ok? <==> old(purchase) != null || CacheConfigOf(config, PurchaseClass).Ok?)
      ensures name == "publicApi" ==> (r.Ok? <==> old(publicApi) != null || CacheConfigOf(config, PublicClass).Ok?)
    {
      if name == "salesInvoice" {
        var s :- SalesInvoice();
        r := Ok(SalesService(s));
      } else if name == "purchaseInvoice" {
        var p :- PurchaseInvoice();
        r := Ok(PurchaseService(p));
      } else if name == "publicApi" {
        var q :- PublicApiService();
        r := Ok(PublicService(q));
      } else {
        r := Err(InvalidArgument("Unknown service: " + name));
      }
    }

    /**
     * `__call`: asks the sales service first, creating it if need be,
     * then the purchase service, then the public service, and stops at
     * the first that has the method. The forwarded call itself is not
     * part of this model; the result is where it goes.
     */
    method Call(name: string) returns (r: Result<Target, Failure>)
      requires Valid()
      modifies this
      ensures Valid()
      ensures CacheConfigOf(config, SalesClass).Ok? ==> r == RouteOf(name)
      ensures CacheConfigOf(config, SalesClass).Ok? ==>
                sales != null &&
                (purchase != null <==> old(purchase) != null || Lower(name) !in SalesMethods) &&
                (publicApi != null <==> old(publicApi) != null || Lower(name) !in SalesMethods + PurchaseMethods)
      ensures CacheConfigOf(config, SalesClass).Err? ==>
                r == Err(CacheConfigOf(config, SalesClass).error) &&
                sales == old(sales) && purchase == old(purchase) && publicApi == old(publicApi)
      ensures old(sales) != null ==> sales == old(sales)
      ensures old(purchase) != null ==> purchase == old(purchase)
      ensures old(publicApi) != null ==> publicApi == old(publicApi)
    {
      var _ :- SalesInvoice();
      if Lower(name) in SalesMethods {
        return Forward(Sales, SalesClass, SalesProtected, name);
      }
      // The sales service exists, so `config['cache']` is an array and neither getter below can fail.
      var _ := PurchaseInvoice();
      if Lower(name) in PurchaseMethods {
        return Forward(Purchase, PurchaseClass, {}, name);
      }
      var _ := PublicApiService();
      if Lower(name) in PublicMethods {
        return Forward(Public, PublicClass, PublicProtected, name);
      }
      r := Err(BadMethodCall("Method " + name + " does not exist."));
    }
  }
}
