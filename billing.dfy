/**
 * The Bango billing-configuration endpoint: `prepare`, which turns a
 * validated request into the payload of the vendor's
 * `CreateBillingConfiguration` call, and the `billing` view, which sends
 * that payload and shapes the vendor's answer into the JSON response.
 *
 * The vendor's factory objects (`ArrayOfPrice`, `ArrayOfString`,
 * `ArrayOfBillingConfigurationOption`) are plain sequences here, the
 * `bango_data` dictionary is a map from key to `Value`, the settings and
 * constants are explicit parameters and `sign` is a function parameter.
 */
module Billing {
  import opened Wrappers

  /** One entry of the request's price list, as the form cleans it (amounts in cents). */
  datatype PriceItem = PriceItem(price: int, currency: string, paymentMethod: string)

  /** One vendor `Price` object. */
  datatype Price = Price(amount: int, currency: string)

  /** One vendor `BillingConfigurationOption`. */
  datatype ConfigOption = ConfigOption(name: string, value: Value)

  /** What a value of the `bango_data` dictionary can be. */
  datatype Value =
    | Null
    | Text(text: string)
    | Number(number: int)
    | PriceList(prices: seq<Price>)
    | TypeFilter(types: seq<string>)
    | ConfigurationOptions(options: seq<ConfigOption>)

  /** Python truthiness of a value, as `if icon_url:` tests it. */
  predicate Truthy(v: Value) {
    match v
    case Null => false
    case Text(s) => s != ""
    case Number(n) => n != 0
    case PriceList(ps) => ps != []
    case TypeFilter(ts) => ts != []
    case ConfigurationOptions(os) => os != []
  }

  /** The settings `prepare` reads: TRANSACTION_EXPIRY, SEND_USER_ID_TO_BANGO, BANGO_ICON_URLS. */
  datatype Settings = Settings(transactionExpiry: int, sendUserIdToBango: bool, bangoIconUrls: bool)

  /** PAYMENT_TYPES, MICRO_PAYMENT_TYPES and str(PAYMENT_METHOD_OPERATOR). */
  datatype Constants = Constants(paymentTypes: seq<string>, microPaymentTypes: seq<string>, operatorMethod: string)

  /** A `KeyError` from a missing `bango_data` key, or a `BangoError` from the vendor. */
  datatype BillingError = MissingKey(key: string) | BangoError(message: string)

  // ---------------------------------------------------------------------
  // The price list: duplicate currencies dropped, the first one kept.
  // ---------------------------------------------------------------------

  function ToPrice(item: PriceItem): Price {
    Price(item.price, item.currency)
  }

  predicate HasCurrency(prices: seq<Price>, currency: string) {
    exists k | 0 <= k < |prices| :: prices[k].currency == currency
  }

  /** The price list `prepare` builds: each item is appended unless a price already kept has its currency. */
  function DedupPrices(items: seq<PriceItem>): seq<Price> {
    if items == [] then []
    else
      var kept := DedupPrices(items[..|items| - 1]);
      var p := ToPrice(items[|items| - 1]);
      if HasCurrency(kept, p.currency) then kept else kept + [p]
  }

  /** Item i is the first of the items with its currency. */
  predicate IsFirst(items: seq<PriceItem>, i: int)
    requires 0 <= i < |items|
  {
    forall k | 0 <= k < i :: items[k].currency != items[i].currency
  }

  /** Reference definition: the items that come first with their currency, in input order. */
  function FirstOccurrences(items: seq<PriceItem>): seq<Price> {
    if items == [] then []
    else
      FirstOccurrences(items[..|items| - 1])
      + (if IsFirst(items, |items| - 1) then [ToPrice(items[|items| - 1])] else [])
  }

  ghost predicate DistinctCurrencies(prices: seq<Price>) {
    forall i, j | 0 <= i < j < |prices| :: prices[i].currency != prices[j].currency
  }

  /** Some item of `items` has currency `c`. */
  predicate UsesCurrency(items: seq<PriceItem>, c: string) {
    exists i | 0 <= i < |items| :: items[i].currency == c
  }

  lemma HasCurrencyAppend(prices: seq<Price>, p: Price, c: string)
    ensures HasCurrency(prices + [p], c) <==> HasCurrency(prices, c) || p.currency == c
  {
    if HasCurrency(prices, c) {
      var k :| 0 <= k < |prices| && prices[k].currency == c;
      assert (prices + [p])[k].currency == c;
    }
    if p.currency == c {
      assert (prices + [p])[|prices|].currency == c;
    }
  }

  lemma UsesCurrencyInit(items: seq<PriceItem>, c: string)
    requires items != []
    ensures UsesCurrency(items, c) <==> UsesCurrency(items[..|items| - 1], c) || items[|items| - 1].currency == c
  {
    var init := items[..|items| - 1];
    if UsesCurrency(init, c) {
      var i :| 0 <= i < |init| && init[i].currency == c;
      assert items[i].currency == c;
    }
  }

  /** Deduplication never loses a currency and never invents one. */
  lemma {:induction false} DedupCurrencies(items: seq<PriceItem>, c: string)
    ensures HasCurrency(DedupPrices(items), c) <==> UsesCurrency(items, c)
  {
    if items != [] {
      var init := items[..|items| - 1];
      var p := ToPrice(items[|items| - 1]);
      DedupCurrencies(init, c);
      DedupCurrencies(init, p.currency);
      UsesCurrencyInit(items, c);
      HasCurrencyAppend(DedupPrices(init), p, c);
    }
  }

  /** The output price list has pairwise-distinct currencies. */
  lemma {:induction false} DedupDistinct(items: seq<PriceItem>)
    ensures DistinctCurrencies(DedupPrices(items))
  {
    if items != [] {
      DedupDistinct(items[..|items| - 1]);
    }
  }

  /** The output is the input filtered to first occurrences: order is kept and later duplicates are dropped. */
  lemma {:induction false} DedupIsFirstOccurrences(items: seq<PriceItem>)
    ensures DedupPrices(items) == FirstOccurrences(items)
  {
    if items != [] {
      var init := items[..|items| - 1];
      var last := |items| - 1;
      DedupIsFirstOccurrences(init);
      DedupCurrencies(init, items[last].currency);
      if !IsFirst(items, last) {
        var k :| 0 <= k < last && items[k].currency == items[last].currency;
        assert init[k].currency == items[last].currency;
      }
      if UsesCurrency(init, items[last].currency) {
        var i :| 0 <= i < |init| && init[i].currency == items[last].currency;
        assert items[i].currency == items[last].currency;
      }
    }
  }

  /** Every kept price is the price of the first item with that currency. */
  lemma {:induction false} DedupEntryIsFirst(items: seq<PriceItem>, j: int)
    requires 0 <= j < |DedupPrices(items)|
    ensures exists i | 0 <= i < |items| :: IsFirst(items, i) && DedupPrices(items)[j] == ToPrice(items[i])
  {
    var init := items[..|items| - 1];
    var last := |items| - 1;
    if j < |DedupPrices(init)| {
      DedupEntryIsFirst(init, j);
      var i :| 0 <= i < |init| && IsFirst(init, i) && DedupPrices(init)[j] == ToPrice(init[i]);
      assert IsFirst(items, i) by {
        forall k | 0 <= k < i ensures items[k].currency != items[i].currency {
          assert init[k] == items[k];
        }
      }
    } else {
      DedupCurrencies(init, items[last].currency);
      assert IsFirst(items, last) by {
        forall k | 0 <= k < last ensures items[k].currency != items[last].currency {
          assert init[k] == items[k];
        }
      }
    }
  }

  // ---------------------------------------------------------------------
  // The payment-type filter.
  // ---------------------------------------------------------------------

  /** The set `price_types`: the method of every item, duplicates included. */
  function Methods(items: seq<PriceItem>): set<string> {
    set i | 0 <= i < |items| :: items[i].paymentMethod
  }

  /** The filter list: the reduced one exactly when the only method used is the operator's. */
  function ChooseTypeFilter(items: seq<PriceItem>, c: Constants): seq<string> {
    if Methods(items) == {c.operatorMethod} then c.microPaymentTypes else c.paymentTypes
  }

  /** `price_types == {operator}` holds exactly when there are items and all of them are operator-billed. */
  lemma AllOperatorIff(items: seq<PriceItem>, op: string)
    ensures Methods(items) == {op} <==> items != [] && forall i | 0 <= i < |items| :: items[i].paymentMethod == op
  {
    if items != [] && forall i | 0 <= i < |items| :: items[i].paymentMethod == op {
      assert items[0].paymentMethod in Methods(items);
    }
    if Methods(items) == {op} {
      assert op in Methods(items);
      forall i | 0 <= i < |items| ensures items[i].paymentMethod == op {
        assert items[i].paymentMethod in Methods(items);
      }
    }
  }

  /** Hence the reduced filter list is chosen exactly for a non-empty, all-operator price list. */
  lemma TypeFilterChoice(items: seq<PriceItem>, c: Constants)
    requires c.microPaymentTypes != c.paymentTypes
    ensures ChooseTypeFilter(items, c) == c.microPaymentTypes
        <==> items != [] && forall i | 0 <= i < |items| :: items[i].paymentMethod == c.operatorMethod
  {
    AllOperatorIff(items, c.operatorMethod);
  }

  // ---------------------------------------------------------------------
  // The configuration options.
  // ---------------------------------------------------------------------

  /** The `bango_data` keys `prepare` reads without a default, in the order it reads them. */
  const RequiredKeys: seq<string> :=
    ["application_size", "redirect_url_onsuccess", "redirect_url_onerror", "externalTransactionId", "user_uuid"]

  /** Every key of `RequiredKeys` is in `data`; spelled out so that each membership is at hand. */
  predicate RequiredPresent(data: map<string, Value>) {
    && "application_size" in data
    && "redirect_url_onsuccess" in data
    && "redirect_url_onerror" in data
    && "externalTransactionId" in data
    && "user_uuid" in data
  }

  /** `RequiredPresent` is exactly "every key of `RequiredKeys` is in `data`". */
  lemma RequiredPresentIff(data: map<string, Value>)
    ensures RequiredPresent(data) <==> forall i | 0 <= i < |RequiredKeys| :: RequiredKeys[i] in data
  {
    if forall i | 0 <= i < |RequiredKeys| :: RequiredKeys[i] in data {
      assert RequiredKeys[0] in data && RequiredKeys[1] in data && RequiredKeys[2] in data;
      assert RequiredKeys[3] in data && RequiredKeys[4] in data;
    }
  }

  /** The keys `prepare` pops from `bango_data`. */
  function Popped(s: Settings): set<string> {
    {"application_size", "redirect_url_onsuccess", "redirect_url_onerror", "user_uuid"}
    + (if s.bangoIconUrls then {"icon_url"} else {})
  }

  /** The keys `prepare` sets in `bango_data`. */
  const Added: set<string> := {"bango", "priceList", "typeFilter", "configurationOptions"}

  /** The options that are always sent. */
  const BaseOptionNames: set<string> := {
    "APPLICATION_CATEGORY_ID", "APPLICATION_SIZE_KB", "BILLING_CONFIGURATION_TIME_OUT",
    "REDIRECT_URL_ONSUCCESS", "REDIRECT_URL_ONERROR", "REQUEST_SIGNATURE"
  }

  /** The `configs` dictionary `prepare` assembles from the request data and the settings. */
  function Configs(data: map<string, Value>, s: Settings, sign: Value -> string): (configs: map<string, Value>)
    requires RequiredPresent(data)
    ensures configs.Keys == BaseOptionNames
                            + (if s.sendUserIdToBango then {"MOZ_USER_ID"} else {})
                            + (if s.bangoIconUrls && "icon_url" in data && Truthy(data["icon_url"])
                               then {"APPLICATION_LOGO_URL"} else {})
    ensures configs["APPLICATION_CATEGORY_ID"] == Text("18")
    ensures configs["BILLING_CONFIGURATION_TIME_OUT"] == Number(s.transactionExpiry + 60)
    ensures configs["REQUEST_SIGNATURE"] == Text(sign(data["externalTransactionId"]))
    ensures configs["APPLICATION_SIZE_KB"] == data["application_size"]
    ensures configs["REDIRECT_URL_ONSUCCESS"] == data["redirect_url_onsuccess"]
    ensures configs["REDIRECT_URL_ONERROR"] == data["redirect_url_onerror"]
    ensures "MOZ_USER_ID" in configs ==> configs["MOZ_USER_ID"] == data["user_uuid"]
    ensures "APPLICATION_LOGO_URL" in configs ==> configs["APPLICATION_LOGO_URL"] == data["icon_url"]
  {
    var base := map[
      "APPLICATION_CATEGORY_ID" := Text("18"),
      "APPLICATION_SIZE_KB" := data["application_size"],
      "BILLING_CONFIGURATION_TIME_OUT" := Number(s.transactionExpiry + 60),
      "REDIRECT_URL_ONSUCCESS" := data["redirect_url_onsuccess"],
      "REDIRECT_URL_ONERROR" := data["redirect_url_onerror"],
      "REQUEST_SIGNATURE" := Text(sign(data["externalTransactionId"]))
    ];
    var withUser := if s.sendUserIdToBango then base["MOZ_USER_ID" := data["user_uuid"]] else base;
    if s.bangoIconUrls && "icon_url" in data && Truthy(data["icon_url"])
    then withUser["APPLICATION_LOGO_URL" := data["icon_url"]]
    else withUser
  }

  /** `opts` holds exactly one option per entry of `configs`, with its name and value. */
  ghost predicate EmitsEach(opts: seq<ConfigOption>, configs: map<string, Value>) {
    && |opts| == |configs|
    && (forall i | 0 <= i < |opts| :: opts[i].name in configs && opts[i].value == configs[opts[i].name])
    && (forall i, j | 0 <= i < j < |opts| :: opts[i].name != opts[j].name)
    && (forall k | k in configs :: exists i | 0 <= i < |opts| :: opts[i].name == k)
  }

  /**
   * The loop over `configs.items()`. A Python 2 dictionary yields its items
   * in no specified order, so the key taken next is any one not yet taken.
   */
  method EmitOptions(configs: map<string, Value>) returns (opts: seq<ConfigOption>)
    ensures EmitsEach(opts, configs)
  {
    opts := [];
    var remaining := configs.Keys;
    while remaining != {}
      invariant remaining <= configs.Keys
      invariant forall i | 0 <= i < |opts| ::
        opts[i].name in configs && opts[i].name !in remaining && opts[i].value == configs[opts[i].name]
      invariant forall i, j | 0 <= i < j < |opts| :: opts[i].name != opts[j].name
      invariant forall k | k in configs && k !in remaining :: exists i | 0 <= i < |opts| :: opts[i].name == k
      invariant |opts| + |remaining| == |configs|
      decreases |remaining|
    {
      var k :| k in remaining;
      ghost var before := opts;
      opts := opts + [ConfigOption(k, configs[k])];
      remaining := remaining - {k};
      forall k' | k' in configs && k' !in remaining
        ensures exists i | 0 <= i < |opts| :: opts[i].name == k'
      {
        if k' == k {
          assert opts[|before|].name == k';
        } else {
          var i :| 0 <= i < |before| && before[i].name == k';
          assert opts[i].name == k';
        }
      }
    }
  }

  // ---------------------------------------------------------------------
  // prepare()
  // ---------------------------------------------------------------------

  /** What `prepare` returns when every key it needs is present. */
  ghost predicate IsPrepared(out: map<string, Value>, data: map<string, Value>, bango: Value,
                             items: seq<PriceItem>, s: Settings, c: Constants, sign: Value -> string)
    requires RequiredPresent(data)
  {
    && out.Keys == (data.Keys - Popped(s)) + Added
    && out["bango"] == bango
    && out["priceList"] == PriceList(DedupPrices(items))
    && out["typeFilter"] == TypeFilter(ChooseTypeFilter(items, c))
    && out["configurationOptions"].ConfigurationOptions?
    && EmitsEach(out["configurationOptions"].options, Configs(data, s, sign))
    && (forall k | k in data && k !in Popped(s) && k !in Added :: out[k] == data[k])
  }

  /** The first loop of `prepare`: the deduplicated price list and the set of methods seen. */
  method BuildPriceList(items: seq<PriceItem>) returns (prices: seq<Price>, methods: set<string>)
    ensures prices == DedupPrices(items)
    ensures methods == Methods(items)
  {
    prices, methods := [], {};
    var i := 0;
    while i < |items|
      invariant 0 <= i <= |items|
      invariant prices == DedupPrices(items[..i])
      invariant methods == Methods(items[..i])
    {
      var price := ToPrice(items[i]);
      methods := methods + {items[i].paymentMethod};
      var append := true;
      var j := 0;
      while j < |prices|
        invariant 0 <= j <= |prices|
        invariant forall k | 0 <= k < j :: prices[k].currency != price.currency
      {
        if prices[j].currency == price.currency {
          append := false;
          break;
        }
        j := j + 1;
      }
      assert append <==> !HasCurrency(prices, price.currency);
      if append {
        prices := prices + [price];
      }
      assert items[..i + 1][..i] == items[..i];
      assert Methods(items[..i + 1]) == Methods(items[..i]) + {items[i].paymentMethod} by {
        var next := items[..i + 1];
        forall m | m in Methods(next) ensures m in Methods(items[..i]) + {items[i].paymentMethod} {
          var k :| 0 <= k < |next| && next[k].paymentMethod == m;
          if k < i {
            assert items[..i][k].paymentMethod == m;
          }
        }
        forall m | m in Methods(items[..i]) ensures m in Methods(next) {
          var k :| 0 <= k < i && items[..i][k].paymentMethod == m;
          assert next[k].paymentMethod == m;
        }
        assert next[i].paymentMethod == items[i].paymentMethod;
      }
      i := i + 1;
    }
    assert items[..i] == items;
  }

  /** `RequiredKeys[i]` is the first required key missing from `data`. */
  ghost predicate FirstMissing(data: map<string, Value>, i: int) {
    && 0 <= i < |RequiredKeys|
    && RequiredKeys[i] !in data
    && forall j | 0 <= j < i :: RequiredKeys[j] in data
  }

  /**
   * The pops of `prepare` and the `configs` dictionary built from them: a
   * `KeyError` for the first required key that is missing, or what is left
   * of `data` together with `configs`.
   */
  method TakeOptions(data: map<string, Value>, s: Settings, sign: Value -> string)
    returns (r: Result<(map<string, Value>, map<string, Value>), BillingError>)
    ensures r.Ok? <==> RequiredPresent(data)
    ensures r.Err? ==> exists i :: FirstMissing(data, i) && r.error == MissingKey(RequiredKeys[i])
    ensures r.Ok? ==> r.value.0 == data - Popped(s) && r.value.1 == Configs(data, s, sign)
  {
    var rest := data;
    if "application_size" !in rest {
      assert FirstMissing(data, 0);
      return Err(MissingKey("application_size"));
    }
    var size := rest["application_size"];
    rest := rest - {"application_size"};
    if "redirect_url_onsuccess" !in rest {
      assert FirstMissing(data, 1);
      return Err(MissingKey("redirect_url_onsuccess"));
    }
    var onSuccess := rest["redirect_url_onsuccess"];
    rest := rest - {"redirect_url_onsuccess"};
    if "redirect_url_onerror" !in rest {
      assert FirstMissing(data, 2);
      return Err(MissingKey("redirect_url_onerror"));
    }
    var onError := rest["redirect_url_onerror"];
    rest := rest - {"redirect_url_onerror"};
    if "externalTransactionId" !in rest {
      assert FirstMissing(data, 3);
      return Err(MissingKey("externalTransactionId"));
    }
    var configs := map[
      "APPLICATION_CATEGORY_ID" := Text("18"),
      "APPLICATION_SIZE_KB" := size,
      "BILLING_CONFIGURATION_TIME_OUT" := Number(s.transactionExpiry + 60),
      "REDIRECT_URL_ONSUCCESS" := onSuccess,
      "REDIRECT_URL_ONERROR" := onError,
      "REQUEST_SIGNATURE" := Text(sign(rest["externalTransactionId"]))
    ];
    if "user_uuid" !in rest {
      assert FirstMissing(data, 4);
      return Err(MissingKey("user_uuid"));
    }
    var userUuid := rest["user_uuid"];
    rest := rest - {"user_uuid"};
    if s.sendUserIdToBango {
      configs := configs["MOZ_USER_ID" := userUuid];
    }
    if s.bangoIconUrls {
      var iconUrl := if "icon_url" in rest then rest["icon_url"] else Null;
      rest := rest - {"icon_url"};
      if Truthy(iconUrl) {
        configs := configs["APPLICATION_LOGO_URL" := iconUrl];
      }
    }
    assert RequiredPresent(data);
    r := Ok((rest, configs));
  }

  /** The three keys `prepare` sets before its pops change nothing the pops read. */
  lemma AddedKeysIrrelevant(data: map<string, Value>, bango: Value, prices: Value, types: Value,
                            s: Settings, sign: Value -> string)
    ensures var out := data["bango" := bango]["priceList" := prices]["typeFilter" := types];
      && (RequiredPresent(out) <==> RequiredPresent(data))
      && (forall i :: FirstMissing(out, i) <==> FirstMissing(data, i))
      && (RequiredPresent(data) ==> Configs(out, s, sign) == Configs(data, s, sign))
  {
    var out := data["bango" := bango]["priceList" := prices]["typeFilter" := types];
    assert forall j | 0 <= j < |RequiredKeys| :: RequiredKeys[j] in out <==> RequiredKeys[j] in data;
  }

  /** The map `prepare` builds: the pops and the four assignments, in the order `prepare` makes them. */
  function Rewritten(data: map<string, Value>, bango: Value, prices: Value, types: Value, options: Value,
                     s: Settings): map<string, Value>
  {
    (data["bango" := bango]["priceList" := prices]["typeFilter" := types] - Popped(s))
      ["configurationOptions" := options]
  }

  lemma RewrittenKeys(data: map<string, Value>, bango: Value, prices: Value, types: Value, options: Value,
                      s: Settings)
    ensures Rewritten(data, bango, prices, types, options, s).Keys == (data.Keys - Popped(s)) + Added
  {
  }

  lemma RewrittenValues(data: map<string, Value>, bango: Value, prices: Value, types: Value, options: Value,
                        s: Settings)
    ensures var out := Rewritten(data, bango, prices, types, options, s);
      && "bango" in out && out["bango"] == bango
      && "priceList" in out && out["priceList"] == prices
      && "typeFilter" in out && out["typeFilter"] == types
      && "configurationOptions" in out && out["configurationOptions"] == options
      && forall k | k in data && k !in Popped(s) && k !in Added :: k in out && out[k] == data[k]
  {
  }

  /** The map `prepare` returns satisfies `IsPrepared`. */
  lemma PreparedMap(data: map<string, Value>, bango: Value, items: seq<PriceItem>, s: Settings,
                    c: Constants, sign: Value -> string, opts: seq<ConfigOption>)
    requires RequiredPresent(data)
    requires EmitsEach(opts, Configs(data, s, sign))
    ensures IsPrepared(Rewritten(data, bango, PriceList(DedupPrices(items)), TypeFilter(ChooseTypeFilter(items, c)),
                                 ConfigurationOptions(opts), s),
                       data, bango, items, s, c, sign)
  {
    RewrittenKeys(data, bango, PriceList(DedupPrices(items)), TypeFilter(ChooseTypeFilter(items, c)),
                  ConfigurationOptions(opts), s);
    RewrittenValues(data, bango, PriceList(DedupPrices(items)), TypeFilter(ChooseTypeFilter(items, c)),
                    ConfigurationOptions(opts), s);
  }

  /**
   * `prepare`: a `KeyError` for the first required key that is missing, or
   * the rewritten `bango_data`.
   */
  method Prepare(data: map<string, Value>, bango: Value, items: seq<PriceItem>,
                 s: Settings, c: Constants, sign: Value -> string)
    returns (r: Result<map<string, Value>, BillingError>)
    ensures r.Ok? <==> RequiredPresent(data)
    ensures r.Err? ==> exists i :: FirstMissing(data, i) && r.error == MissingKey(RequiredKeys[i])
    ensures r.Ok? ==> IsPrepared(r.value, data, bango, items, s, c, sign)
  {
    var prices, methods := BuildPriceList(items);
    var filters := if methods == {c.operatorMethod} then c.microPaymentTypes else c.paymentTypes;
    var types := [];
    for f := 0 to |filters|
      invariant types == filters[..f]
    {
      types := types + [filters[f]];
    }
    assert filters[..|filters|] == filters;
    var out := data["bango" := bango]["priceList" := PriceList(prices)]["typeFilter" := TypeFilter(types)];

    AddedKeysIrrelevant(data, bango, PriceList(prices), TypeFilter(types), s, sign);
    var taken := TakeOptions(out, s, sign);
    if taken.Err? {
      return Err(taken.error);
    }
    var opts := EmitOptions(taken.value.1);
    PreparedMap(data, bango, items, s, c, sign, opts);
    r := Ok(taken.value.0["configurationOptions" := ConfigurationOptions(opts)]);
    assert r.value == Rewritten(data, bango, PriceList(prices), TypeFilter(types), ConfigurationOptions(opts), s);
  }

  // ---------------------------------------------------------------------
  // The billing() view.
  // ---------------------------------------------------------------------

  /** What the form and serializer yield: `form.bango_data`, the cleaned prices and the Bango number. */
  datatype Processed = Processed(bangoData: map<string, Value>, prices: seq<PriceItem>, bangoId: Value)

  /** The answer of `CreateBillingConfiguration`. */
  datatype VendorResponse = VendorResponse(responseCode: string, responseMessage: string, billingConfigurationId: string)

  /** The view's result: a JSON body, the error response of a failed validation, or an exception. */
  datatype BillingOutcome =
    | Respond(body: map<string, string>)
    | ErrorResponse(response: string)
    | Raised(error: BillingError)

  /** The JSON body returned on success: the vendor's three answer fields, nothing else. */
  function ResponseData(resp: VendorResponse): (body: map<string, string>)
    ensures body.Keys == {"responseCode", "responseMessage", "billingConfigurationId"}
    ensures body["responseCode"] == resp.responseCode
    ensures body["responseMessage"] == resp.responseMessage
    ensures body["billingConfigurationId"] == resp.billingConfigurationId
  {
    map[
      "responseCode" := resp.responseCode,
      "responseMessage" := resp.responseMessage,
      "billingConfigurationId" := resp.billingConfigurationId
    ]
  }

  /**
   * The view: validation, `prepare`, the vendor call and the response.
   * `sent` is the payload handed to the vendor, if the call was made.
   */
  method Billing(process: Result<Processed, string>, client: map<string, Value> -> Result<VendorResponse, string>,
                 s: Settings, c: Constants, sign: Value -> string)
    returns (outcome: BillingOutcome, sent: Option<map<string, Value>>)
    ensures process.Err? ==> outcome == ErrorResponse(process.error) && sent == None
    ensures process.Ok? && "externalTransactionId" !in process.value.bangoData ==>
      outcome == Raised(MissingKey("externalTransactionId")) && sent == None
    ensures sent.Some? <==> process.Ok? && RequiredPresent(process.value.bangoData)
    ensures process.Ok? && !RequiredPresent(process.value.bangoData) ==>
      outcome.Raised? && outcome.error.MissingKey? && outcome.error.key !in process.value.bangoData
    ensures sent.Some? ==>
      && IsPrepared(sent.value, process.value.bangoData, process.value.bangoId, process.value.prices, s, c, sign)
      && outcome == match client(sent.value)
                    case Ok(resp) => Respond(ResponseData(resp))
                    case Err(e) => Raised(BangoError(e))
  {
    if process.Err? {
      return ErrorResponse(process.error), None;
    }
    var form := process.value;
    if "externalTransactionId" !in form.bangoData {
      assert RequiredKeys[3] !in form.bangoData;
      return Raised(MissingKey("externalTransactionId")), None;
    }
    var data := Prepare(form.bangoData, form.bangoId, form.prices, s, c, sign);
    if data.Err? {
      return Raised(data.error), None;
    }
    sent := Some(data.value);
    var resp := client(data.value);
    if resp.Err? {
      return Raised(BangoError(resp.error)), sent;
    }
    outcome := Respond(ResponseData(resp.value));
  }
}
