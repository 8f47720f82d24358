/** Properties of the request assembly that relate several operations of the client. */
module HitbtcProperties {
  import opened Outcomes
  import opened RubyText
  import opened RubyHash
  import opened Mash
  import opened Hitbtc

  // ---------------------------------------------------------------------------------------
  // Nonce

  /** While the seconds fit in 16 digits, the nonce denotes the seconds scaled up by the
      padding: now * 10^(16 - digits). */
  lemma NonceValue(now: nat)
    requires |Decimal(now)| <= NonceWidth
    ensures DecimalValue(Nonce(now)) == now * Pow10(NonceWidth - |Decimal(now)|)
  {
    var d := Decimal(now);
    assert Nonce(now) == d + Repeat('0', NonceWidth - |d|);
    ZeroPaddedValue(d, NonceWidth - |d|);
    DecimalRoundTrip(now);
  }

  /** Nonces of instants whose seconds have the same number of digits are ordered as the
      instants are. */
  lemma NonceMonotoneWithinWidth(a: nat, b: nat)
    requires a <= b
    requires |Decimal(a)| == |Decimal(b)| <= NonceWidth
    ensures DecimalValue(Nonce(a)) <= DecimalValue(Nonce(b))
  {
    NonceValue(a);
    NonceValue(b);
    ScaleMonotone(a, b, Pow10(NonceWidth - |Decimal(a)|));
  }

  lemma ScaleMonotone(a: nat, b: nat, scale: nat)
    requires a <= b
    ensures a * scale <= b * scale
  {
    assert b * scale == a * scale + (b - a) * scale;
  }

  /** Within one digit width, distinct instants give distinct nonces. */
  lemma NonceInjectiveWithinWidth(a: nat, b: nat)
    requires |Decimal(a)| == |Decimal(b)|
    requires Nonce(a) == Nonce(b)
    ensures a == b
  {
    var w := |Decimal(a)|;
    assert Decimal(a) == Nonce(a)[..w] == Nonce(b)[..w] == Decimal(b);
    DecimalInjective(a, b);
  }

  /** Padding on the right cannot tell `n` from `10 * n`: both give the same nonce, so across
      a change of digit width the nonce neither separates nor orders instants. */
  lemma NonceCollidesAcrossWidths(n: nat)
    requires 1 <= n
    requires |Decimal(10 * n)| <= NonceWidth
    ensures Nonce(n) == Nonce(10 * n)
  {
  }

  // ---------------------------------------------------------------------------------------
  // Paths and URLs

  /** A client initialized without options uses API version 1 on api.hitbtc.com, and writes
      both defaults into the options hash it was given. */
  method DefaultUrls(apiKey: string, apiSecret: string, endpoint: string)
    returns (publicUrl: string, tradingUrl: string, options: Pairs)
    ensures publicUrl == "http://" + DefaultBaseUri + "/api/" + DefaultVersion + "/public/" + endpoint
    ensures tradingUrl == "https://" + DefaultBaseUri + ("/api/" + DefaultVersion + "/trading/" + endpoint)
    ensures options == [(SymKey("version"), Str(DefaultVersion)), (SymKey("base_uri"), Str(DefaultBaseUri))]
  {
    var given := new Hash([]);
    var c := new Client(apiKey, apiSecret, given);
    var v := [(SymKey("version"), Str(DefaultVersion))];
    assert Get([], SymKey("version")) == Null;
    assert Defaulted([], SymKey("version"), DefaultVersion) == v;
    assert Get(v, SymKey("base_uri")) == Null;
    StoredAppendsNewKey(v, SymKey("base_uri"), Str(DefaultBaseUri));
    assert given.pairs == v + [(SymKey("base_uri"), Str(DefaultBaseUri))];
    assert c.apiVersion == DefaultVersion && c.baseUri == DefaultBaseUri;
    publicUrl := c.PublicUrl(endpoint);
    tradingUrl := c.PrivateUrl(endpoint);
    options := given.pairs;
  }

  /** A public URL is never a trading URL: one is http, the other https. */
  lemma PublicAndPrivateUrlsDiffer(c: Client, a: string, b: string)
    ensures c.PublicUrl(a) != c.PrivateUrl(b)
  {
    assert c.PublicUrl(a)[4] == ':';
    assert c.PrivateUrl(b)[4] == 's';
  }

  /** The message that is signed carries the trading prefix twice, so it is not the trading
      path of the endpoint followed by the data. */
  lemma SignedMessageRepeatsPrefix(c: Client, endpoint: string, data: string)
    ensures c.GenerateMessage(c.UrlPath(endpoint), data) == c.TradingPrefix() + c.TradingPrefix() + endpoint + data
    ensures c.GenerateMessage(c.UrlPath(endpoint), data) != c.UrlPath(endpoint) + data
  {
  }

  /** The signature a trading call stores is, up to ASCII case, the Base64 HMAC-SHA512 under
      the decoded secret of the trading prefix twice, the endpoint, and the encoding of the
      hash taken before the signature was stored; it holds no upper-case letter. */
  lemma RequestSignatureMessage(c: Client, p: Primitives, endpoint: string, ps: Pairs, now: nat)
    ensures forall i :: 0 <= i < |c.RequestSignature(p, endpoint, ps, now)| ==> !IsUpper(c.RequestSignature(p, endpoint, ps, now)[i])
    ensures Upcase(c.RequestSignature(p, endpoint, ps, now)) ==
      Upcase(p.strictEncode64(p.hmacSha512(p.decode64(c.apiSecret),
        c.TradingPrefix() + c.TradingPrefix() + endpoint + p.encodeQuery(c.UnsignedParams(ps, now)))))
  {
    var data := p.encodeQuery(c.UnsignedParams(ps, now));
    assert c.TradingPrefix() + c.UrlPath(endpoint) + data == c.TradingPrefix() + c.TradingPrefix() + endpoint + data;
  }

  // ---------------------------------------------------------------------------------------
  // Signed parameters

  /** After assembly the hash holds the nonce, the account's key and the signature computed
      over the encoding taken before the signature was stored; every other key is as the
      caller left it, and no key is duplicated. */
  lemma SignedParamsContents(c: Client, p: Primitives, endpoint: string, ps: Pairs, now: nat, k: Key)
    requires UniqueKeys(ps)
    ensures UniqueKeys(c.SignedParams(p, endpoint, ps, now))
    ensures Lookup(c.SignedParams(p, endpoint, ps, now), StrKey("nonce")) == Some(Str(Nonce(now)))
    ensures Lookup(c.SignedParams(p, endpoint, ps, now), StrKey("apikey")) == Some(Str(c.apiKey))
    ensures Lookup(c.SignedParams(p, endpoint, ps, now), StrKey("signature")) ==
      Some(Str(c.GenerateSignature(p, c.UrlPath(endpoint), p.encodeQuery(c.UnsignedParams(ps, now)))))
    ensures Lookup(c.UnsignedParams(ps, now), StrKey("signature")) == Lookup(ps, StrKey("signature"))
    ensures k !in {StrKey("nonce"), StrKey("apikey"), StrKey("signature")} ==>
      Lookup(c.SignedParams(p, endpoint, ps, now), k) == Lookup(ps, k)
  {
    var n, a, s := StrKey("nonce"), StrKey("apikey"), StrKey("signature");
    var ps1 := Stored(ps, n, Str(Nonce(now)));
    var ps2 := Stored(ps1, a, Str(c.apiKey));
    var sig := Str(c.RequestSignature(p, endpoint, ps, now));
    StoredUnique(ps, n, Str(Nonce(now)));
    StoredUnique(ps1, a, Str(c.apiKey));
    StoredUnique(ps2, s, sig);
    StoredKeepsOthers(ps1, a, Str(c.apiKey), n);
    StoredKeepsOthers(ps2, s, sig, n);
    StoredKeepsOthers(ps2, s, sig, a);
    StoredKeepsOthers(ps, n, Str(Nonce(now)), s);
    StoredKeepsOthers(ps1, a, Str(c.apiKey), s);
    if k !in {n, a, s} {
      StoredKeepsOthers(ps, n, Str(Nonce(now)), k);
      StoredKeepsOthers(ps1, a, Str(c.apiKey), k);
      StoredKeepsOthers(ps2, s, sig, k);
    }
  }

  /** When the caller passed none of the three keys, the encoded hash is the caller's
      entries followed by nonce and apikey, and the transmitted one adds the signature last. */
  lemma SignedParamsOrder(c: Client, p: Primitives, endpoint: string, ps: Pairs, now: nat)
    requires Lookup(ps, StrKey("nonce")).None?
    requires Lookup(ps, StrKey("apikey")).None?
    requires Lookup(ps, StrKey("signature")).None?
    ensures c.UnsignedParams(ps, now) == ps + [(StrKey("nonce"), Str(Nonce(now))), (StrKey("apikey"), Str(c.apiKey))]
    ensures c.SignedParams(p, endpoint, ps, now) == c.UnsignedParams(ps, now) +
      [(StrKey("signature"), Str(c.RequestSignature(p, endpoint, ps, now)))]
  {
    var n, a, s := StrKey("nonce"), StrKey("apikey"), StrKey("signature");
    var ps1 := Stored(ps, n, Str(Nonce(now)));
    var ps2 := Stored(ps1, a, Str(c.apiKey));
    StoredAppendsNewKey(ps, n, Str(Nonce(now)));
    StoredKeepsOthers(ps, n, Str(Nonce(now)), a);
    StoredAppendsNewKey(ps1, a, Str(c.apiKey));
    StoredKeepsOthers(ps, n, Str(Nonce(now)), s);
    StoredKeepsOthers(ps1, a, Str(c.apiKey), s);
    StoredAppendsNewKey(ps2, s, Str(c.RequestSignature(p, endpoint, ps, now)));
  }

  // ---------------------------------------------------------------------------------------
  // Symbols and trades

  /** A checked symbol passes the check again unchanged. */
  lemma CheckSymbolIdempotent(symbol: Value)
    requires CheckSymbol(symbol).Returned?
    ensures CheckSymbol(Str(CheckSymbol(symbol).value)) == CheckSymbol(symbol)
  {
    UpcaseIdempotent(symbol.s);
  }

  /** `trades` stores its four arguments under symbol keys, overwriting what the caller had
      there, and leaves every other key as it was. */
  lemma TradesParamsContents(ps: Pairs, from: Value, filterBy: Value, startIndex: Value, maxResults: Value, k: Key)
    requires UniqueKeys(ps)
    ensures UniqueKeys(Client.TradesParams(ps, from, filterBy, startIndex, maxResults))
    ensures Lookup(Client.TradesParams(ps, from, filterBy, startIndex, maxResults), SymKey("from")) == Some(from)
    ensures Lookup(Client.TradesParams(ps, from, filterBy, startIndex, maxResults), SymKey("start_index")) == Some(startIndex)
    ensures Lookup(Client.TradesParams(ps, from, filterBy, startIndex, maxResults), SymKey("max_results")) == Some(maxResults)
    ensures Lookup(Client.TradesParams(ps, from, filterBy, startIndex, maxResults), SymKey("by")) == Some(filterBy)
    ensures k !in {SymKey("from"), SymKey("start_index"), SymKey("max_results"), SymKey("by")} ==>
      Lookup(Client.TradesParams(ps, from, filterBy, startIndex, maxResults), k) == Lookup(ps, k)
  {
    var f, si, mr, b := SymKey("from"), SymKey("start_index"), SymKey("max_results"), SymKey("by");
    var ps1 := Stored(ps, f, from);
    var ps2 := Stored(ps1, si, startIndex);
    var ps3 := Stored(ps2, mr, maxResults);
    StoredUnique(ps, f, from);
    StoredUnique(ps1, si, startIndex);
    StoredUnique(ps2, mr, maxResults);
    StoredUnique(ps3, b, filterBy);
    StoredKeepsOthers(ps1, si, startIndex, f);
    StoredKeepsOthers(ps2, mr, maxResults, f);
    StoredKeepsOthers(ps3, b, filterBy, f);
    StoredKeepsOthers(ps2, mr, maxResults, si);
    StoredKeepsOthers(ps3, b, filterBy, si);
    StoredKeepsOthers(ps3, b, filterBy, mr);
    if k !in {f, si, mr, b} {
      StoredKeepsOthers(ps, f, from, k);
      StoredKeepsOthers(ps1, si, startIndex, k);
      StoredKeepsOthers(ps2, mr, maxResults, k);
      StoredKeepsOthers(ps3, b, filterBy, k);
    }
  }

  /** The first entry `select` keeps is the earliest entry the block accepts. */
  lemma {:induction false} SelectFirstIsEarliest(items: seq<Value>, opts: Selector)
    requires Select(items, opts).Returned?
    ensures Select(items, opts).value == [] ==> forall i :: 0 <= i < |items| ==> Keeps(opts, items[i]) == Returned(false)
    ensures Select(items, opts).value != [] ==>
      exists i :: 0 <= i < |items| && items[i] == Select(items, opts).value[0] && Keeps(opts, items[i]) == Returned(true)
        && forall j :: 0 <= j < i ==> Keeps(opts, items[j]) == Returned(false)
    decreases |items|
  {
    if items != [] {
      SelectFirstIsEarliest(items[1..], opts);
      var rest := Select(items[1..], opts).value;
      if Keeps(opts, items[0]) == Returned(false) {
        forall i | 1 <= i < |items| ensures items[i] == items[1..][i - 1] { }
        if rest != [] {
          var i :| 0 <= i < |items[1..]| && items[1..][i] == rest[0] && Keeps(opts, items[1..][i]) == Returned(true)
            && forall j :: 0 <= j < i ==> Keeps(opts, items[1..][j]) == Returned(false);
          assert items[i + 1] == rest[0];
          forall j | 0 <= j < i + 1 ensures Keeps(opts, items[j]) == Returned(false) {
            if j > 0 { assert items[j] == items[1..][j - 1]; }
          }
        }
      }
    }
  }

  /** `select` over two consecutive runs of entries keeps what it keeps from the first run,
      then what it keeps from the second: kept entries stay in order, each once. */
  lemma {:induction false} SelectAppend(a: seq<Value>, b: seq<Value>, opts: Selector)
    requires Select(a, opts).Returned? && Select(b, opts).Returned?
    ensures Select(a + b, opts) == Returned(Select(a, opts).value + Select(b, opts).value)
    decreases |a|
  {
    if a == [] {
      assert a + b == b;
      assert Select(a, opts).value == [];
      assert [] + Select(b, opts).value == Select(b, opts).value;
    } else {
      SelectStep(a, opts);
      SelectAppend(a[1..], b, opts);
      SelectAppendStep(a, b, opts);
    }
  }

  /** The inductive step of SelectAppend: prepending the first entry of `a` to both sides. */
  lemma SelectAppendStep(a: seq<Value>, b: seq<Value>, opts: Selector)
    requires a != [] && Select(a, opts).Returned? && Select(a[1..], opts).Returned? && Select(b, opts).Returned?
    requires Select(a[1..] + b, opts) == Returned(Select(a[1..], opts).value + Select(b, opts).value)
    ensures Select(a + b, opts) == Returned(Select(a, opts).value + Select(b, opts).value)
  {
    TailOfAppend(a, b);
    SelectStep(a, opts);
    SelectCons(a + b, opts);
    var head := if Keeps(opts, a[0]).value then [a[0]] else [];
    AppendAssociative(head, Select(a[1..], opts).value, Select(b, opts).value);
  }

  /** Dropping the first element of a concatenation with a non-empty left part. */
  lemma TailOfAppend(a: seq<Value>, b: seq<Value>)
    requires a != []
    ensures (a + b)[0] == a[0] && (a + b)[1..] == a[1..] + b
  {
  }

  lemma AppendAssociative(x: seq<Value>, y: seq<Value>, z: seq<Value>)
    ensures x + (y + z) == (x + y) + z
  {
  }

  /** `select` succeeds on a non-empty array when it succeeds on the first entry and on the rest. */
  lemma SelectCons(items: seq<Value>, opts: Selector)
    requires items != [] && Keeps(opts, items[0]).Returned? && Select(items[1..], opts).Returned?
    ensures Select(items, opts)
         == Returned((if Keeps(opts, items[0]).value then [items[0]] else []) + Select(items[1..], opts).value)
  {
    var rest := Select(items[1..], opts).value;
    assert [] + rest == rest;
  }

  /** One step of `select`: the verdict on the first entry, then the selection from the rest. */
  lemma SelectStep(items: seq<Value>, opts: Selector)
    requires items != [] && Select(items, opts).Returned?
    ensures Keeps(opts, items[0]).Returned? && Select(items[1..], opts).Returned?
    ensures Select(items, opts).value
         == (if Keeps(opts, items[0]).value then [items[0]] else []) + Select(items[1..], opts).value
  {
    var rest := Select(items[1..], opts).value;
    assert [] + rest == rest;
  }

  /** `select` over one entry keeps it exactly when the block accepts it. */
  lemma SelectSingle(e: Value, opts: Selector)
    requires Keeps(opts, e).Returned?
    ensures Select([e], opts) == Returned(if Keeps(opts, e).value then [e] else [])
  {
    assert [e][1..] == [];
    assert Select([e], opts).Returned?;
    assert Select([e], opts).value == (if Keeps(opts, e).value then [e] else []);
  }

  /** An entry is listed under one of the names: it is a Mash whose "symbol" is one of them. */
  predicate Listed(e: Value, names: seq<string>)
  {
    e.Obj? && Fetch(e.fields, "symbol").Str? && Fetch(e.fields, "symbol").s in names
  }

  /** The entries listed under the names, in their original order, each once. */
  function ListedEntries(items: seq<Value>, names: seq<string>): seq<Value>
  {
    if items == [] then [] else (if Listed(items[0], names) then [items[0]] else []) + ListedEntries(items[1..], names)
  }

  /** On Mash entries, `select` with an array of names is the in-order filter of listed entries. */
  lemma {:induction false} SelectByNames(items: seq<Value>, names: seq<string>)
    requires forall x :: x in items ==> x.Obj?
    ensures Select(items, Names(names)) == Returned(ListedEntries(items, names))
    decreases |items|
  {
    if items != [] {
      assert forall x :: x in items[1..] ==> x in items;
      SelectByNames(items[1..], names);
      assert items[0] in items;
      assert Keeps(Names(names), items[0]) == Returned(Listed(items[0], names));
      assert Select(items, Names(names)).Returned?;
      assert Select(items, Names(names)).value == ListedEntries(items, names);
    }
  }

  /** No `symbols` entry in the response: no filtering, the whole response comes back. */
  lemma SymbolsUnfilteredWhenAbsent(mash: map<string, Value>, opts: Selector)
    requires "symbols" !in mash
    ensures SelectSymbols(mash, opts) == Returned(Obj(mash))
  {
  }

  /** With an array of several names, `symbols` answers exactly the listed entries whose
      symbol is one of the names. */
  lemma SymbolsFilterByNames(mash: map<string, Value>, names: seq<string>, e: Value)
    requires |names| >= 2
    requires "symbols" in mash && mash["symbols"].Arr?
    requires forall x :: x in mash["symbols"].items ==> x.Obj?
    ensures SelectSymbols(mash, Names(names)) == Returned(Arr(ListedEntries(mash["symbols"].items, names)))
    ensures e in SelectSymbols(mash, Names(names)).value.items <==>
      e in mash["symbols"].items && Fetch(e.fields, "symbol").Str? && Fetch(e.fields, "symbol").s in names
  {
    SelectByNames(mash["symbols"].items, names);
  }

  /** The default empty selector with a `symbols` entry present: the list comes back unfiltered. */
  lemma SymbolsUnfilteredForEmptySelector(mash: map<string, Value>)
    requires "symbols" in mash
    ensures SelectSymbols(mash, Names([])) == Returned(mash["symbols"])
  {
  }

  /** With one name or a string, `symbols` answers the earliest entry the selector accepts,
      or nil when there is none. */
  lemma SymbolsSingleIsFirstMatch(mash: map<string, Value>, opts: Selector)
    requires (opts.Names? && |opts.names| == 1) || opts.Text?
    requires "symbols" in mash && mash["symbols"].Arr?
    requires SelectSymbols(mash, opts).Returned?
    ensures var items, r := mash["symbols"].items, SelectSymbols(mash, opts).value;
      || (r == Null && forall i :: 0 <= i < |items| ==> Keeps(opts, items[i]) == Returned(false))
      || exists i :: 0 <= i < |items| && items[i] == r && Keeps(opts, items[i]) == Returned(true)
           && forall j :: 0 <= j < i ==> Keeps(opts, items[j]) == Returned(false)
  {
    var items := mash["symbols"].items;
    assert Try(mash, SymKey("symbols")) == mash["symbols"];
    SelectFirstIsEarliest(items, opts);
  }
}
