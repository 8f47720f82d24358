/** Hitbtc::Client: request assembly for the exchange's public and trading endpoints. */
module Hitbtc {
  import opened Outcomes
  import opened RubyText
  import opened RubyHash
  import opened Mash

  newtype byte = x: int | 0 <= x < 256

  const DefaultVersion: string := "1"
  const DefaultBaseUri: string := "api.hitbtc.com"
  const NonceWidth: nat := 16
  const SymbolLength: nat := 6
  const SymbolMessage: string :=
    "You didn't enter a correct symbol, check symbols method to see list and enter symbol as a string"
  const ByMessage: string := "3rd parameter by, should be 'trade_id' or 'ts'"

  /** The library calls the client composes but whose internals are not modelled. */
  datatype Primitives = Primitives(
    encodeQuery: Pairs -> string,                     // Addressable::URI#query_values= then #query
    decode64: string -> seq<byte>,                    // Base64.decode64
    hmacSha512: (seq<byte>, string) -> seq<byte>,     // OpenSSL::HMAC.digest('sha512', key, message)
    strictEncode64: seq<byte> -> string)              // Base64.strict_encode64

  /** The HTTP call the client makes, as handed to HTTParty. */
  datatype Request =
    | PublicGet(url: string, query: Pairs)            // self.class.get(url, query: opts)
    | PrivateGet(url: string, options: Pairs)         // self.class.get(url, opts)
    | PrivatePost(url: string, body: string)          // self.class.post(url, { body: signed_data })

  /** Sends a request and gives back the parsed JSON object of the response. */
  type Transport = Request -> map<string, Value>

  /** nonce: the epoch seconds in decimal, padded on the right with '0' to 16 characters. */
  function Nonce(now: nat): (r: string)
    ensures Decimal(now) <= r
    ensures |r| == if |Decimal(now)| < NonceWidth then NonceWidth else |Decimal(now)|
    ensures forall i :: |Decimal(now)| <= i < |r| ==> r[i] == '0'
    ensures IsDigits(r)
  {
    LJust(Decimal(now), NonceWidth, '0')
  }

  /** check_symbol: a six-character string, upper-cased; anything else raises. A non-string
      whose `length` is 6 still raises, on the class test; a value without `length` raises
      NoMethodError before any test. */
  function CheckSymbol(symbol: Value): (r: Outcome<string>)
    ensures r.Returned? <==> symbol.Str? && |symbol.s| == SymbolLength
    ensures r.Returned? ==> |r.value| == SymbolLength && r.value == Upcase(symbol.s)
    ensures (symbol.Str? || symbol.Arr? || symbol.Obj?) && r.Raised? ==> r.error == RuntimeError(SymbolMessage)
  {
    match symbol
    case Str(s) => if |s| != SymbolLength then Raised(RuntimeError(SymbolMessage)) else Returned(Upcase(s))
    case Arr(_) => Raised(RuntimeError(SymbolMessage))
    case Obj(_) => Raised(RuntimeError(SymbolMessage))
    case _ => Raised(NoMethodError("length"))
  }

  /** The value `h[k] ||= d` evaluates to: the entry when it is truthy, else `d`. */
  function OptionOr(ps: Pairs, k: Key, d: string): (r: string)
    requires Truthy(Get(ps, k)) ==> Get(ps, k).Str?
    ensures Truthy(Get(ps, k)) ==> Str(r) == Get(ps, k)
    ensures !Truthy(Get(ps, k)) ==> r == d
  {
    if Truthy(Get(ps, k)) then Get(ps, k).s else d
  }

  /** The hash after `h[k] ||= d`: unchanged when the entry is truthy, else `d` stored. */
  function Defaulted(ps: Pairs, k: Key, d: string): Pairs
  {
    if Truthy(Get(ps, k)) then ps else Stored(ps, k, Str(d))
  }

  /** The caller may leave an option out or pass nil/false; otherwise it must be a string. */
  predicate StringOption(ps: Pairs, k: Key)
  {
    Truthy(Get(ps, k)) ==> Get(ps, k).Str?
  }

  /** The selector `symbols` accepts: an array of symbol names (the default `{}` behaves as
      the empty array) or a single string. */
  datatype Selector = Names(names: seq<string>) | Text(text: string)

  /** `h.symbol` on an entry of the symbols list: a Mash answers with its "symbol" entry or
      nil; any other value has no such method. */
  function SymbolOf(entry: Value): (r: Outcome<Value>)
    ensures r.Returned? <==> entry.Obj?
    ensures r.Returned? ==> r.value == if "symbol" in entry.fields then entry.fields["symbol"] else Null
  {
    if entry.Obj? then Returned(Fetch(entry.fields, "symbol")) else Raised(NoMethodError("symbol"))
  }

  /** `opts.include?(sym)`: membership for an array, substring search for a string (which
      refuses a non-string argument). */
  function Includes(opts: Selector, sym: Value): (r: Outcome<bool>)
    ensures opts.Names? ==> r == Returned(sym.Str? && sym.s in opts.names)
    ensures opts.Text? ==> (r.Returned? <==> sym.Str?)
    ensures opts.Text? && sym.Str? ==> r == Returned(IsSubstring(sym.s, opts.text))
  {
    match opts
    case Names(names) => Returned(sym.Str? && sym.s in names)
    case Text(text) =>
      if sym.Str? then Returned(IsSubstring(sym.s, text)) else Raised(TypeError("no implicit conversion into String"))
  }

  /** Whether the select block keeps `entry`, or the exception it raises. */
  function Keeps(opts: Selector, entry: Value): Outcome<bool>
  {
    match SymbolOf(entry)
    case Raised(e) => Raised(e)
    case Returned(sym) => Includes(opts, sym)
  }

  /** `items.select { |h| opts.include?(h.symbol) }`, raising at the first entry whose test raises. */
  function Select(items: seq<Value>, opts: Selector): (r: Outcome<seq<Value>>)
    ensures r.Returned? <==> forall i :: 0 <= i < |items| ==> Keeps(opts, items[i]).Returned?
    ensures r.Returned? ==> forall e :: e in r.value ==> e in items && Keeps(opts, e) == Returned(true)
    ensures r.Returned? ==> forall i :: 0 <= i < |items| && Keeps(opts, items[i]) == Returned(true) ==> items[i] in r.value
    decreases |items|
  {
    if items == [] then Returned([])
    else
      match Keeps(opts, items[0])
      case Raised(e) => Raised(e)
      case Returned(keep) =>
        match Select(items[1..], opts)
        case Raised(e) => Raised(e)
        case Returned(rest) =>
          assert forall i :: 1 <= i < |items| ==> items[i] == items[1..][i - 1];
          Returned(if keep then [items[0]] + rest else rest)
  }

  /** Array#first: the first element, or nil for an empty array. */
  function First(items: seq<Value>): Value
  {
    if items == [] then Null else items[0]
  }

  /** The selection `symbols` makes from the response to `get_public 'symbols'`. */
  function SelectSymbols(mash: map<string, Value>, opts: Selector): (r: Outcome<Value>)
    ensures "symbols" !in mash || opts == Names([]) ==> r == Returned(Try(mash, SymKey("symbols")))
  {
    var m := Try(mash, SymKey("symbols"));
    var found := m != Obj(mash);
    var single := (opts.Names? && |opts.names| == 1) || opts.Text?;
    var nonEmpty := opts.Text? || |opts.names| != 0;
    if (single || nonEmpty) && found then
      if !m.Arr? then Raised(NoMethodError("select"))
      else
        match Select(m.items, opts)
        case Raised(e) => Raised(e)
        case Returned(kept) => Returned(if single then First(kept) else Arr(kept))
    else Returned(m)
  }

  /** A client bound to one account and one API host. Only `initialize` assigns the fields. */
  class Client {
    const apiKey: string
    const apiSecret: string
    const apiVersion: string
    const baseUri: string

    /** initialize with explicit credentials; missing or nil/false `:version` and
        `:base_uri` options take their defaults, which are written back into `options`. */
    constructor (apiKey: string, apiSecret: string, options: Hash)
      requires options.Valid()
      requires StringOption(options.pairs, SymKey("version"))
      requires StringOption(options.pairs, SymKey("base_uri"))
      modifies options
      ensures options.Valid()
      ensures this.apiKey == apiKey && this.apiSecret == apiSecret
      ensures apiVersion == OptionOr(old(options.pairs), SymKey("version"), DefaultVersion)
      ensures baseUri == OptionOr(old(options.pairs), SymKey("base_uri"), DefaultBaseUri)
      ensures options.pairs ==
        Defaulted(Defaulted(old(options.pairs), SymKey("version"), DefaultVersion), SymKey("base_uri"), DefaultBaseUri)
    {
      this.apiKey := apiKey;
      this.apiSecret := apiSecret;
      var version := Get(options.pairs, SymKey("version"));
      if !Truthy(version) {
        options.Store(SymKey("version"), Str(DefaultVersion));
        this.apiVersion := DefaultVersion;
      } else {
        this.apiVersion := version.s;
      }
      StoredKeepsOthers(old(options.pairs), SymKey("version"), Str(DefaultVersion), SymKey("base_uri"));
      var host := Get(options.pairs, SymKey("base_uri"));
      if !Truthy(host) {
        options.Store(SymKey("base_uri"), Str(DefaultBaseUri));
        this.baseUri := DefaultBaseUri;
      } else {
        this.baseUri := host.s;
      }
    }

    /** The fixed start of every trading path. */
    function TradingPrefix(): string
    {
      "/api/" + apiVersion + "/trading/"
    }

    /** The trading endpoint a path names, when it is a trading path of this client. */
    function TradingEndpointOf(path: string): Option<string>
    {
      if TradingPrefix() <= path then Some(path[|TradingPrefix()|..]) else None
    }

    /** url_path: the trading path of an endpoint. */
    function UrlPath(endpoint: string): (r: string)
      ensures TradingEndpointOf(r) == Some(endpoint)
    {
      TradingPrefix() + endpoint
    }

    /** The fixed start of every public URL. */
    function PublicPrefix(): string
    {
      "http://" + baseUri + "/api/" + apiVersion + "/public/"
    }

    /** The public endpoint a URL names, when it is a public URL of this client. */
    function PublicEndpointOf(url: string): Option<string>
    {
      if PublicPrefix() <= url then Some(url[|PublicPrefix()|..]) else None
    }

    /** The URL get_public requests for an endpoint. */
    function PublicUrl(endpoint: string): (r: string)
      ensures PublicEndpointOf(r) == Some(endpoint)
    {
      PublicPrefix() + endpoint
    }

    /** The URL post_private and get_private request: https, the host, the trading path. */
    function PrivateUrl(endpoint: string): (r: string)
      ensures "https://" + baseUri <= r && r[|"https://" + baseUri|..] == UrlPath(endpoint)
    {
      "https://" + baseUri + UrlPath(endpoint)
    }

    /** get_public: the response to a GET of the public URL with `opts` as the query. */
    function GetPublic(transport: Transport, endpoint: string, opts: Pairs): (r: map<string, Value>)
      ensures r == transport(PublicGet("http://" + baseUri + "/api/" + apiVersion + "/public/" + endpoint, opts))
    {
      transport(PublicGet(PublicUrl(endpoint), opts))
    }

    /** generate_message: the trading path of `path`, then the data. */
    function GenerateMessage(path: string, data: string): (r: string)
      ensures TradingPrefix() <= r && r[|TradingPrefix()|..] == path + data
    {
      UrlPath(path) + data
    }

    /** generate_signature with generate_hmac: HMAC-SHA512 keyed by the decoded secret over
        the message, Base64-encoded, then lower-cased. */
    function GenerateSignature(p: Primitives, path: string, data: string): (r: string)
      ensures |r| == |p.strictEncode64(p.hmacSha512(p.decode64(apiSecret), GenerateMessage(path, data)))|
      ensures forall i :: 0 <= i < |r| ==> !IsUpper(r[i])
      ensures Upcase(r) == Upcase(p.strictEncode64(p.hmacSha512(p.decode64(apiSecret), TradingPrefix() + path + data)))
    {
      UpcaseOfDowncase(p.strictEncode64(p.hmacSha512(p.decode64(apiSecret), GenerateMessage(path, data))));
      var key := p.decode64(apiSecret);
      var message := GenerateMessage(path, data);
      Downcase(p.strictEncode64(p.hmacSha512(key, message)))
    }

    /** The caller's parameters after `nonce` and `apikey` are stored: what gets signed. */
    function UnsignedParams(ps: Pairs, now: nat): Pairs
    {
      Stored(Stored(ps, StrKey("nonce"), Str(Nonce(now))), StrKey("apikey"), Str(apiKey))
    }

    /** The signature the trading call computes. The source hands `url_path(method)` to
        generate_signature, which applies url_path again, so the message is signed with the
        trading prefix twice. */
    function RequestSignature(p: Primitives, endpoint: string, ps: Pairs, now: nat): string
    {
      GenerateSignature(p, UrlPath(endpoint), p.encodeQuery(UnsignedParams(ps, now)))
    }

    /** The parameters after the whole assembly: the signature stored last. */
    function SignedParams(p: Primitives, endpoint: string, ps: Pairs, now: nat): Pairs
    {
      Stored(UnsignedParams(ps, now), StrKey("signature"), Str(RequestSignature(p, endpoint, ps, now)))
    }

    /** The shared first four statements of post_private and get_private: store the nonce
        and the key, encode, sign that encoding, store the signature. */
    method Sign(p: Primitives, endpoint: string, opts: Hash, now: nat) returns (postData: string)
      requires opts.Valid()
      modifies opts
      ensures opts.Valid()
      ensures postData == p.encodeQuery(UnsignedParams(old(opts.pairs), now))
      ensures opts.pairs == SignedParams(p, endpoint, old(opts.pairs), now)
    {
      opts.Store(StrKey("nonce"), Str(Nonce(now)));
      opts.Store(StrKey("apikey"), Str(apiKey));
      postData := p.encodeQuery(opts.pairs);
      opts.Store(StrKey("signature"), Str(GenerateSignature(p, UrlPath(endpoint), postData)));
    }

    /** post_private: sign `opts` in place, re-encode it as the body, POST it, and unwrap the
        response envelope. */
    method PostPrivate(p: Primitives, transport: Transport, endpoint: string, opts: Hash, now: nat)
      returns (r: Outcome<Value>)
      requires opts.Valid()
      modifies opts
      ensures opts.Valid()
      ensures opts.pairs == SignedParams(p, endpoint, old(opts.pairs), now)
      ensures r == PostEnvelope(transport(PrivatePost(PrivateUrl(endpoint), p.encodeQuery(opts.pairs))))
    {
      var postData := Sign(p, endpoint, opts, now);
      var signedData := p.encodeQuery(opts.pairs);
      var url := PrivateUrl(endpoint);
      var response := transport(PrivatePost(url, signedData));
      r := PostEnvelope(response);
    }

    /** get_private: sign `opts` in place, GET the trading URL with the signed hash as the
        request options, and answer the response's "result" entry (nil when absent). */
    method GetPrivate(p: Primitives, transport: Transport, endpoint: string, opts: Hash, now: nat)
      returns (r: Value)
      requires opts.Valid()
      modifies opts
      ensures opts.Valid()
      ensures opts.pairs == SignedParams(p, endpoint, old(opts.pairs), now)
      ensures r == Fetch(transport(PrivateGet(PrivateUrl(endpoint), opts.pairs)), "result")
    {
      var postData := Sign(p, endpoint, opts, now);
      var url := PrivateUrl(endpoint);
      var mash := transport(PrivateGet(url, opts.pairs));
      r := Fetch(mash, "result");
    }

    /** ticker: the public ticker of a checked symbol. */
    function Ticker(transport: Transport, symbol: Value): (r: Outcome<map<string, Value>>)
      ensures r.Returned? <==> CheckSymbol(symbol).Returned?
      ensures r.Returned? ==> r.value == transport(PublicGet(PublicUrl(CheckSymbol(symbol).value + "/ticker"), []))
    {
      match CheckSymbol(symbol)
      case Raised(e) => Raised(e)
      case Returned(checked) => Returned(GetPublic(transport, checked + "/ticker", []))
    }

    /** order_book: the public order book of a checked symbol, `opts` passed as the query. */
    function OrderBook(transport: Transport, symbol: Value, opts: Pairs): (r: Outcome<map<string, Value>>)
      ensures r.Returned? <==> CheckSymbol(symbol).Returned?
      ensures r.Returned? ==> r.value == transport(PublicGet(PublicUrl(CheckSymbol(symbol).value + "/orderbook"), opts))
    {
      match CheckSymbol(symbol)
      case Raised(e) => Raised(e)
      case Returned(checked) => Returned(GetPublic(transport, checked + "/orderbook", opts))
    }

    /** The query `trades` sends: the caller's hash with the four required arguments stored. */
    static function TradesParams(ps: Pairs, from: Value, filterBy: Value, startIndex: Value, maxResults: Value): Pairs
    {
      Stored(Stored(Stored(Stored(ps, SymKey("from"), from), SymKey("start_index"), startIndex),
        SymKey("max_results"), maxResults), SymKey("by"), filterBy)
    }

    /** trades: check the symbol, then `by`, and only then write the arguments into `opts`,
        fetch the public trades and answer the response's `trades` entry (Mash#try). */
    method Trades(transport: Transport, symbol: Value, from: Value, filterBy: Value, startIndex: Value,
                  maxResults: Value, opts: Hash)
      returns (r: Outcome<Value>)
      requires opts.Valid()
      modifies opts
      ensures opts.Valid()
      ensures CheckSymbol(symbol).Raised? ==> r == Raised(CheckSymbol(symbol).error) && opts.pairs == old(opts.pairs)
      ensures CheckSymbol(symbol).Returned? && filterBy != Str("trade_id") && filterBy != Str("ts") ==>
        r == Raised(RuntimeError(ByMessage)) && opts.pairs == old(opts.pairs)
      ensures CheckSymbol(symbol).Returned? && (filterBy == Str("trade_id") || filterBy == Str("ts")) ==>
        && opts.pairs == TradesParams(old(opts.pairs), from, filterBy, startIndex, maxResults)
        && r == Returned(Try(GetPublic(transport, CheckSymbol(symbol).value + "/trades", opts.pairs), SymKey("trades")))
    {
      var checked := CheckSymbol(symbol);
      if checked.Raised? {
        return Raised(checked.error);
      }
      if filterBy != Str("trade_id") && filterBy != Str("ts") {
        return Raised(RuntimeError(ByMessage));
      }
      opts.Store(SymKey("from"), from);
      opts.Store(SymKey("start_index"), startIndex);
      opts.Store(SymKey("max_results"), maxResults);
      opts.Store(SymKey("by"), filterBy);
      var mash := GetPublic(transport, checked.value + "/trades", opts.pairs);
      r := Returned(Try(mash, SymKey("trades")));
    }

    /** symbols: fetch the public symbol list and select from it. */
    function Symbols(transport: Transport, opts: Selector): (r: Outcome<Value>)
      ensures r == SelectSymbols(transport(PublicGet(PublicUrl("symbols"), [])), opts)
    {
      SelectSymbols(GetPublic(transport, "symbols", []), opts)
    }
  }

  /** The value post_private answers for a parsed response `r`: `r['result']` as a Mash when
      `r['error']` is empty, `r['error']` itself otherwise. */
  function PostEnvelope(r: map<string, Value>): (out: Outcome<Value>)
    ensures IsEmpty(Fetch(r, "error")) == Some(false) ==> out == Returned(Fetch(r, "error"))
    ensures IsEmpty(Fetch(r, "error")) == Some(true) ==> out == MashNew(Fetch(r, "result"))
    ensures IsEmpty(Fetch(r, "error")).None? ==> out == Raised(NoMethodError("empty?"))
  {
    var error := Fetch(r, "error");
    match IsEmpty(error)
    case None => Raised(NoMethodError("empty?"))
    case Some(empty) => if empty then MashNew(Fetch(r, "result")) else Returned(error)
  }
}
