# Hitbtc::Client request assembly, modelled in Dafny

This project models the deterministic core of `Hitbtc::Client`, a Ruby client for the HitBTC
exchange REST API (API version 1). The core is the part that assembles requests:

- the nonce, which is the epoch seconds in decimal, padded on the right with `'0'` to 16 characters;
- the public URL `http://{base_uri}/api/{version}/public/{method}`, the trading path
  `/api/{version}/trading/{method}` and the trading URL `https://{base_uri}{trading path}`;
- the defaults for version and host chosen by `initialize`: `"1"` and `"api.hitbtc.com"`;
- the in-place signing of a caller's parameter hash. `nonce` is stored, then `apikey`; the hash is
  encoded; that encoding is signed; `signature` is stored; for POST the hash is encoded again;
- the signature: HMAC-SHA512 keyed by the Base64-decoded secret, Base64-encoded, lower-cased;
- the POST response envelope: `result` when `error` is empty, `error` itself otherwise;
- `check_symbol`, and the argument handling of `ticker`, `order_book` and `trades`;
- the `Hashie::Mash#try` patch and the `symbols` selection built on it.

Modules, leaf first:

- `Outcomes` (outcomes.dfy) has `Option`, plus `Outcome` for a call that returns a value or raises.
- `RubyText` (ruby_text.dfy) has the Ruby string operations the client uses: `Integer#to_s`,
  `String#ljust`, `upcase`, `downcase` and `include?`.
- `RubyHash` (ruby_hash.dfy) has the values the client handles. A Ruby `Hash` is a list of entries
  in insertion order (`Pairs`). A store to an existing key keeps its position; a store to a new key
  appends it. The `Hash` class holds such a list, and the client updates it in place, exactly as the
  Ruby code mutates the caller's `opts`. Symbol keys (`:from`) and string keys (`'nonce'`) are
  distinct, as they are in Ruby.
- `Mash` (mash.dfy) has `try`, `[]`, `empty?` and `Mash.new` on parsed responses.
- `Hitbtc` (client.dfy) has the nonce, the validators, the `symbols` selection, the envelope, and the
  `Client` class. The class has the four fields `initialize` sets, as constants, plus the methods
  that sign and send.
- `HitbtcProperties` (properties.dfy) has lemmas that relate several operations.

The cryptographic and encoding libraries are fields of a `Primitives` value and are never
interpreted: `encodeQuery`, `decode64`, `hmacSha512` and `strictEncode64`. HTTP is a `Transport`
function from a request descriptor to the parsed response object. The clock is a parameter `now`,
the epoch seconds.

Points where the code behaves in ways a reader might not expect, all modelled as written:

- The nonce is padded on the right (`ljust`), not on the left. Its numeric value is therefore the
  seconds times `10^(16 - digits)`. It orders instants only among instants with the same number of
  digits: `n` and `10 * n` give the same nonce (`NonceCollidesAcrossWidths`).
- The signed message carries the trading prefix twice. `generate_signature` is given
  `url_path(method)`, and `generate_message` applies `url_path` again
  (`SignedMessageRepeatsPrefix`).
- `post_private` does not turn a non-empty `error` into a failure. It returns the `error` value as
  its ordinary result.
- `get_private` passes the signed hash to HTTParty as its options argument, not under `query:`.
  The request descriptor keeps that distinction (`PrivateGet(url, options)`).
- The secret is Base64-decoded on every signature, not once at construction.
- No method name is checked for characters that are invalid in a URL.

## Model

| member | source | states |
|---|---|---|
| `Hitbtc.Nonce` | lib/hitbtc/client.rb:153-155 | the nonce starts with the decimal digits of the seconds, is all digits, has length 16 (or the digit count when that is larger), and every character after the digits is '0' |
| `HitbtcProperties.NonceValue` | lib/hitbtc/client.rb:153-155 | while the seconds have at most 16 digits, the nonce denotes seconds × 10^(16 − digit count) |
| `HitbtcProperties.NonceMonotoneWithinWidth` | lib/hitbtc/client.rb:153-155 | for instants whose seconds have the same digit count, a later instant never gives a smaller nonce |
| `HitbtcProperties.NonceInjectiveWithinWidth` | lib/hitbtc/client.rb:153-155 | for instants with the same digit count, equal nonces mean equal seconds |
| `HitbtcProperties.NonceCollidesAcrossWidths` | lib/hitbtc/client.rb:154 | right padding makes the seconds n and 10·n give the same nonce |
| `RubyText.Decimal` | lib/hitbtc/client.rb:154 | `to_s` of a non-negative integer is a non-empty digit string that starts with '0' exactly when the number is 0 |
| `RubyText.DecimalRoundTrip` | lib/hitbtc/client.rb:154 | reading the digits of `to_s` back gives the original number |
| `RubyText.LJust` | lib/hitbtc/client.rb:154 | `ljust` keeps the string as a prefix, pads it to the width with the pad character, and never shortens it |
| `RubyText.ZeroPaddedValue` | lib/hitbtc/client.rb:154 | appending k zeros to a digit string multiplies its value by 10^k |
| `RubyText.Upcase` | lib/hitbtc/client.rb:185 | `upcase` keeps the length, leaves no lower-case letter, turns each lower-case letter into its upper-case partner and keeps every other character |
| `RubyText.Downcase` | lib/hitbtc/client.rb:166 | `downcase` keeps the length, leaves no upper-case letter, turns each upper-case letter into its lower-case partner and keeps every other character |
| `RubyHash.Stored` | lib/hitbtc/client.rb:128 | after `h[k] = v`, looking up k gives v |
| `RubyHash.StoredKeepsOthers` | lib/hitbtc/client.rb:128-131 | `h[k] = v` leaves the entry of every other key as it was |
| `RubyHash.StoredAppendsNewKey` | lib/hitbtc/client.rb:128-131 | storing a key the hash lacks appends it as the last entry |
| `RubyHash.StoredKeepsKeyOrder` | lib/hitbtc/client.rb:128-131 | storing a key the hash has keeps the number of entries and the position of every key |
| `RubyHash.StoredUnique` | lib/hitbtc/client.rb:128-131 | storing never makes a key appear twice |
| `RubyHash.Hash.Store` | lib/hitbtc/client.rb:128 | the in-place store keeps the hash free of duplicate keys, and its new entries are the old entries with the store applied |
| `Mash.Try` | lib/hitbtc/client.rb:196-204 | `try` answers the entry under `key.to_s` when it is present; the answer equals the receiver exactly when the key is absent |
| `Mash.IsEmpty` | lib/hitbtc/client.rb:137 | `empty?` exists only on strings, arrays and hashes, and is true exactly for the empty ones |
| `Mash.MashNew` | lib/hitbtc/client.rb:137 | `Mash.new` succeeds exactly on nil, false or a hash; it gives the same hash, or an empty one for nil and false |
| `Hitbtc.CheckSymbol` | lib/hitbtc/client.rb:181-186 | returns exactly when the symbol is a string of length 6, and then returns its upper-cased form of length 6; a string, array or hash of any other shape raises the symbol error |
| `HitbtcProperties.CheckSymbolIdempotent` | lib/hitbtc/client.rb:181-186 | a checked symbol passes the check again unchanged |
| `Hitbtc.OptionOr` | lib/hitbtc/client.rb:14-15 | the or-assignment of an option gives the option when it is truthy and the default otherwise |
| `Hitbtc.Client.constructor` | lib/hitbtc/client.rb:11-16 | the key and secret are kept; version and host are the options or their defaults "1" and "api.hitbtc.com"; missing defaults are written into the caller's options |
| `HitbtcProperties.DefaultUrls` | lib/hitbtc/client.rb:14-15 | a client built with no options uses the public URL http://api.hitbtc.com/api/1/public/… and the trading URL https://api.hitbtc.com/api/1/trading/…, and leaves both defaults in the options hash |
| `Hitbtc.Client.UrlPath` | lib/hitbtc/client.rb:177-179 | the trading path begins with `/api/{version}/trading/`, and the method name is recovered by removing that prefix |
| `Hitbtc.Client.PublicUrl` | lib/hitbtc/client.rb:81 | the public URL begins with `http://{base_uri}/api/{version}/public/`, and the method name is recovered by removing that prefix |
| `Hitbtc.Client.PrivateUrl` | lib/hitbtc/client.rb:135 | the trading URL is `https://{base_uri}` followed by the trading path |
| `HitbtcProperties.PublicAndPrivateUrlsDiffer` | lib/hitbtc/client.rb:81 | no public URL equals a trading URL |
| `Hitbtc.Client.GenerateMessage` | lib/hitbtc/client.rb:169-171 | the message is the trading prefix followed by its path argument and the data |
| `HitbtcProperties.SignedMessageRepeatsPrefix` | lib/hitbtc/client.rb:131 | the message signed for a method carries the trading prefix twice, so it differs from the trading path followed by the data |
| `Hitbtc.Client.GenerateSignature` | lib/hitbtc/client.rb:163-175 | up to letter case, the signature is the strict Base64 encoding of the HMAC-SHA512, under the Base64-decoded secret, of the trading prefix followed by the path and the data; it has that encoding's length and contains no upper-case letter |
| `HitbtcProperties.RequestSignatureMessage` | lib/hitbtc/client.rb:127-131 | the signature a request carries is, up to letter case, the Base64 HMAC-SHA512 of the trading prefix twice, then the method name, then the encoding of the caller's hash with nonce and apikey stored; it has no upper-case letter |
| `Hitbtc.Client.Sign` | lib/hitbtc/client.rb:128-131 | the hash keeps unique keys; the encoding taken is that of the caller's hash with nonce and apikey stored; the hash ends as that hash with the signature over that encoding stored |
| `HitbtcProperties.SignedParamsContents` | lib/hitbtc/client.rb:127-133 | after signing, nonce is the current nonce, apikey is the account key, and signature is the signature of the encoding taken before signature was stored; every other caller key is unchanged and no key is duplicated |
| `HitbtcProperties.SignedParamsOrder` | lib/hitbtc/client.rb:128-133 | when the caller passed none of the three keys, the signed encoding covers the caller's entries followed by nonce and apikey, and the sent hash adds signature as its last entry |
| `Hitbtc.Client.PostPrivate` | lib/hitbtc/client.rb:127-138 | the caller's hash ends signed; the body sent is the encoding of the signed hash, to the trading URL; the answer is the envelope of the response |
| `Hitbtc.PostEnvelope` | lib/hitbtc/client.rb:137 | with an empty `error` the answer is `result` as a Mash; with a non-empty `error` the answer is that `error` value verbatim; an `error` without `empty?` raises |
| `Hitbtc.Client.GetPrivate` | lib/hitbtc/client.rb:140-151 | the caller's hash ends signed; it is sent to the trading URL as the GET options; the answer is the response's `result` entry, or nil |
| `Hitbtc.Client.Ticker` | lib/hitbtc/client.rb:39-42 | returns exactly when the symbol passes the check, and then answers the public GET of `{checked}/ticker` with no query |
| `Hitbtc.Client.OrderBook` | lib/hitbtc/client.rb:44-51 | returns exactly when the symbol passes the check, and then answers the public GET of `{checked}/orderbook` with the caller's options as the query |
| `Hitbtc.Client.Trades` | lib/hitbtc/client.rb:53-78 | a bad symbol raises first and a bad `by` raises next, both with the hash untouched; otherwise from, start_index, max_results and by are stored, and the answer is the `trades` entry (by `try`) of the public GET of `{checked}/trades` with the updated hash |
| `HitbtcProperties.TradesParamsContents` | lib/hitbtc/client.rb:72-75 | `trades` stores its four arguments under symbol keys, overwriting caller values, keeps every other key, and duplicates none |
| `Hitbtc.SymbolOf` | lib/hitbtc/client.rb:31 | `h.symbol` is answered exactly for Mash entries, and the answer is the entry's "symbol" value, or nil when it has none |
| `Hitbtc.Includes` | lib/hitbtc/client.rb:31 | `include?` is membership for an array of names and substring search for a string, which refuses a non-string argument |
| `Hitbtc.Select` | lib/hitbtc/client.rb:31-33 | `select` succeeds exactly when the block succeeds on every entry, and then keeps exactly the entries the block accepts |
| `HitbtcProperties.SelectAppend` | lib/hitbtc/client.rb:31-33 | `select` over two arrays joined is the selection from the first followed by the selection from the second, so order and multiplicity are kept |
| `HitbtcProperties.SelectSingle` | lib/hitbtc/client.rb:31-33 | `select` over one entry gives that entry when the block accepts it and nothing otherwise |
| `HitbtcProperties.SelectByNames` | lib/hitbtc/client.rb:33 | on Mash entries, `select` with an array of names gives the entries whose symbol is one of the names, in their original order, each as often as it occurs |
| `HitbtcProperties.SelectFirstIsEarliest` | lib/hitbtc/client.rb:31 | the first kept entry is the earliest accepted entry, and nothing is kept when no entry is accepted |
| `Hitbtc.SelectSymbols` | lib/hitbtc/client.rb:28-36 | when the response lacks `symbols` or no names are given, the answer is what `try(:symbols)` gives, unfiltered |
| `HitbtcProperties.SymbolsUnfilteredForEmptySelector` | lib/hitbtc/client.rb:34-35 | with the default empty selector, the answer is the response's `symbols` entry itself |
| `Hitbtc.Client.Symbols` | lib/hitbtc/client.rb:27-37 | `symbols` answers the selection from the public GET of `symbols`, sent with no query |
| `Hitbtc.Client.GetPublic` | lib/hitbtc/client.rb:80-84 | the public GET goes to `http://{base_uri}/api/{version}/public/{method}` with the caller's options as the query, and answers the parsed response |
| `HitbtcProperties.SymbolsUnfilteredWhenAbsent` | lib/hitbtc/client.rb:27-37 | when the response lacks `symbols`, `try` answers the response itself and no filter is applied |
| `HitbtcProperties.SymbolsFilterByNames` | lib/hitbtc/client.rb:32-33 | with several names, the answer is the array of the listed entries whose symbol is one of the names, in the response's order; an entry is in it exactly when it is listed and its symbol is named |
| `HitbtcProperties.SymbolsSingleIsFirstMatch` | lib/hitbtc/client.rb:30-31 | with one name or a string, the answer is the earliest accepted entry, or nil when no entry is accepted |

## Left out

- HTTP (lib/hitbtc/client.rb:82, 136, 148): each request is handed to a `Transport` function, which gives the parsed response. The HTTParty calls are network I/O.
- JSON parsing and `parsed_response` (lib/hitbtc/client.rb:83, 136, 149) are not modelled. The transport yields the parsed JSON object directly. A response body that is not a JSON object is not modelled.
- `Mash.MashNew` treats a hash as already a Mash. Deep conversion of nested hashes is not modelled because it changes nothing the client reads.
- Loading credentials from `key.yml` (lib/hitbtc/client.rb:12-13) is file I/O. The key and secret are constructor arguments.
- HMAC-SHA512 (RFC 2104 over FIPS 180-4 SHA-512) and Base64 decode and strict encode (section 4 of RFC 4648), at lib/hitbtc/client.rb:164 and 174, are opaque fields of `Primitives`. Only how their results are composed is modelled.
- The Addressable query encoding (lib/hitbtc/client.rb:157-161) is the opaque `Primitives.encodeQuery`. The model assumes only that it is a function of the ordered entries.
- The wall clock (lib/hitbtc/client.rb:154) is the parameter `now`, in whole seconds. Times before 1970 are not modelled.
- The websocket and payment sections (lib/hitbtc/client.rb:118, 191) contain no code.
- `server_time` (lib/hitbtc/client.rb:22-25) is not modelled. It applies `try(:timestamp)` to the public GET of `time`, which is `Mash.Try` on a `Hitbtc.Client.GetPublic` response.
- `balance`, `active_orders`, `cancel_order`, `trade_history`, `recent_orders` and `create_order` (lib/hitbtc/client.rb:90-113) are not modelled. Each is a one-line call of `get_private` or `post_private` with a fixed method name. `balance` passes no options, and `recent_orders` ignores the options it is given; the others pass the caller's options on.
- `Hitbtc.Client.constructor` requires the `:version` and `:base_uri` options to be strings, nil, false or absent. The source accepts any truthy value there and fails only later, at the first string concatenation.
- `Hitbtc.OptionOr` requires a truthy option to be a string. Ruby's or-assignment returns any truthy value as it is, and the client then fails at its first string concatenation.
- `RubyText.Upcase` and `RubyText.Downcase` fold ASCII letters only. Ruby's `upcase` and `downcase` also fold other Unicode letters.
- `Hitbtc.SelectSymbols` models an array of names or a string as the `symbols` argument, and the default `{}` as an empty array. A non-empty Hash argument is not modelled.
- `Hitbtc.SelectSymbols` makes a `symbols` entry that is not an array raise NoMethodError. If that entry were a JSON object, Ruby would run `Hash#select` on it instead.
- `Hitbtc.SelectSymbols`: an error raised by the Ruby libraries carries only the name of the missing method, or a fixed message. The exact text Ruby produces is not modelled.
