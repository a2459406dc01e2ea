# Zendesk API client core, modelled in Dafny

This project models two stateful pieces of a PHP client library for the
Zendesk REST API.

- **The base pagination strategy** (`AbstractStrategy`). It keeps the
  response key and the caller's parameter array. It resolves the page size
  lazily: the cached value first, then `page[size]`, then `per_page`, then
  the process-wide `DEFAULT_PAGE_SIZE`. The result is cached in a field, so
  later calls return it unchanged.
- **The HTTP client's own state** (`HttpClient`). This covers the base URL
  built at construction and `setAuth` with its validation. It also covers the
  sideload list, how `get` turns that list into an `include` query
  parameter, and how every request helper clears the stored list once the
  send returns.

Files:

- `php.dfy` (module `Php`) holds the PHP values the client inspects, with
  `isset` and `empty`. It also holds `implode`, `explode` and integer
  interpolation, and proves that `explode` undoes `implode`.
- `pagination.dfy` (module `Pagination`) holds the strategy class
  `AbstractStrategy`, with its memoizing `PageSize` method, and the pure
  page-size specification it is proved against.
- `client.dfy` (module `Client`) holds the class `HttpClient` and the pure
  functions that specify it:
  - `ApiUrl` and its inverse `SubdomainOfApiUrl`;
  - `ValidateAuth`;
  - `SentQuery`.

Environment:

- The transport (`Http::send`) is the parameter `send` of each request
  helper. It is a total function from a snapshot of the client, the
  endpoint and the options array to an `Outcome`: either a returned
  response or a thrown `ApiResponseException`. A thrown outcome ends the
  helper before the sideload reset, as the exception does in PHP.
- `DEFAULT_PAGE_SIZE` is a process-wide constant defined outside these
  files. Here it is the `defaultPageSize` argument of the strategy's
  constructor, kept in a `const` field.
- `Auth::BASIC` and `Auth::OAUTH` are the two tokens `Basic` and `OAuth`.
  Any other strategy a caller passes is `Unrecognised(name)`.
- PHP `null` is `Null` for a parameter value and `None` for an optional
  field.

## Model

| member | source | states |
|---|---|---|
| `Pagination.AbstractStrategy.constructor` | src/Zendesk/API/Traits/Utility/Pagination/AbstractStrategy.php:13-22 | the response key and the parameter array are stored exactly as given and `params()` returns that array; no validation is done and no page size is resolved yet, so the cache invariant holds |
| `Pagination.AbstractStrategy.Params` | src/Zendesk/API/Traits/Utility/Pagination/AbstractStrategy.php:19-22 | `params()` reads the parameter array, which is a constant field, so it returns the array given at construction on every call |
| `Pagination.FirstSetKey` | src/Zendesk/API/Traits/Utility/Pagination/AbstractStrategy.php:28-33 | the index returned is the first key in precedence order that is set (present and not null); every earlier key is unset; `None` means no key is set |
| `Pagination.ResolvePageSize` | src/Zendesk/API/Traits/Utility/Pagination/AbstractStrategy.php:28-34 | the page size is the value of the first set key of `page[size]`, `per_page`, else the default. `page[size]` wins even when `per_page` is also set. A key holding null counts as absent. The chosen value is returned verbatim, with no range or type check, and is never null |
| `Pagination.AbstractStrategy.PageSize` | src/Zendesk/API/Traits/Utility/Pagination/AbstractStrategy.php:24-37 | a cached size is returned unchanged and the parameters are not consulted; otherwise the size resolved from the parameters is cached and returned; only the `pageSize` field may change. It keeps the invariant that the cache is empty or holds the size the parameters determine, so the size returned is always that size, whether or not it was cached before |
| `Pagination.PageSizeIsMemoized` | src/Zendesk/API/Traits/Utility/Pagination/AbstractStrategy.php:26-29 | on any strategy that keeps the cache invariant, two resolutions in a row return the same value, the one the parameters determine |
| `Php.ExplodeImplode` | src/Zendesk/API/HttpClient.php:358 | splitting at the separator gives back the list that `implode` joined, for any non-empty list whose items do not contain the separator |
| `Client.HttpClient.constructor` | src/Zendesk/API/HttpClient.php:123-147 | the subdomain, username, scheme, hostname and port are stored with their PHP defaults; the base URL is `scheme://hostname:port/api/v2/` when the subdomain is empty (`""` or `"0"`), and `scheme://subdomain.hostname:port/api/v2/` otherwise; no auth and no sideload are set |
| `Client.Authority` | src/Zendesk/API/HttpClient.php:143-147 | the authority part of the base URL always ends with the hostname, and it is the hostname alone exactly when the subdomain is empty in PHP's sense (`""` or `"0"`) |
| `Client.ApiUrl` | src/Zendesk/API/HttpClient.php:143-147 | the base URL starts with the scheme and `://` and ends with `/api/v2/` |
| `Client.ApiUrlDeterminesSubdomain` | src/Zendesk/API/HttpClient.php:143-147 | the two URL shapes cannot be confused: the subdomain read back from a base URL is the one given, or `""` when PHP's `empty` dropped it |
| `Client.ValidateAuth` | src/Zendesk/API/HttpClient.php:192-211 | options are accepted exactly when the strategy is BASIC and `username` and `token` are keys, or the strategy is OAUTH and `token` is a key; an unrecognised strategy is the invalid-strategy error and no other input gives it |
| `Client.HttpClient.SetAuth` | src/Zendesk/API/HttpClient.php:190-214 | an unrecognised strategy throws and changes nothing. A recognised one is stored before the options are checked, so a throw leaves the new strategy with the old options. Success stores both, and the stored options then satisfy the stored strategy; the getters return the stored fields |
| `Client.HttpClient.SetSideload` | src/Zendesk/API/HttpClient.php:295-300 | the list (or null) is stored, the same client object is returned, and `getSideload` without a per-call list now yields it |
| `Client.HttpClient.GetSubdomain` | src/Zendesk/API/HttpClient.php:221-224 | reads the subdomain, a constant field, so it returns the subdomain given to the constructor |
| `Client.HttpClient.GetApiUrl` | src/Zendesk/API/HttpClient.php:231-234 | reads the base URL, a constant field, so it returns the URL the constructor built |
| `Client.HttpClient.GetAuthOptions` | src/Zendesk/API/HttpClient.php:241-244 | reads the stored options; null until a `setAuth` succeeds, then the options of the last successful call |
| `Client.HttpClient.GetAuthStrategy` | src/Zendesk/API/HttpClient.php:251-254 | reads the stored strategy; null until a `setAuth` gets past the strategy check, then the last recognised strategy passed |
| `Client.HttpClient.GetSideload` | src/Zendesk/API/HttpClient.php:309-316 | a `sideload` array among the call's parameters is returned in preference to the stored list; otherwise the stored list (or null) is returned |
| `Client.PerCallSideloadWins` | src/Zendesk/API/HttpClient.php:311-312 | when the call's parameters hold a `sideload` array, every client yields that array, whatever list it has stored |
| `Client.SentQuery` | src/Zendesk/API/HttpClient.php:354-360 | with an effective sideload list, the query gains `include` = the names joined by commas in order and loses `sideload`, and every other key keeps its value; without one, the query is unchanged |
| `Client.SentIncludeListsSideloads` | src/Zendesk/API/HttpClient.php:357-359 | the `include` value sent splits back at commas into the sideload list, for a non-empty list of names without commas |
| `Client.HttpClient.Get` | src/Zendesk/API/HttpClient.php:352-371 | the outcome is the transport's outcome for the client as it was before the call, the endpoint and the rewritten query for the effective sideload. A `sideload` array in the query decides `include` whatever list the client had stored; the stored sideload is null afterwards if the send returned and unchanged if it threw |
| `Client.HttpClient.Post` | src/Zendesk/API/HttpClient.php:382-396 | the transport gets the data as `postFields` with method POST; the stored sideload is null afterwards if the send returned and unchanged if it threw |
| `Client.HttpClient.Put` | src/Zendesk/API/HttpClient.php:407-418 | the transport gets the data as `postFields` with method PUT; the stored sideload is null afterwards if the send returned and unchanged if it threw |
| `Client.HttpClient.Delete` | src/Zendesk/API/HttpClient.php:428-439 | the transport gets method DELETE and no body; the stored sideload is null afterwards if the send returned and unchanged if it threw |

## Left out

- `page($getPageFn)` and `shouldGetPage($position)` are left out. In the base class they are abstract methods with no body, and no concrete strategy (offset, cursor or capped) is part of this model. There is no behaviour of theirs to model, so no traversal or stopping rule is modelled either.
- Creating the Guzzle client in the constructor is left out because it is a library object used only by the transport.
- The body of `Http::send` is left out because it performs network I/O. The transport is the `send` parameter. Anything it does to the client, such as writing debug information, is not modelled.
- `Debug`, `setDebug` and `getDebug` are left out because they are plain diagnostic field stores.
- `category`, `activities`, `activity` and `getValidSubResources` are left out because they rely on the resource accessors of `InstantiatorTrait`, which is not part of this model.
- The fields `auth`, `token` and `oAuthToken` are left out because they are declared but never assigned in the modelled code.
- The text of the `AuthException` messages is left out because it embeds the values of the `Auth` constants. Only the reason for each exception is modelled.
- PHP's loose comparison in `in_array` and `==` is left out: a strategy is one of the three values of `AuthStrategy`. A non-string argument that compares loosely equal to `Auth::BASIC` is therefore not modelled.
- PHP arrays are modelled as maps, so key order is not modelled. In the source, `include` is appended at the end of the query when it is new.
- Parameter values are limited to null, booleans, integers, strings and lists of strings. Floats, nested arrays and `implode` applied to items that are not strings are not modelled.
- Inputs that are not arrays are not modelled. A scalar or null `params` is accepted by the strategy's constructor, and `isset` on it is false, so the default would apply. An `ArrayAccess` object as `params` is not modelled, since `isset` on it calls its `offsetExists`. A `getSideload(null)` call is modelled as the empty array, which behaves the same under `isset`.
- The subdomain is a string and the port an integer. A null subdomain, which behaves like `""`, and a port given as a string are not modelled.
