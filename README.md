# SZA++ wrapper API: configuration element and HTTP adapters in Dafny

This project models the C++ "SZA++" convenience layer over the zia module API:

- **The configuration element** (`api/pp/conf.hpp`, `api/pp/conf.cpp`). A
  `ConfElem` holds a tag (`type`, an enum `Empty | Map | Array | String |
  Integer | Double | Boolean`) and, separately, a variant payload (`value`).
  `ConfMap` and `ConfArray` are its recursive containers. The `set<T>`
  specialisations overwrite both fields in place and return the element for
  chaining. `Conf` wraps one element and offers `getType`, a lookup by
  position, a lookup by key, and `fromBasicConfig`.
- **The HTTP adapters** (`api/pp/http.hpp`). `Response` keeps a header
  multimap (a list of values per name). `addHeader`, `addHeaders` and
  `removeAllHeadersByName` change that map in place, and `setStatus` changes
  the status fields. `fromBasicHttpResponse` / `toBasicHttpResponse` and
  `fromBasicHttpRequest` / `toBasicHttpRequest` convert to and from the flat
  records, whose bodies are byte vectors, while the adapters' bodies are strings.

Files:

- `primitives.dfy` (module `Primitives`): the C++ scalar widths, written out.
  This covers `int`, `long long`, `std::byte`, a signed `char`, `size_t`
  wrap-around, the byte/char casts and `std::string(const char *)`.
- `config.dfy` (module `Config`): the element as a value (`Elem(tag,
  payload)`, with the two parts independent), the `Conf` wrapper, and its
  lookups. The lookups return `Found(elem)` or `InvalidAccess`.
- `config_setters.dfy` (module `ConfigSetters`): class `ConfElem` with one
  `Set*` method per `set<T>` specialisation.
- `http.dfy` (module `Http`): the header-map effects as functions, classes
  `Response` and `Request`, and the body conversions.

Facts about the code that shape the model:

- The tag and the payload are separate fields, and nothing keeps them in
  agreement. `set<float>` stores a `double` payload under the tag `Integer`
  (see Findings).
- Both `Conf::operator[]` overloads turn every failure into one
  `InvalidAccess`: a payload of the wrong alternative, an index out of range
  and an absent key all end the same way.
- Containers are held by value. `ConfMap` and `ConfArray` hold their elements
  by value, and the variant holds the containers by value. conf.cpp stores a
  `std::make_shared<…>` result into that variant, which the shown header
  cannot accept, and `set` is not declared in conf.hpp. The model keeps value
  containers. Every `set<ConfMap>`/`set<ConfArray>` moves its argument into a
  freshly allocated cell that nothing else shares, so value semantics describe
  exactly what those setters produce.
- `fromBasicConfig` ignores its argument and returns an empty `Conf`.

`char` is taken to be signed 8-bit, as on the x86 and x86-64 ABIs. The casts
between `std::byte` and `char` are modulo 256 either way, so the body round
trips hold whatever the signedness. Only the HTTP bodies are modelled at the
level of C++ `char`s, because only they are cast to and from bytes. Every other
`std::string` is a Dafny `string`: header names and values, the status reason,
the URI and the configuration text. No code in the core inspects the
characters of those strings.

## Model

| member | source | states |
|---|---|---|
| `Primitives.ToSizeT` | api/pp/conf.hpp:59-61 | the `int` index passed to `at` becomes a `size_t` congruent to it modulo 2^64; a non-negative index keeps its value; a negative one becomes at least 2^64 - 2^31, beyond any vector length |
| `Primitives.WidenToLongLong` | api/pp/conf.cpp:102-114 | `static_cast<long long>` of an `int` keeps the number |
| `Primitives.ByteToChar` | api/pp/http.hpp:52-53 | casting a byte to `char` keeps the value modulo 256; the char is negative exactly when the byte is at least 128 |
| `Primitives.CharToByte` | api/pp/http.hpp:65-66 | casting a `char` to `std::byte` keeps the value modulo 256; the byte is at least 128 exactly when the char is negative |
| `Primitives.ByteCharByte` | api/pp/http.hpp:52-53 | byte to char to byte gives back the byte |
| `Primitives.CharByteChar` | api/pp/http.hpp:65-66 | char to byte to char gives back the char |
| `Primitives.CStringPrefix` | api/pp/conf.cpp:63-74 | `std::string(p)` for a NUL-terminated array is the prefix before the first NUL; it contains no NUL and a NUL follows it |
| `Config.DefaultConf` | api/pp/conf.hpp:41-44 | a default-initialised `Conf` holds `std::monostate`; its tag is indeterminate (any value) |
| `Config.GetType` | api/pp/conf.hpp:55-57 | `getType` yields the tag stored in the wrapped element; it reads nothing else and has no failure case |
| `Config.GetTypeIsStoredTag` | api/pp/conf.hpp:55-57 | `getType` returns the stored tag whatever the payload, even one that disagrees with it, and has no failure case |
| `Config.AtIndex` | api/pp/conf.hpp:59-66 | the lookup by position succeeds exactly when the payload is an array and the index, converted to `size_t`, is below its length; it then yields that element, otherwise `InvalidAccess` |
| `Config.AtIndexSpec` | api/pp/conf.hpp:59-66 | for any array a vector can hold, the lookup succeeds exactly for 0 <= index < length and yields `items[index]`; a negative index, an index past the end, or a non-array payload gives `InvalidAccess` |
| `Config.AtKey` | api/pp/conf.hpp:68-75 | the lookup by key succeeds exactly when the payload is a map holding the key; it then yields the stored element, otherwise `InvalidAccess` |
| `Config.LookupsIgnoreTag` | api/pp/conf.hpp:59-75 | both lookups depend on the payload alone: replacing the tag changes neither result |
| `Config.FromBasicConfig` | api/pp/conf.hpp:77-79 | `fromBasicConfig` returns a value-initialised `Conf`: tag `Empty`, payload `std::monostate`, consistent; every lookup by position or by key on it fails |
| `Config.FromBasicConfigIgnoresInput` | api/pp/conf.hpp:77-79 | the result is the same for every base configuration |
| `ConfigSetters.ConfElem.constructor` | api/pp/conf.hpp:22-33 | a default-initialised `ConfElem` holds `std::monostate` with an indeterminate tag |
| `ConfigSetters.ConfElem.SetMap` | api/pp/conf.cpp:20-32 | `set<ConfMap>` makes the tag `Map` and the payload the given map, whatever the previous state, and returns the same element |
| `ConfigSetters.ConfElem.SetArray` | api/pp/conf.cpp:40-52 | `set<ConfArray>` makes the tag `Array` and the payload the given array, and returns the same element |
| `ConfigSetters.ConfElem.SetCString` | api/pp/conf.cpp:63-74 | `set<char *>` makes the tag `String` and the payload the text before the first NUL, and returns the same element |
| `ConfigSetters.ConfElem.SetString` | api/pp/conf.cpp:82-94 | `set<std::string>` makes the tag `String` and the payload the given text, and returns the same element |
| `ConfigSetters.ConfElem.SetInt` | api/pp/conf.cpp:102-114 | `set<int>` makes the tag `Integer` and the payload a `long long` equal to the argument, and returns the same element |
| `ConfigSetters.ConfElem.SetLongLong` | api/pp/conf.cpp:121-133 | `set<long long>` makes the tag `Integer` and the payload the argument unchanged, and returns the same element |
| `ConfigSetters.ConfElem.SetFloat` | api/pp/conf.cpp:142-154 | `set<float>` as written: the payload is the widened `double`, but the tag is `Integer`, so tag and payload disagree |
| `ConfigSetters.ConfElem.SetFloatAsDouble` | api/pp/conf.cpp:136-141 | `set<float>` as its comment describes it: the widened value tagged `Double`, consistent |
| `ConfigSetters.ConfElem.SetDouble` | api/pp/conf.cpp:161-173 | `set<double>` makes the tag `Double` and the payload the argument, and returns the same element |
| `ConfigSetters.ConfElem.SetBool` | api/pp/conf.cpp:180-192 | `set<bool>` makes the tag `Boolean` and the payload the argument, and returns the same element |
| `ConfigSetters.FloatSetterMislabelsPayload` | api/pp/conf.cpp:142-147 | after `set<float>`, the element's public `type` field says `Integer` while the payload is not a `long long` but a `double` |
| `Http.BytesToChars` | api/pp/http.hpp:52-53 | the string body has one char per byte, each the byte cast to `char` |
| `Http.CharsToBytes` | api/pp/http.hpp:65-66 | the byte body has one byte per char, each the char cast to `std::byte` |
| `Http.BytesCharsRoundTrip` | api/pp/http.hpp:48-70 | converting a byte body to a string and back gives the original bytes |
| `Http.CharsBytesRoundTrip` | api/pp/http.hpp:58-70 | converting a string body to bytes and back gives the original string |
| `Http.WithHeader` | api/pp/http.hpp:25-28 | after `addHeader(name, v)` the name is present, its list is the old list (or empty) followed by `v`, and every other name is unchanged |
| `Http.WithHeaders` | api/pp/http.hpp:30-35 | after `addHeaders(name, vs)` the list under the name is the old one followed by all of `vs` in order; the name is present exactly when it was or `vs` is non-empty; other names are unchanged |
| `Http.WithHeadersIsEachHeader` | api/pp/http.hpp:25-35 | `addHeaders(name, vs)` has the same effect as one `addHeader(name, v)` per value, in order |
| `Http.WithHeadersThenOne` | api/pp/http.hpp:30-35 | adding a list of values and then one more is adding the extended list |
| `Http.WithHeadersSingle` | api/pp/http.hpp:25-35 | `addHeaders` with one value has the effect of `addHeader` with that value |
| `Http.WithHeaderTwiceKeepsOrder` | api/pp/http.hpp:25-28 | two `addHeader` calls with one name keep both values, in call order, after the earlier ones |
| `Http.WithoutHeader` | api/pp/http.hpp:37-40 | after `removeAllHeadersByName` the name is absent and every other name is unchanged |
| `Http.WithoutHeaderIdempotent` | api/pp/http.hpp:37-40 | removing a name twice equals removing it once; removing an absent name changes nothing |
| `Http.Response.constructor` | api/pp/http.hpp:21-23 | a new response has the given version, raw body, status code and reason, no headers, an empty string body, and `useRawBody` false |
| `Http.Response.AddHeader` | api/pp/http.hpp:25-28 | `addHeader` changes the headers as `WithHeader` states and nothing else, and returns the same response |
| `Http.Response.AddHeaders` | api/pp/http.hpp:30-35 | the loop of `addHeaders` changes the headers as `WithHeaders` states and nothing else, and returns the same response |
| `Http.Response.RemoveAllHeadersByName` | api/pp/http.hpp:37-40 | `removeAllHeadersByName` changes the headers as `WithoutHeader` states and nothing else, and returns the same response |
| `Http.Response.SetStatus` | api/pp/http.hpp:42-46 | `setStatus` sets the code and the reason, changes nothing else, and returns the same response |
| `Http.Response.ToBasicHttpResponse` | api/pp/http.hpp:58-71 | the flat response carries the version, status and reason and no headers; its body is the raw body if `useRawBody` is set, otherwise the string body converted char by char |
| `Http.Response.FromBasicHttpResponse` | api/pp/http.hpp:48-56 | a fresh response with the flat body as raw body and, byte by byte, as string body, no headers, and `useRawBody` false; converting it back gives the flat response with its headers dropped |
| `Http.Request.constructor` | api/pp/http.hpp:86-88 | a new request has the given version, raw body, method and URI, no headers, an empty string body, and `useRawBody` false |
| `Http.Request.ToBasicHttpRequest` | api/pp/http.hpp:100-111 | the flat request carries the version, method and URI and no headers; its body is the raw body if `useRawBody` is set, otherwise the string body converted char by char |
| `Http.Request.FromBasicHttpRequest` | api/pp/http.hpp:90-98 | a fresh request with the flat body as raw body and, byte by byte, as string body, no headers, and `useRawBody` false; converting it back gives the flat request with its headers dropped |

## Findings

| source | as written | input that shows it | evidently intended | confidence | as-written member | corrected member |
|---|---|---|---|---|---|---|
| api/pp/conf.cpp:136-154 | `set<float>` assigns `type = Integer` while storing `static_cast<double>(val)` | any float, e.g. `1.5f`: afterwards the element's `type` field is `Integer` but `std::get<long long>` on the value throws `bad_variant_access` | tag `Double`, as the comment "Set a double value. Alias for double." and `set<double>` say | high (not executed) | `ConfigSetters.ConfElem.SetFloat` (with `ConfigSetters.FloatSetterMislabelsPayload`) | `ConfigSetters.ConfElem.SetFloatAsDouble` |

## Left out

- `api/pp/visitor.hpp`: compile-time overload composition and a fixed-point combinator over generic lambdas. Nothing in the modelled code traverses a configuration with it, so it has no behaviour of its own to state.
- `Conf::get<T>` (api/pp/conf.hpp:46-53): it asks the variant for a `T *` alternative, which the variant does not have, so no instantiation compiles.
- The console output in the `catch` blocks of both `Conf::operator[]` overloads is I/O and is not modelled.
- `Config.AtIndex` and `Config.AtKey` return a copy of the element found. The C++ operators return a reference into the `Conf`, through which a caller could change it; that aliasing is not modelled. No Conf the shown code can build has a non-empty payload, so no lookup on one can succeed anyway.
- `ConfigSetters.ConfElem.SetFloat`: the float-to-double conversion is not computed. A `float` is represented by the `double` it widens to, which is exact, and `double` values are opaque bit patterns with no arithmetic.
- `Http.Response.AddHeaders`: the argument is assumed not to alias the response's own header list. In C++, `values` is a `const std::vector<std::string> &` and could be `this->headers[name]` itself. The loop would then push into the vector it iterates, which is undefined behaviour. The model takes `values` as a value, so it defines that call as doubling the list.
- The `&&`-qualified `set` overloads do the same assignments as the `&` ones and only return an rvalue reference, so each pair is one method.
- The `std::shared_ptr` cells that conf.cpp stores are modelled as the container values they point to, as explained above.
- `Version` and `Method` come from `http.h`, which is not part of this model, so they are opaque types. The flat header map is taken to be one string per name.
- `useRawBody` is private in C++. Dafny has no private fields, so the model only shows that constructors set it to false and that no method assigns it.
- The `std::unique_ptr` ownership of the results of `fromBasicHttpResponse`/`fromBasicHttpRequest` is modelled as a freshly allocated object.
- `api/pp/module.hpp`, `api/net.h`, `api/pp/net.hpp` and `api/conf.h` are not part of this model. They cover module lifecycle and pointer resets, a network interface, and a declaration that `fromBasicConfig` never reads. The base configuration value is declared only so `fromBasicConfig` has an argument type.
- The demonstration programs (`main.cpp`, `Test1.cpp`, `Test2.cpp`, `Test3.cpp`) call functions the shown headers do not declare and print their results. Only their use of chained `addHeader` calls is reflected, in `Http.WithHeaderTwiceKeepsOrder`.
