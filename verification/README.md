# tml-js-angular: the binder's data logic

tml-js-angular binds the TML translation library to AngularJS. A `tml-tr`
directive takes a translation key. It gets its parameters either from one
`values` expression or from per-token attributes. It calls the library's
`tml.tr` to render the key and re-renders when a parameter or the language
changes. Most of `src/tml-angular.js` is framework glue. This project models
the deterministic data logic inside it:

- **Parameter normalisation** (`TemplateParams`). `runTemplate` treats a
  falsy snapshot as `{}`. It enumerates the snapshot's own keys and copies
  each entry into the parameter map. An array-valued entry becomes
  `[array, format?, options?]`. The format and options come from the truthy
  sibling keys `key-format` and `key-options`.
- **Token-name expansion** (`TokenNames`). The data-token short names of the
  key are followed by `name-format` and `name-options` for each name, in
  order.
- **The token proxy** (`Proxy`). Its store holds the values the token
  watchers wrote. Reading a token returns the stored value unless that value
  is undefined; otherwise it returns the scope's value. A write changes only
  the store. The watch listener ignores an undefined value. Any other value
  is stored, and then the proxy is rendered.
- **Language mirroring** (`Language`). `setLanguage` copies a truthy
  language into the root scope without its `application` property. It also
  copies its locale and the boolean value of `right_to_left`.
- **Directive choices** (`Directive`). These cover which string is the
  translation key, and which snapshot the args branch renders.

JavaScript values are the datatype `JsValues.Value`. `Truthy` is
JavaScript's truthiness over it. `OwnEntries` is what `Object.keys(v)`
followed by `v[key]` sees. For objects that is their fields. For arrays and
strings it is their decimal index properties.

A template without data tokens is still rendered through the token proxy.
`Object.keys(simpleTokenProxy)` includes the proxy's own `____store`
property (line 90). So the translator receives that one entry, holding the
store object, and not an empty map; see `Proxy.NoTokensPassesOnlyStore`.

`Proxy.GreetingScenario` walks a `Hello, {name}` translation through its
token watcher, using the contracts above and the definition of
`Companions`. Its attribute first evaluates to "Ada", then to undefined,
then to "Grace".

## Model

| member | source | states |
|---|---|---|
| `JsValues.Truthy` | src/tml-angular.js:13 | JavaScript truthiness: undefined, null, false, 0 and "" are exactly the falsy values |
| `JsValues.OwnEntries` | src/tml-angular.js:14-18 | an object enumerates exactly its fields, an array or a string its index entries, and any other value nothing; every non-object key starts with a digit |
| `JsValues.ArrayEntries` | src/tml-angular.js:14-18 | an array enumerates each index `i` under the numeral of `i`, holding element `i`, and no key other than those numerals |
| `JsValues.StringEntries` | src/tml-angular.js:14-18 | a string enumerates each index under its numeral, holding that one-character string, and no key other than those numerals |
| `JsValues.IndexKeyInjective` | src/tml-angular.js:14 | distinct indices get distinct property names, so `Object.keys` of an array or string loses no element |
| `JsValues.WithoutProperty` | src/tml-angular.js:184 | `delete v.k` on an object keeps it an object with the same own keys minus `k`, `k` reading undefined and every other property as it was; any other value is left as it is |
| `TemplateParams.ScopeEntries` | src/tml-angular.js:13-14 | a falsy snapshot (null, undefined, ...) enumerates nothing; an object snapshot enumerates its fields |
| `TemplateParams.Modifier` | src/tml-angular.js:23-27 | a format or options slot is present exactly when the sibling key holds a truthy value, and then holds that value |
| `TemplateParams.NormalisedEntry` | src/tml-angular.js:18-34 | a non-array entry is passed through unchanged; an array entry is wrapped with its own items and the format and options of its sibling keys |
| `TemplateParams.Normalised` | src/tml-angular.js:15-17 | the parameter map has exactly the snapshot's key set |
| `TemplateParams.BuildParams` | src/tml-angular.js:12-35 | `runTemplate` gives the normalised map of the snapshot's entries, with the same key set; a falsy snapshot gives the empty map |
| `TemplateParams.FillParams` | src/tml-angular.js:15-35 | the key loop, in any key order, fills exactly the normalised map |
| `TemplateParams.ParamValue` | src/tml-angular.js:21-29 | a wrapped entry reaches the translator as an array of length 1 to 3: the list first, then the format if set, then the options if set (an unset format before options reads undefined) |
| `TemplateParams.PlainEntryUnchanged` | src/tml-angular.js:31-34 | a non-array value reaches the translator unchanged |
| `TemplateParams.ListEntryWrapped` | src/tml-angular.js:19-29 | an array value reaches the translator as element 0; element 1 is the truthy format; length 3 exactly when the options are truthy, and then element 2 is the options |
| `TokenNames.Companions` | src/tml-angular.js:80-86 | two companions are pushed per token name |
| `TokenNames.CompanionsAt` | src/tml-angular.js:83-85 | companion `2i` is `name_i-format` and companion `2i+1` is `name_i-options` |
| `TokenNames.ExpandTokenNames` | src/tml-angular.js:80-87 | the loop's result is the token names followed by their companions, three times as long as the names |
| `TokenNames.ExpandedAt` | src/tml-angular.js:80-87 | the names come first, in order, followed by `n-format`, `n-options` for each name `n` in order |
| `TokenNames.ExpandedNamesExactly` | src/tml-angular.js:87 | a name is in the expanded list exactly when it is a token name or the format or options companion of one |
| `Proxy.TokenValue` | src/tml-angular.js:97-103 | a token reads as its stored value when that is not undefined, and otherwise as the scope's value of that name |
| `Proxy.ProxyEntries` | src/tml-angular.js:89-111 | the proxy enumerates `____store` (holding the store object) and exactly the expanded token names, each with its getter's value |
| `Proxy.ReadAfterWrite` | src/tml-angular.js:101-108 | after writing `v` to a token, that token reads `v` when `v` is defined (else the scope's value), and every other token reads as before |
| `Proxy.ExpandedNamesMissStore` | src/tml-angular.js:87-96 | when no data token is named `____store`, no expanded name is either, so the proxy's store property is never replaced by an accessor |
| `Proxy.CompanionsReadThroughProxy` | src/tml-angular.js:23-27 | through the proxy, a token's `-format` and `-options` siblings are read by their own getters, so they too fall back to the scope |
| `Proxy.NoTokensPassesOnlyStore` | src/tml-angular.js:89-91 | with no data tokens the translator receives exactly one entry, `____store` |
| `Proxy.TokenProxy.constructor` | src/tml-angular.js:89-91 | the proxy starts with an empty store over the given scope and tokens |
| `Proxy.TokenProxy.Write` | src/tml-angular.js:104-108 | a write replaces the store entry for that token only; the scope is untouched |
| `Proxy.TokenProxy.Render` | src/tml-angular.js:152-155 | `performTranslation` renders the normalised proxy, with one entry for `____store` and one per token name |
| `Proxy.TokenProxy.OnTokenChange` | src/tml-angular.js:134-142 | an undefined value changes nothing and does not render; any other value is stored, then the proxy is rendered, and the rendered entry for the token is the new value (wrapped if it is an array) |
| `Language.Mirrored` | src/tml-angular.js:179-188 | a falsy language changes nothing; otherwise the locale is `language.locale`, `isRtl` is the boolean truthiness of `right_to_left`, and the stored language is still truthy, lacks `application` and otherwise agrees with the language: an object keeps its own keys minus `application`, any other value is stored as it is |
| `Language.MirroredIdempotent` | src/tml-angular.js:190-197 | setting the same language twice (event handler and watch) is the same as setting it once |
| `Language.MirroredOverwrites` | src/tml-angular.js:181-187 | a truthy language determines the mirrored state regardless of what was there before |
| `Language.RootScope.SetLanguage` | src/tml-angular.js:179-188 | the root-scope fields become the mirrored state; `application` is gone from the stored language |
| `Language.RootScope.InitialLanguage` | src/tml-angular.js:199-205 | if the library's `getCurrentLanguage` throws, the state is unchanged; otherwise `setLanguage` is applied to its result |
| `Directive.AttributeTemplate` | src/tml-angular.js:217 | the key is the attribute value when it is non-empty and not `tml-tr`, and otherwise the element's HTML; the key is empty or `tml-tr` only when the HTML is |
| `Directive.ElementTemplate` | src/tml-angular.js:231 | the key is `translateStr` when it is non-empty, and otherwise the element's HTML; the key is empty only when the HTML is |
| `Directive.ArgsSnapshot` | src/tml-angular.js:65-68 | the args branch renders the expression's value, or `{}` when the expression did not parse |
| `Directive.UnparsedArgsRenderEmpty` | src/tml-angular.js:45-53 | an args expression that does not parse renders with an empty parameter map |
| `Directive.FalsyArgsRenderEmpty` | src/tml-angular.js:13 | an args value that is falsy renders with an empty parameter map |

## Left out

- DOM and framework effects are not modelled. These are `elem.html`, `$compile`, `elem.attr`, and the scheduling and deep comparison of `scope.$watch`. They also include `$rootScope.$on`, `$emit` and `$digest`. The model's operations are the steps these effects trigger.
- The aggregate watcher over all token values (line 157) is not modelled. It only calls the same render as the per-token listener.
- The language-change subscriptions (lines 60-63, 147-150, 190-195) are not modelled. They re-render or call `setLanguage`, and those steps are modelled.
- The external library calls are not modelled: `tml.tr`, `tml.trl` and `TranslationKey.getDataTokens`. The parameter map is the model's output, and the data-token short names are its input.
- `getCurrentLanguage` is not modelled; its result, or its failure, is an input.
- `$parse` is not modelled. An expression's value is an input, as an `Option`. This covers parse failures and the self-cancelling token watcher (lines 113-132).
- The `trl` helper and filter are not modelled (lines 172-177, 236-242). Neither are the `tmlLs` directive and its `Trex` hook (243-256), module registration, or the AMD/CommonJS loader (262-269). All of these are glue.
- Numbers are integers. Floating point, `NaN` and `-0` (all falsy or special in JavaScript) are not modelled.
- Property reads see only own enumerable properties. Inherited properties are not modelled, including the Angular scope's prototype chain; the scope is one flat map. Non-enumerable properties such as `length` are not modelled either.
- `JsValues.StringEntries`: indexes a string by Unicode scalar values. JavaScript indexes strings by UTF-16 code units, so a string with a character outside the Basic Multilingual Plane enumerates differently.
- `JsValues.WithoutProperty`: defined only for property names that are not indices. The binder deletes only `application`.
- `Language.RootScope.SetLanguage`: stores a copy of the language. In the source the stored object is the library's own object, so deleting `application` changes the library's object too. That aliasing is not modelled.
- `TemplateParams.ParamValue`: the hole at index 1 of `[list, , options]` is modelled as undefined. Code that tells a hole apart from an undefined element (`1 in arr`) is not modelled.
- `Proxy.ProxyEntries`: a data token named `____store` is not modelled. In the source its accessor would replace the store property, and every read would recurse without end.
- The order of `Object.keys` is not modelled. The parameter map is a map, and each key writes only its own entry.
