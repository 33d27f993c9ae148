# metro-jsapi core, modelled in Dafny

The widget shows a city's metro scheme (an SVG diagram) on top of a Yandex map. The part of
`metro.js` that is logic rather than calls into the map SDK, the DOM or XHR is modelled here:

- **SchemeTable** (`scheme_table.dfy`): the fixed `Scheme.DEFAULT_SCHEMES` table. It also holds
  the `reduce` that folds the table into an alias→id dictionary, and the lookup by city alias.
  The static `Scheme._idByAlias` cache is the class `SchemeDirectory`. The cache is filled on
  the first lookup and reused afterwards.
- **SchemeDoc** (`scheme_doc.dfy`): the loaded scheme. `SchemeNode` is the SVG root: its direct
  children, the transform under the `transform-wrapper` id, and the CSS width and height.
  `Scheme` holds the lazily filled `_metadata` and `_transform` caches and `_scale`. The first
  successful `getMetaData` parses the `<metadata>` child and removes it from the node.
- **SchemeOverlay** (`scheme_overlay.dfy`): `SchemeLayer`. The fit-to-pane scale is
  `min(paneWidth/width, paneHeight/height)`. `update` sizes the node to that scale times the
  native size and pushes the scale into the `Scheme`. Numbers are exact reals.
- **Transport** (`transport.dfy`): `TransportMap`. It resolves the scheme id from the city and
  merges the caller's options over the default `path`. The resource it requests is
  `path + schemeId + ".ru.svg"`.
- **Decimal** (`decimal.dfy`): how an integral id is written when it is concatenated to a string.
- **Wrappers** (`wrappers.dfy`): `Option`, `Result` and `Outcome`. They stand for `undefined` and
  for the exceptions the code throws.

Where the code throws (there is no `<metadata>` child, its JSON is malformed, or there is no
`transform-wrapper` element), the methods return a `Failure`/`Fail` and leave state exactly as
the code leaves it at the throw. `setScale` records the new scale before it looks up the
transform, so the scale is recorded even when that lookup throws.

An unknown city is not an error: it resolves to `undefined`, and that ends up in the resource
path as the text `undefined`. The one place the model departs from the code is the alias lookup
for names that a plain JavaScript object inherits (see "## Findings");
`SchemeTable.AsWrittenAgreesOutsidePrototype` proves that the two lookups agree on every other name.

## Model

| member | source | states |
|---|---|---|
| `SchemeTable.DefaultSchemes` | metro.js:95-159 | the table has five rows, and no two rows share an alias or an id |
| `SchemeTable.IndexAliases` | metro.js:162-165 | the fold's dictionary has a key exactly when the starting dictionary or some row has it |
| `SchemeTable.ResolveAlias` | metro.js:167 | an alias gets an id exactly when some row of the table carries it |
| `SchemeTable.LookupAsWritten` | metro.js:165-167 | the plain-object lookup gives the stored id for an own key, the inherited member of that name for an Object.prototype name, and `undefined` otherwise |
| `SchemeTable.IndexAliasesAt` | metro.js:162-165 | in the fold, an entry that no later entry overrides puts its own id under its alias |
| `SchemeTable.IndexAliasesUntouched` | metro.js:162-165 | the fold leaves the dictionary's value for an alias no entry carries as it was |
| `SchemeTable.ResolveAliasMatchesTable` | metro.js:160-168 | an alias resolves to an id exactly when some row of the table carries it, and then to that row's id |
| `SchemeTable.KnownAliases` | metro.js:95-168 | moscow→1, spb→2, kiev→8, kharkov→9, minsk→13 |
| `SchemeTable.UnknownAliasResolvesToNone` | metro.js:167 | any other alias resolves to no id (`undefined`), not an error |
| `SchemeTable.DistinctAliasesDistinctIds` | metro.js:95-159 | two different known cities (e.g. moscow and minsk) never get the same scheme id |
| `SchemeTable.InheritedAliasIsNotUndefined` | metro.js:161-167 | as written, an alias naming an Object.prototype member yields that inherited member, while the own-key lookup gives no id |
| `SchemeTable.AsWrittenAgreesOutsidePrototype` | metro.js:161-167 | for every alias that is not an Object.prototype name, the lookup as written gives the id the own-key lookup gives, and `undefined` where that gives none |
| `SchemeTable.SchemeDirectory.constructor` | metro.js:160-161 | the alias cache starts empty |
| `SchemeTable.SchemeDirectory.GetIdByAlias` | metro.js:160-168 | the first call fills the cache with the fold of the table, a filled cache is never rebuilt, and every call returns the alias's id from the table or none |
| `SchemeDoc.FirstMetadata` | metro.js:73 | finds the first `<metadata>` child, with no `<metadata>` child before it, or reports there is none |
| `SchemeDoc.ReadMetadata` | metro.js:73-74 | reading fails as missing exactly when there is no `<metadata>` child; otherwise the result is the parse of the first `<metadata>` child, failing as malformed when that child does not parse |
| `SchemeDoc.WithoutMetadata` | metro.js:76 | with no `<metadata>` child nothing changes; otherwise exactly the first one is removed, with the children before it and after it shifted into place |
| `SchemeDoc.LookupTransform` | metro.js:86 | the lookup succeeds exactly when the `transform-wrapper` transform exists, and otherwise fails as missing |
| `SchemeDoc.RemoveMetadataAt` | metro.js:76 | removing any one `<metadata>` child keeps every non-metadata child, in order, and lowers the metadata count by one |
| `SchemeDoc.WithoutMetadataKeepsArtwork` | metro.js:76 | removing the metadata child removes exactly one `<metadata>` element and keeps every non-metadata child, in order |
| `SchemeDoc.Scheme.constructor` | metro.js:64-67 | a fresh scheme has empty caches and scale 1 |
| `SchemeDoc.Scheme.GetMetaData` | metro.js:69-80 | every call returns the parse of the node's original first `<metadata>` child; only the first successful call removes that child; later calls change nothing |
| `SchemeDoc.Scheme.GetTransform` | metro.js:84-89 | returns the `transform-wrapper` transform or fails when it is missing; a filled cache is kept |
| `SchemeDoc.Scheme.SetScale` | metro.js:90-93 | records the scale (even when the transform lookup then fails) and fills the transform cache |
| `SchemeOverlay.FitScale` | metro.js:40-48 | the fit scale is never negative |
| `SchemeOverlay.FitScaleFits` | metro.js:40-48 | at the fit scale the artwork fits the pane in both dimensions and fills it in at least one |
| `SchemeOverlay.FitScaleIsLargest` | metro.js:40-48 | a uniform scale fits the pane exactly when it is at most the fit scale |
| `SchemeOverlay.SchemeLayer.constructor` | metro.js:5-10 | the layer wraps the given scheme and has no scale yet |
| `SchemeOverlay.SchemeLayer.CalculateFitScale` | metro.js:40-48 | the fit scale for the pane's client size from the scheme's metadata, or the metadata error |
| `SchemeDoc.TransformOutcome` | metro.js:92 | `setScale` completes exactly when the `transform-wrapper` transform exists, and otherwise fails as missing |
| `SchemeOverlay.SchemeLayer.Update` | metro.js:49-58 | the node's width and height become the layer scale times the native size, and the scheme's scale equals the layer's |
| `SchemeOverlay.SchemeLayer.OnAddToMap` | metro.js:37-38 | on success the layer's scale is the fit scale, the node is sized at it and the scheme records it, and the transform cache is filled; when the metadata fails, nothing but the metadata step has happened |
| `SchemeOverlay.FitSizeFills` | metro.js:37-58 | a node sized at the fit scale times the native size fits the pane in both dimensions and fills it in at least one |
| `Decimal.DecimalText` | metro.js:214 | an id is written as a non-empty run of decimal digits with no leading zero |
| `Decimal.DecimalRoundTrip` | metro.js:214 | reading the written digits back gives the id |
| `Decimal.DecimalTextInjective` | metro.js:214 | different ids are written differently |
| `Transport.DefaultOptions` | metro.js:172-174 | the defaults hold exactly the key `path`, set to `/node_modules/metro-data/` |
| `Transport.IdText` | metro.js:214 | an id is written as decimal digits that read back as the id; no id is written `undefined` |
| `Transport.Extend` | metro.js:172-174 | the merged options have every key of both, the caller's value winning |
| `Transport.EffectivePath` | metro.js:172-174 | the effective path is the caller's `path` when given and `/node_modules/metro-data/` otherwise |
| `Transport.ResourceUrl` | metro.js:214 | the URL is the path, then the id text, then `.ru.svg` |
| `Transport.IdTextInjective` | metro.js:214 | different ids, or an id and `undefined`, give different texts |
| `Transport.ResourceUrlInjective` | metro.js:214 | under one path, two URLs are equal only if their ids are |
| `Transport.DistinctCitiesDistinctResources` | metro.js:171-214 | maps for two different known cities request different resources |
| `Transport.TransportMap.constructor` | metro.js:170-174 | the scheme id is the city's id from the table, and the options are the caller's merged over the default path |
| `Transport.TransportMap.GetSchemeId` | metro.js:188-190 | returns the id resolved from the city at construction |
| `Transport.TransportMap.SchemeUrl` | metro.js:214 | the requested resource is the effective path, the city's id and `.ru.svg` |

## Findings

| source | as written | input that shows it | evidently intended | confidence | as-written member | corrected member |
|---|---|---|---|---|---|---|
| metro.js:161-167 | the alias dictionary is a plain object literal, so looking up a key it does not own falls through to Object.prototype | `getIdByAlias('constructor')` yields the `Object` function, not `undefined` (same for `toString`, `__proto__`, …) | an alias that is not in `DEFAULT_SCHEMES` resolves to `undefined` | not executed; follows from JavaScript property lookup | `SchemeTable.InheritedAliasIsNotUndefined` | `SchemeTable.UnknownAliasResolvesToNone` |

The rest of the model (`SchemeDirectory.GetIdByAlias`, `TransportMap`) uses the corrected
own-key lookup `ResolveAlias`.

## Left out

- SchemeDirectory.GetIdByAlias: returns no id for names inherited from Object.prototype (`constructor`, `toString`, `__proto__`, …), where metro.js:167 returns the inherited member. It uses the corrected own-key lookup of the "## Findings" row; `SchemeTable.LookupAsWritten` models the lookup as written.
- SchemeOverlay.SchemeLayer.OnAddToMap: its ensures say the node is sized at the fit scale (`SizedTo`), not that the node then fits and fills the pane. That consequence is stated once, over the same values, by `SchemeOverlay.FitSizeFills`, because the nonlinear real arithmetic inside the method's own proof is too costly for the solver.
- TransportMap.constructor: resolves the city with the same corrected lookup, so for those names its scheme id is none rather than the inherited member.
- `_loadScheme`'s XMLHttpRequest, its `readyState`/`status` handling and the vow Deferred (metro.js:191-218) are network I/O and asynchrony. Only the URL it opens is modelled.
- `DOMParser` and `JSON.parse` (metro.js:74, 201) are foreign parsers. A `<metadata>` child carries its parsed value, or none when parsing throws. That value is just the native width and height.
- `getElementsByTagName` searches all descendants, but only direct children of the root are modelled. So the model does not cover a nested `<metadata>`. For that input `removeChild` throws after the cache has already been set.
- `if (!this._metadata)` would parse again if the JSON gave a falsy value. Metadata is a record here, so this case does not arise.
- Metadata width and height are positive reals. The JavaScript division by a zero size (`Infinity`/`NaN`) and IEEE rounding of the quotients and products are not modelled.
- `SchemeLayer.Update`: the style is written as the strings `scale * width + 'px'`. The model keeps the numbers and leaves out their formatting.
- `_createMap`, the Cartesian projection, panes, `map.layers.add`, the `zoomchange` listener and the DOM elements `onAddToMap` creates (metro.js:20-36, 177-185, 220-247) are map SDK and DOM plumbing. The pane's `clientWidth`/`clientHeight` are parameters.
- The absolute-positioning style set by the `SchemeLayer` constructor (metro.js:11-18) is layout only. `getNode` and `getPane` (metro.js:59-61, 81-83) are plain accessors; `getNode` is the `node` field.
- The transform's own `setScale` (metro.js:92) is a call into the SVG DOM. The model keeps only the scale the `Scheme` records.
- `ymaps.createTransportMap` and `ymaps.ready` (metro.js:4, 250-258) are asynchronous bootstrapping. The container and the constructor's load promise are not modelled.
- The factory calls `new TransportMap(alias, container)` with no options (metro.js:254). Through that public entry point the path is therefore always `/node_modules/metro-data/`; the caller-path branch of `Transport.EffectivePath` is reached only by calling the constructor directly.
- The table's `mapId`, `regionId`, `parentRegionId`, `localizedNames` and `defaultLang` fields have no behaviour and are not modelled.
- Option values are strings. A non-string `path` would change what `+` does in JavaScript.
- `Decimal.DecimalText` covers the integral ids of the table. The exponent form that JavaScript uses for numbers of 10^21 and above is not modelled.
- A station registry (select, deselect, getSelection, search, each, filter), selection events and their bubbling are exercised by test.js:232-373, but metro.js has no implementation of them, so they are not part of this model.
