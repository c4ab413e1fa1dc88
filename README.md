# Google Maps block — a Dafny model

This project models the logic of a content block for a brand-guideline
platform that shows a Google map with location markers. The block has four
small pieces of logic, one module each:

- `Settings` (settings.dfy) — the settings schema the host's settings panel
  shows. It holds the field tree with its sections and its switches with `on`
  and `off` children, the default values, the aspect-ratio choices and the
  validation rules. `Visible` says which fields the panel shows for the
  stored switch values. `MatchFixedHeight` is the fixed-height rule
  `^\d+(?:px)?$`. It is proved equal to an independent definition of the
  pattern's language, `InHeightLanguage`.
- `MarkerInput` (marker_input.dfy) — the per-marker latitude/longitude
  editor. It is a class. Its props are `marker` and `index`, its `useState`
  drafts are `markerLat` and `markerLng`, and `sent` logs the calls handed to
  the debounced `setMarker`, in order. It also holds the input ids
  `marker-lat-<index>` and `marker-lng-<index>` and the labels that point at
  them.
- `MapCanvas` (map_canvas.dfy) — the map. It shows a loading placeholder or
  the map, with one pin and one marker input per marker. It also holds
  `setMarker`, which copies the marker array into a fresh array and
  overwrites one slot.
- `GoogleMapsBlock` (google_maps_block.dfy) — the top-level choice between
  the empty state and the map, made on the `apiKey` setting alone.

`Types` (types.dfy) holds `Option`, the `Marker` record and the digit
predicates.

The marker is modelled as the map and the marker input use it: a record of
two strings, `lat` and `lng`. The type declared in src/types.ts (`label`,
`location`) disagrees with that use; the model follows the code.

The map canvas draws its markers from the `markers` prop. The block's
top-level component passes no `markers` and no `setMarkers`, so the map
shows no pins and no inputs, and `setMarker` cannot be reached from it
(`GoogleMapsBlock.MapShowsNoMarkers`).

Each keystroke builds its record from the `marker` prop, not from the other
coordinate's draft. So a latitude edit followed by a longitude edit before
the parent re-renders sends a second record that still carries the old
latitude, while the latitude input shows the new one
(`MarkerInput.LatThenLng`). With a re-render in between, the second record
carries both edits (`MarkerInput.LatRerenderLng`).

## Model

| member | source | states |
|---|---|---|
| `Settings.Schema` | src/settings.ts:3-111 | the declared sections Main, Basics and Layout with their fields, defaults, rules, choices and on/off children, in the declared order |
| `Settings.MatchFixedHeight` | src/settings.ts:82 | the validator, read as the anchored regex reads it: a first digit for `\d+`, then `MatchRest` over further digits and an optional final "px"; it has no contract of its own, and `MatchFixedHeightIff` states its meaning |
| `Settings.MatchFixedHeightIff` | src/settings.ts:82 | the fixed-height validator accepts a string exactly when it is one or more digits '0'..'9' followed by nothing or by exactly "px" at the end of the input |
| `Settings.DigitsWithAndWithoutPx` | src/settings.ts:82 | for a digit string d, the validator accepts d exactly when it accepts d + "px", and both exactly when d is non-empty |
| `Settings.HeightSamples` | src/settings.ts:82 | "500px" and "0" pass; "", "px", signs, a decimal point, spaces, "5PX", "5pxpx" and a trailing newline fail, both for the validator and for the pattern's language |
| `Settings.Validate` | src/settings.ts:50-84 | the height rule accepts a value exactly when it is in the pattern's language; the JSON rule accepts a value exactly when the parser does |
| `Settings.FieldValid` | src/settings.ts:50-84 | a value is valid for a field exactly when it passes every rule of that field's declaration |
| `Settings.FixedHeightFieldRule` | src/settings.ts:74-84 | the rules attached to the fixedHeight field accept exactly the pattern's language |
| `Settings.MapStyleFieldRule` | src/settings.ts:45-62 | the mapStyle field's only rule is the JSON parser's verdict |
| `Settings.UnruledFields` | src/settings.ts:3-111 | every field other than fixedHeight and mapStyle accepts every value |
| `Settings.Visible` | src/settings.ts:20-108 | whether the panel shows a field, found by walking the sections and, at each switch, its `on` children while the switch is on and its `off` children while it is off; no contract of its own, `VisibleByParent` states its meaning |
| `Settings.VisibleByParent` | src/settings.ts:20-108 | a field is shown exactly when it hangs under no switch, or its switch is on for an `on` child and off for an `off` child |
| `Settings.FixedHeightVisibility` | src/settings.ts:68-108 | fixedHeight is shown exactly when customMapFormat is on, formatPreset exactly when it is off, never both |
| `Settings.SwitchedFieldVisibility` | src/settings.ts:20-65 | markerIcon is shown exactly when markerIconEnabled is on, mapStyle exactly when mapStyleEnabled is on |
| `Settings.TopLevelAlwaysVisible` | src/settings.ts:4-73 | apiKey and the four switches are shown for every switch setting |
| `Settings.Lookup` | src/settings.ts:3-111 | a depth-first search of the declared tree; whatever it finds is a field with the requested id |
| `Settings.LookupFindsDeclaration` | src/settings.ts:3-111 | every field id is declared in the schema, and a search of the tree finds that declaration |
| `Settings.Defaults` | src/settings.ts:8-91 | the stored values of a newly inserted block; no contract of its own, `DefaultsMatchSchema` proves them equal to the declared defaults |
| `Settings.DefaultsMatchSchema` | src/settings.ts:3-111 | the initial settings agree field by field with the declared defaults: apiKey '', allowMapControls on, the other three switches off, mapStyle '[]', formatPreset '16to9', no markerIcon or fixedHeight |
| `Settings.DefaultLayout` | src/settings.ts:87-106 | the default '16to9' is one of the three declared choices '16to9', '4to3', '1to1'; with the defaults, formatPreset is shown and fixedHeight, markerIcon and mapStyle are hidden |
| `MarkerInput.WithCoordinate` | src/MarkerInput.tsx:49-74 | the edit record has the typed text in the edited coordinate and the prop's value in the other |
| `MarkerInput.WithCoordinateUnchanged` | src/MarkerInput.tsx:51-73 | typing a coordinate's own text back builds a record equal to the prop marker |
| `MarkerInput.NatToString` | src/MarkerInput.tsx:19-20 | the decimal text of the index: non-empty, digits only, one digit exactly below 10, and a leading '0' only for zero |
| `MarkerInput.NatToStringValue` | src/MarkerInput.tsx:19-20 | the decimal text of n, read back digit by digit, is n |
| `MarkerInput.NatToStringInjective` | src/MarkerInput.tsx:19-20 | different indices render as different decimal texts |
| `MarkerInput.LatId` | src/MarkerInput.tsx:19 | the latitude id is `marker-lat-` followed by digits whose decimal value is the index, with no leading zero, so exactly the decimal text of the index |
| `MarkerInput.LngId` | src/MarkerInput.tsx:20 | the longitude id is `marker-lng-` followed by digits whose decimal value is the index, with no leading zero, so exactly the decimal text of the index |
| `MarkerInput.IdsUnique` | src/MarkerInput.tsx:19-20 | two latitude ids, or two longitude ids, are equal exactly when their indices are; no latitude id equals a longitude id |
| `MarkerInput.MarkerInput.Controls` | src/MarkerInput.tsx:32-78 | the latitude and longitude inputs have ids `marker-lat-<index>` and `marker-lng-<index>`; each label's htmlFor equals its input's id; each input shows its draft and is required |
| `MarkerInput.MarkerInput.constructor` | src/MarkerInput.tsx:18-22 | mounting starts both drafts from the prop marker and has sent nothing |
| `MarkerInput.MarkerInput.OnLatChange` | src/MarkerInput.tsx:49-52 | the latitude draft becomes the typed text, the longitude draft and the prop stay, and one call is sent: the prop marker with only lat replaced, with the component's index |
| `MarkerInput.MarkerInput.OnLngChange` | src/MarkerInput.tsx:71-74 | the same for the longitude input |
| `MarkerInput.MarkerInput.Rerender` | src/MarkerInput.tsx:18-22 | a re-render with a new marker prop keeps both drafts and the sent calls |
| `MarkerInput.LatThenLng` | src/MarkerInput.tsx:49-74 | a lat edit then a lng edit without a re-render sends (newLat, prop lng) and then (prop lat, newLng), while the lat draft shows newLat |
| `MarkerInput.LatRerenderLng` | src/MarkerInput.tsx:49-74 | with a re-render passing the first call's marker back, the first call carries (newLat, prop lng) and the second carries both edits |
| `MapCanvas.Pins` | src/Map.tsx:33-35 | one pin per marker, in order, keyed by its position, carrying that marker's coordinates |
| `MapCanvas.Inputs` | src/Map.tsx:37-39 | one marker input per marker, in order, given that marker and its position as index |
| `MapCanvas.MarkersOrEmpty` | src/Map.tsx:13 | the markers the canvas works on: the prop, or none when it is missing (the `markers = []` default); no contract of its own, used by `OnePinAndInputPerMarker` |
| `MapCanvas.Render` | src/Map.tsx:13-41 | the placeholder exactly while the map script is not loaded; otherwise the map at zoom 10 and the fixed initial centre |
| `MapCanvas.OnePinAndInputPerMarker` | src/Map.tsx:13-39 | once loaded, the numbers of pins and of inputs both equal the number of markers, one per index in order; a missing markers prop gives none |
| `MapCanvas.Replace` | src/Map.tsx:25-26 | the markers with one slot overwritten, the value `setMarker` hands upward; no contract of its own, `ReplaceSpec` states what it keeps and changes |
| `MapCanvas.ReplaceSpec` | src/Map.tsx:24-27 | replacing slot index keeps the length, puts the marker at index and leaves every other slot unchanged |
| `MapCanvas.ReplaceWithSame` | src/Map.tsx:25-26 | writing back a slot's own value gives the same sequence |
| `MapCanvas.ReplaceIdempotent` | src/Map.tsx:25-26 | the same setMarker applied twice equals applying it once |
| `MapCanvas.SetMarker` | src/Map.tsx:24-28 | the result is a fresh array whose contents are the markers with slot index replaced; the input array is not written |
| `MapCanvas.EditChangesOneCoordinate` | src/Map.tsx:24-39 | editing coordinate c in marker input i and applying the call with setMarker changes only coordinate c of marker i, to the typed text |
| `GoogleMapsBlock.HasApiKey` | src/GoogleMapsBlock.tsx:17 | whether the stored key counts as set for `!blockSettings.apiKey`: present and not empty; no contract of its own, `GoogleMapsBlock.Render` states the choice it makes |
| `GoogleMapsBlock.Render` | src/GoogleMapsBlock.tsx:14-22 | a missing or empty apiKey gives the empty state; otherwise the map, given exactly that key and no markers |
| `GoogleMapsBlock.DependsOnApiKeyOnly` | src/GoogleMapsBlock.tsx:15-21 | settings with the same apiKey give the same view |
| `GoogleMapsBlock.DefaultsShowEmptyState` | src/GoogleMapsBlock.tsx:17-18 | with the default settings (apiKey '') the block shows the empty state |
| `GoogleMapsBlock.MapShowsNoMarkers` | src/GoogleMapsBlock.tsx:21 | with a key set, the loaded map renders zero pins and zero marker inputs |

## Left out

- src/Places.tsx (address autocomplete and geocoding) is not part of this model. It is asynchronous calls into Google's places service plus console logging, and its suggestion list callback returns nothing.
- src/Block.tsx is not part of this model. It is a leftover component the block does not register, and its colour formatting is floating-point formatting.
- The JSON rule of the mapStyle field calls `JSON.parse`. The model takes the parser as the parameter `parses`.
- The asynchronous `onChange` of the markerIcon field (it asks the host for the uploaded asset's URL) is left out. It is a host call. The field's `mode: AssetInputMode.UploadOnly` (the host's asset picker offers upload only) is host behaviour and is left out with it.
- The 200 ms debounce of `setMarker` comes from an external UI library. The model logs every call handed to it, in order, in `sent`; which of them the timer lets through is not modelled.
- `Number(marker.lat)` and `Number(marker.lng)` for the pin positions are floating-point conversions. Pins carry the coordinate text.
- The map script loader, the map SDK's rendering and the host's settings persistence are external. The loader's state is the parameter `isLoaded` of `MapCanvas.Render`, and persisted settings are the `Settings.Values` passed to `GoogleMapsBlock.Render`.
- Labels, placeholders, helper texts and info texts of the settings fields are display text only. The map style presets and the config constants are static data. The empty state is static markup.
- `MapCanvas.SetMarker`: requires the index to be inside the array. Its only callers are the marker inputs, whose index comes from the same array's `map`. A JavaScript write past the end, which would grow the array, is not modelled.
- Marker add, delete and fit-to-bounds, and the id-keyed marker collection, do not exist in the code. They are not modelled; the model follows the code's array indexed by position.
- The block reads only the API key. It does not read the host's edit mode, persist the map's zoom and centre, or signal print readiness; the code has none of these, so the model has none either.
