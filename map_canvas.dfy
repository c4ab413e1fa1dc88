/**
 * The map canvas: while the map script is loading it shows a placeholder;
 * once loaded it shows the map with one pin per marker and, below it, one
 * marker input per marker, both in the order of the markers. Edits come back
 * through `setMarker`, which copies the markers, overwrites one slot and hands
 * the copy upward.
 */
module MapCanvas {
  import opened Types
  import MarkerInput

  /** The zoom and centre the map opens with. */
  const InitialZoom: nat := 10
  const InitialCenterLat: real := 47.394144
  const InitialCenterLng: real := 0.68484

  /** A pin on the map: its key and the marker's coordinates as typed. */
  datatype Pin = Pin(key: nat, lat: string, lng: string)

  /** The props of one rendered marker input. */
  datatype InputProps = InputProps(key: nat, marker: Marker, index: nat)

  /** What the canvas renders. */
  datatype Canvas =
    | Loading
    | Shown(zoom: nat, centerLat: real, centerLng: real, pins: seq<Pin>, inputs: seq<InputProps>)

  /** The pins of `ms`, one per marker, keyed by its position. */
  function Pins(ms: seq<Marker>): (r: seq<Pin>)
    ensures |r| == |ms|
    ensures forall i | 0 <= i < |ms| :: r[i] == Pin(i, ms[i].lat, ms[i].lng)
    decreases |ms|
  {
    if ms == [] then []
    else
      var last := |ms| - 1;
      Pins(ms[..last]) + [Pin(last, ms[last].lat, ms[last].lng)]
  }

  /** The marker inputs of `ms`, one per marker, each given its marker and position. */
  function Inputs(ms: seq<Marker>): (r: seq<InputProps>)
    ensures |r| == |ms|
    ensures forall i | 0 <= i < |ms| :: r[i] == InputProps(i, ms[i], i)
    decreases |ms|
  {
    if ms == [] then []
    else
      var last := |ms| - 1;
      Inputs(ms[..last]) + [InputProps(last, ms[last], last)]
  }

  /** The markers the canvas works on: a missing prop counts as none. */
  function MarkersOrEmpty(markers: Option<seq<Marker>>): seq<Marker>
  {
    if markers.Some? then markers.value else []
  }

  /** The canvas for the given props; `isLoaded` is the map script loader's flag. */
  function Render(apiKey: string, markers: Option<seq<Marker>>, isLoaded: bool): (c: Canvas)
    ensures !isLoaded <==> c == Loading
    ensures c.Shown? ==> c.zoom == InitialZoom && c.centerLat == InitialCenterLat && c.centerLng == InitialCenterLng
  {
    if !isLoaded then Loading
    else
      var ms := MarkersOrEmpty(markers);
      Shown(InitialZoom, InitialCenterLat, InitialCenterLng, Pins(ms), Inputs(ms))
  }

  /**
   * Once loaded, pins and inputs are both one per marker, in order; with no
   * markers prop there are none of either.
   */
  lemma OnePinAndInputPerMarker(apiKey: string, markers: Option<seq<Marker>>)
    ensures var c := Render(apiKey, markers, true);
      && |c.pins| == |c.inputs| == |MarkersOrEmpty(markers)|
      && (markers.None? ==> c.pins == [] && c.inputs == [])
      && forall i | 0 <= i < |c.inputs| ::
           c.pins[i].key == i && c.inputs[i].index == i && c.inputs[i].marker == MarkersOrEmpty(markers)[i]
  {
  }

  // ---------------------------------------------------------------------------
  // setMarker.
  // ---------------------------------------------------------------------------

  /** The sequence `ms` with slot `index` holding `m` instead. */
  function Replace(ms: seq<Marker>, index: nat, m: Marker): seq<Marker>
    requires index < |ms|
  {
    ms[index := m]
  }

  /** Replacing keeps the length, puts `m` at `index` and changes nothing else. */
  lemma ReplaceSpec(ms: seq<Marker>, index: nat, m: Marker)
    requires index < |ms|
    ensures |Replace(ms, index, m)| == |ms|
    ensures Replace(ms, index, m)[index] == m
    ensures forall j | 0 <= j < |ms| && j != index :: Replace(ms, index, m)[j] == ms[j]
  {
  }

  /** Writing back the value a slot already holds gives the same sequence. */
  lemma ReplaceWithSame(ms: seq<Marker>, index: nat)
    requires index < |ms|
    ensures Replace(ms, index, ms[index]) == ms
  {
  }

  /** Replacing the same slot with the same marker twice is replacing it once. */
  lemma ReplaceIdempotent(ms: seq<Marker>, index: nat, m: Marker)
    requires index < |ms|
    ensures Replace(Replace(ms, index, m), index, m) == Replace(ms, index, m)
  {
  }

  /**
   * `setMarker(marker, index)`: copy the markers into a new array, overwrite
   * slot `index`, and return the copy (the value handed to `setMarkers`).
   * The markers array itself is not written.
   */
  method SetMarker(markers: array<Marker>, marker: Marker, index: nat) returns (newMarkers: array<Marker>)
    requires index < markers.Length
    ensures fresh(newMarkers)
    ensures newMarkers[..] == Replace(markers[..], index, marker)
  {
    newMarkers := new Marker[markers.Length];
    var i := 0;
    while i < markers.Length
      invariant 0 <= i <= markers.Length
      invariant forall k | 0 <= k < i :: newMarkers[k] == markers[k]
    {
      newMarkers[i] := markers[i];
      i := i + 1;
    }
    newMarkers[index] := marker;
  }

  /**
   * Editing coordinate `c` in the marker input at position `i` and applying
   * the resulting call with `setMarker` changes coordinate `c` of marker `i`
   * to the typed text and nothing else: the other coordinate of marker `i`
   * and every other marker stay as they were.
   */
  lemma EditChangesOneCoordinate(ms: seq<Marker>, i: nat, c: Coordinate, text: string)
    requires i < |ms|
    ensures var props := Inputs(ms)[i];
      var call := MarkerInput.SetMarkerCall(MarkerInput.WithCoordinate(props.marker, c, text), props.index);
      && call.index == i
      && var r := Replace(ms, call.index, call.marker);
      && |r| == |ms|
      && Get(r[i], c) == text
      && Get(r[i], Other(c)) == Get(ms[i], Other(c))
      && forall j | 0 <= j < |ms| && j != i :: r[j] == ms[j]
  {
  }
}
