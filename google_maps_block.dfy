/**
 * The block itself: it reads the persisted settings and shows the empty
 * state, which asks for an API key, unless an API key is set; with a key it
 * shows the map canvas for that key. The canvas is given no markers.
 */
module GoogleMapsBlock {
  import opened Types
  import Settings
  import MapCanvas

  /** The props handed to the map canvas. */
  datatype MapProps = MapProps(apiKey: string, markers: Option<seq<Marker>>)

  /** What the block renders. */
  datatype View = EmptyState | MapView(props: MapProps)

  /** Whether a stored API key counts as set: present and not the empty string. */
  predicate HasApiKey(apiKey: Option<string>)
  {
    apiKey.Some? && apiKey.value != ""
  }

  /** The block's view for the persisted settings `s`. */
  function Render(s: Settings.Values): (v: View)
    ensures v == EmptyState <==> (s.apiKey == None || s.apiKey == Some(""))
    ensures v.MapView? ==> s.apiKey == Some(v.props.apiKey) && v.props.apiKey != ""
    ensures v.MapView? ==> v.props.markers == None
  {
    if !HasApiKey(s.apiKey) then EmptyState
    else MapView(MapProps(s.apiKey.value, None))
  }

  /** Two settings with the same API key give the same view, whatever else differs. */
  lemma DependsOnApiKeyOnly(s1: Settings.Values, s2: Settings.Values)
    requires s1.apiKey == s2.apiKey
    ensures Render(s1) == Render(s2)
  {
  }

  /** A newly inserted block, with the default settings, shows the empty state. */
  lemma DefaultsShowEmptyState()
    ensures Render(Settings.Defaults()) == EmptyState
  {
  }

  /**
   * With a key set, the canvas it renders, once loaded, has no pins and no
   * marker inputs, since the block passes no markers; so `setMarker` is never
   * reachable from the block.
   */
  lemma MapShowsNoMarkers(s: Settings.Values)
    requires HasApiKey(s.apiKey)
    ensures Render(s).MapView?
    ensures var c := MapCanvas.Render(Render(s).props.apiKey, Render(s).props.markers, true);
      c.Shown? && c.pins == [] && c.inputs == []
  {
    MapCanvas.OnePinAndInputPerMarker(s.apiKey.value, None);
  }
}
