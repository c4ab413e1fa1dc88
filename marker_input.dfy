/**
 * The per-marker editing surface: two text inputs, latitude and longitude,
 * each with a label tied to it by id. The inputs show local drafts; every
 * keystroke sets the draft and hands the debounced setter a copy of the
 * marker prop with the edited coordinate replaced, together with the
 * component's index.
 */
module MarkerInput {
  import opened Types

  /** The marker `m` with coordinate `c` set to `text`, as the object spread builds it. */
  function WithCoordinate(m: Marker, c: Coordinate, text: string): (r: Marker)
    ensures Get(r, c) == text
    ensures Get(r, Other(c)) == Get(m, Other(c))
  {
    match c
    case Lat => m.(lat := text)
    case Lng => m.(lng := text)
  }

  /** Setting a coordinate to the text it already has gives back the same marker. */
  lemma WithCoordinateUnchanged(m: Marker, c: Coordinate)
    ensures WithCoordinate(m, c, Get(m, c)) == m
  {
  }

  /** One call handed to the debounced `setMarker(marker, index)`. */
  datatype SetMarkerCall = SetMarkerCall(marker: Marker, index: nat)

  // ---------------------------------------------------------------------------
  // Input ids and labels.
  // ---------------------------------------------------------------------------

  /** The character of the decimal digit `d`. */
  function DecimalDigit(d: nat): (ch: char)
    requires d < 10
    ensures IsDigit(ch) && DigitValue(ch) == d
  {
    ('0' as int + d) as char
  }

  /**
   * The decimal text of `n`, as a template literal renders a non-negative
   * integer: digits only, and a leading '0' only for zero itself.
   */
  function NatToString(n: nat): (s: string)
    ensures 1 <= |s| && AllDigits(s)
    ensures n < 10 <==> |s| == 1
    ensures s[0] == '0' <==> n == 0
    decreases n
  {
    if n < 10 then [DecimalDigit(n)]
    else NatToString(n / 10) + [DecimalDigit(n % 10)]
  }

  /** The decimal text of `n` reads back as `n`. */
  lemma {:induction false} NatToStringValue(n: nat)
    ensures DigitsValue(NatToString(n)) == n
    decreases n
  {
    var s := NatToString(n);
    if n < 10 {
      assert s[..0] == [];
    } else {
      NatToStringValue(n / 10);
      assert s[..|s| - 1] == NatToString(n / 10);
    }
  }

  /** Different numbers have different decimal texts. */
  lemma NatToStringInjective(a: nat, b: nat)
    ensures NatToString(a) == NatToString(b) ==> a == b
  {
    NatToStringValue(a);
    NatToStringValue(b);
  }

  const LatPrefix := "marker-lat-"
  const LngPrefix := "marker-lng-"

  /** The id of the latitude input of the marker input at `index`: the prefix, then `index` in decimal with no leading zero. */
  function LatId(index: nat): (id: string)
    ensures |id| > |LatPrefix| && id[..|LatPrefix|] == LatPrefix
    ensures AllDigits(id[|LatPrefix|..]) && DigitsValue(id[|LatPrefix|..]) == index
    ensures id[|LatPrefix|] == '0' ==> |id| == |LatPrefix| + 1
  {
    NatToStringValue(index);
    assert (LatPrefix + NatToString(index))[|LatPrefix|..] == NatToString(index);
    assert (LatPrefix + NatToString(index))[|LatPrefix|] == NatToString(index)[0];
    LatPrefix + NatToString(index)
  }

  /** The id of the longitude input of the marker input at `index`: the prefix, then `index` in decimal with no leading zero. */
  function LngId(index: nat): (id: string)
    ensures |id| > |LngPrefix| && id[..|LngPrefix|] == LngPrefix
    ensures AllDigits(id[|LngPrefix|..]) && DigitsValue(id[|LngPrefix|..]) == index
    ensures id[|LngPrefix|] == '0' ==> |id| == |LngPrefix| + 1
  {
    NatToStringValue(index);
    assert (LngPrefix + NatToString(index))[|LngPrefix|..] == NatToString(index);
    assert (LngPrefix + NatToString(index))[|LngPrefix|] == NatToString(index)[0];
    LngPrefix + NatToString(index)
  }

  /**
   * Input ids are unique on the page: two latitude (or two longitude) ids are
   * equal exactly when the indices are, and no latitude id is a longitude id.
   */
  lemma IdsUnique(i: nat, j: nat)
    ensures LatId(i) == LatId(j) <==> i == j
    ensures LngId(i) == LngId(j) <==> i == j
    ensures LatId(i) != LngId(j)
  {
    assert LatId(i)[8] == LatPrefix[8] && LngId(j)[8] == LngPrefix[8];
  }

  /** A labelled text input: its label text, the label's `htmlFor`, its id and its shown value. */
  datatype Control = Control(caption: string, htmlFor: string, inputId: string, value: string, required: bool)

  // ---------------------------------------------------------------------------
  // The component.
  // ---------------------------------------------------------------------------

  /**
   * One mounted marker input. `marker` and `index` are its props; `markerLat`
   * and `markerLng` are its local drafts; `sent` lists, in order, the calls
   * handed to the debounced setter.
   */
  class MarkerInput {
    var marker: Marker
    const index: nat
    var markerLat: string
    var markerLng: string
    var sent: seq<SetMarkerCall>

    /** Mounting: the drafts start from the prop's coordinates. */
    constructor (marker: Marker, index: nat)
      ensures this.marker == marker && this.index == index
      ensures markerLat == marker.lat && markerLng == marker.lng
      ensures sent == []
    {
      this.marker := marker;
      this.index := index;
      markerLat := marker.lat;
      markerLng := marker.lng;
      sent := [];
    }

    /** The two labelled inputs, latitude first. */
    function Controls(): (cs: seq<Control>)
      reads this
      ensures |cs| == 2
      ensures cs[0].inputId == LatId(index) && cs[1].inputId == LngId(index)
      ensures forall k | 0 <= k < 2 :: cs[k].htmlFor == cs[k].inputId && cs[k].required
      ensures cs[0].value == markerLat && cs[1].value == markerLng
    {
      [ Control("Latitude", LatId(index), LatId(index), markerLat, true),
        Control("Longitude", LngId(index), LngId(index), markerLng, true) ]
    }

    /**
     * A keystroke in the latitude input: the latitude draft becomes the typed
     * text, and the setter is handed the marker prop with only its latitude
     * replaced, and this component's index.
     */
    method OnLatChange(newLat: string)
      modifies this
      ensures marker == old(marker) && markerLat == newLat && markerLng == old(markerLng)
      ensures sent == old(sent) + [SetMarkerCall(WithCoordinate(marker, Lat, newLat), index)]
    {
      markerLat := newLat;
      sent := sent + [SetMarkerCall(marker.(lat := newLat), index)];
    }

    /** The same for a keystroke in the longitude input. */
    method OnLngChange(newLng: string)
      modifies this
      ensures marker == old(marker) && markerLng == newLng && markerLat == old(markerLat)
      ensures sent == old(sent) + [SetMarkerCall(WithCoordinate(marker, Lng, newLng), index)]
    {
      markerLng := newLng;
      sent := sent + [SetMarkerCall(marker.(lng := newLng), index)];
    }

    /** A re-render with a new marker prop keeps the drafts (state survives re-renders). */
    method Rerender(newMarker: Marker)
      modifies this
      ensures marker == newMarker
      ensures markerLat == old(markerLat) && markerLng == old(markerLng) && sent == old(sent)
    {
      marker := newMarker;
    }
  }

  /**
   * A latitude keystroke followed by a longitude keystroke with no re-render
   * in between: the second call is built from the same marker prop, so it
   * carries the prop's latitude and not the typed one, while the latitude
   * draft shows the typed one.
   */
  method LatThenLng(m: Marker, index: nat, newLat: string, newLng: string)
    returns (calls: seq<SetMarkerCall>, latDraft: string)
    ensures |calls| == 2
    ensures calls[0] == SetMarkerCall(Marker(newLat, m.lng), index)
    ensures calls[1] == SetMarkerCall(Marker(m.lat, newLng), index)
    ensures latDraft == newLat
  {
    var input := new MarkerInput(m, index);
    input.OnLatChange(newLat);
    input.OnLngChange(newLng);
    calls, latDraft := input.sent, input.markerLat;
  }

  /**
   * The same two keystrokes with a re-render in between that passes the first
   * call's marker back as the prop: the second call then carries both edits.
   */
  method LatRerenderLng(m: Marker, index: nat, newLat: string, newLng: string)
    returns (calls: seq<SetMarkerCall>)
    ensures |calls| == 2
    ensures calls[0] == SetMarkerCall(Marker(newLat, m.lng), index)
    ensures calls[1] == SetMarkerCall(Marker(newLat, newLng), index)
  {
    var input := new MarkerInput(m, index);
    input.OnLatChange(newLat);
    input.Rerender(input.sent[0].marker);
    input.OnLngChange(newLng);
    calls := input.sent;
  }
}
