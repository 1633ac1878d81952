/**
 * The marker selection of show_map in guiTest.py: a fixed map centre and
 * zoom, and for the predicted class either no marker or one fixed marker
 * with its location, popup caption and icon colour.
 */
module GeoAnnotator {
  import opened Wrappers
  import opened Classifier

  /** Centre of the map (Indonesia) and its initial zoom; they do not depend on the class. */
  const CenterLat: real := -0.789275
  const CenterLon: real := 113.921327
  const ZoomStart: nat := 5

  datatype Color = Red | Green | Blue

  /** Every marker uses the same icon shape. */
  const InfoSign: string := "info-sign"

  /** A folium marker: location, popup text and icon. */
  datatype Marker = Marker(lat: real, lon: real, popup: string, color: Color, icon: string)

  /**
   * The if/elif chain of show_map: nothing for an absent prediction or
   * for Cloudy, one fixed marker for each other class; the icon colour
   * tells which class the marker stands for.
   */
  function MarkerFor(c: Option<Label>): (m: Option<Marker>)
    ensures m.None? <==> c == None || c == Some(Cloudy)
    ensures m.Some? ==> m.value.icon == InfoSign
    ensures m.Some? ==> (m.value.color == Red <==> c == Some(Desert))
    ensures m.Some? ==> (m.value.color == Green <==> c == Some(GreenArea))
    ensures m.Some? ==> (m.value.color == Blue <==> c == Some(Water))
  {
    match c
    case Some(Desert) =>
      Some(Marker(-7.92967, 112.96586, "Padang Pasir Bromo", Red, InfoSign))
    case Some(GreenArea) =>
      Some(Marker(-6.8573768, 107.6286693, "Taman Hutan Raya Ir.H.Djuanda", Green, InfoSign))
    case Some(Water) =>
      Some(Marker(-5.137524, 112.1586481, "Laut Jawa", Blue, InfoSign))
    case _ =>
      None
  }

  /** Two predictions that place a marker place the same one only if they are the same class. */
  lemma MarkerForInjective(a: Option<Label>, b: Option<Label>)
    requires MarkerFor(a).Some?
    ensures MarkerFor(a) == MarkerFor(b) <==> a == b
  {
  }

  /** The markers show_map adds to the map: at most one. */
  function MarkersFor(c: Option<Label>): (ms: seq<Marker>)
    ensures |ms| <= 1
    ensures ms == [] <==> MarkerFor(c).None?
    ensures forall i :: 0 <= i < |ms| ==> Some(ms[i]) == MarkerFor(c)
  {
    match MarkerFor(c)
    case None => []
    case Some(mk) => [mk]
  }

  /** The whole classification-to-map path for a stub output [0.1, 0.7, 0.1, 0.1]. */
  lemma StubMarkerIsBromo()
    ensures
      var r := Predict([0.1, 0.7, 0.1, 0.1]);
      && r.Success?
      && var m := MarkerFor(Some(r.value));
         m.Some? && m.value.lat == -7.92967 && m.value.lon == 112.96586
  {
    StubGivesDesert();
  }
}
