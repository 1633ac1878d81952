/**
 * The application object of guiTest.py, reduced to the state that decides
 * anything: the last predicted class, the prediction text on display, and
 * the map that show_map builds from it.
 */
module App {
  import opened Wrappers
  import opened Classifier
  import opened GeoAnnotator

  /** A folium map: fixed location and zoom, and the markers added to it. */
  class FoliumMap {
    const lat: real
    const lon: real
    const zoomStart: nat
    var markers: seq<Marker>

    constructor (lat: real, lon: real, zoomStart: nat)
      ensures this.lat == lat && this.lon == lon && this.zoomStart == zoomStart
      ensures markers == []
    {
      this.lat := lat;
      this.lon := lon;
      this.zoomStart := zoomStart;
      markers := [];
    }

    /** Marker.add_to(m). */
    method AddMarker(mk: Marker)
      modifies this
      ensures markers == old(markers) + [mk]
    {
      markers := markers + [mk];
    }
  }

  /** The text of the prediction label for a prediction state. */
  function PredictionText(c: Option<Label>): (s: string)
    ensures |s| > |"Prediction: "| && s[..|"Prediction: "|] == "Prediction: "
    ensures c.Some? ==> s[|"Prediction: "|..] == Name(c.value)
  {
    "Prediction: " + match c case None => "None" case Some(l) => Name(l)
  }

  class ImageClassifierApp {
    /** self.predicted_class: None until an image has been classified. */
    var predictedClass: Option<Label>
    /** The text of self.prediction_label. */
    var predictionText: string

    /** The label on display always shows the current prediction. */
    ghost predicate Valid()
      reads this
    {
      predictionText == PredictionText(predictedClass)
    }

    constructor ()
      ensures Valid()
      ensures predictedClass == None
    {
      predictedClass := None;
      predictionText := "Prediction: None";
    }

    /**
     * upload_image, with the chosen path and the classifier's output for
     * that image as parameters. An empty path (the dialog was cancelled)
     * changes nothing; otherwise the image is classified, and a failed
     * classification leaves the state as it was and reports the error.
     */
    method UploadImage(filePath: string, prediction: seq<real>) returns (err: Option<PredictError>)
      requires Valid()
      modifies this
      ensures Valid()
      ensures filePath == "" ==> predictedClass == old(predictedClass) && err == None
      ensures filePath != "" ==>
                match Predict(prediction)
                case Success(l) => predictedClass == Some(l) && err == None
                case Failure(e) => predictedClass == old(predictedClass) && err == Some(e)
      ensures filePath != "" && 0 < |prediction| <= |ClassNames| ==> predictedClass.Some?
    {
      err := None;
      if filePath != "" {
        var r := Predict(prediction);
        match r
        case Success(l) =>
          predictedClass := Some(l);
          predictionText := "Prediction: " + Name(l);
        case Failure(e) =>
          err := Some(e);
      }
    }

    /**
     * show_map up to rendering: a fresh map at the fixed centre and zoom,
     * with the marker for the current prediction added, if there is one.
     */
    method ShowMap() returns (m: FoliumMap)
      ensures fresh(m)
      ensures m.lat == CenterLat && m.lon == CenterLon && m.zoomStart == ZoomStart
      ensures m.markers == MarkersFor(predictedClass)
    {
      m := new FoliumMap(CenterLat, CenterLon, ZoomStart);
      var mk := MarkerFor(predictedClass);
      if mk.Some? {
        m.AddMarker(mk.value);
      }
    }
  }

  /** An upload followed by show_map puts the marker of the uploaded image's class on the map. */
  method UploadThenShowMap(app: ImageClassifierApp, filePath: string, prediction: seq<real>)
    returns (m: FoliumMap)
    requires app.Valid()
    requires filePath != "" && Predict(prediction).Success?
    modifies app
    ensures app.Valid()
    ensures m.markers == MarkersFor(Some(Predict(prediction).value))
  {
    var _ := app.UploadImage(filePath, prediction);
    m := app.ShowMap();
  }
}
