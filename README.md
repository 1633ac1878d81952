# Satellite image classification: decision logic

A Tkinter application (`guiTest.py`) loads a satellite image, turns it into a
texture tensor, asks a trained Keras model for a probability vector over four
land-cover classes, shows the predicted class, and on request opens a folium
map of Indonesia with a pin at a representative place for that class.

This project models the deterministic part of that flow:

- `Classifier`: the class table `['Cloudy', 'Desert', 'Green Area', 'Water']`
  as a closed datatype with its index mapping, `np.argmax` with its
  first-occurrence tie-break, and `predict_image` once the model's output
  vector is given, including the two ways it raises (an empty vector, an
  index past the table).
- `GeoAnnotator`: the fixed map centre and zoom and the if/elif chain that
  picks zero or one marker (location, popup caption, icon colour) for the
  predicted class.
- `App`: the application object's `predicted_class` field and the prediction
  text it shows, `upload_image` and `show_map` as methods on a class, and the
  folium map as a class whose marker list `add_to` appends to.

The model's output vector is a parameter (`seq<real>`, the flattened
1×4 array `np.argmax` works on), and so is the file path the dialog returns.
`predicted_class` is an `Option<Label>`: in the source it is `None` or one of
the four table strings, and `show_map` compares it against those strings.
The coordinates are exact decimal `real` constants.

## Model

| member | source | states |
|---|---|---|
| Classifier.Index | guiTest.py:51-52 | every label has a position inside the four-entry table |
| Classifier.LabelAt | guiTest.py:51-52 | the label at table position i has position i, so LabelAt inverts Index |
| Classifier.Name | guiTest.py:51-52 | a label's shown name is the table entry at its position |
| Classifier.IndexRoundTrip | guiTest.py:51-52 | Index followed by LabelAt gives back the label (together with LabelAt's contract, a bijection between labels and positions 0..3) |
| Classifier.NameInjective | guiTest.py:51 | two labels have the same name exactly when they are the same label |
| Classifier.FirstMaxUnique | guiTest.py:48 | a vector has at most one first-maximum index |
| Classifier.ArgMax | guiTest.py:48 | for a non-empty vector the index is in range, its element is at least every element, and every element before it is strictly smaller (first maximum wins ties) |
| Classifier.ArgMaxIsFirstMax | guiTest.py:48 | ArgMax returns k if and only if k is the first maximum |
| Classifier.Predict | guiTest.py:43-53 | fails with EmptyPrediction exactly on an empty vector; otherwise succeeds with the label whose table position is the first maximum, or fails with IndexOutOfRange carrying that first maximum when it is past the table; any vector of length 1 to 4 succeeds |
| Classifier.PredictIsTableLookup | guiTest.py:48-52 | the prediction is the label at position i < 4 if and only if i is the first maximum of the vector |
| Classifier.TieGoesToFirst | guiTest.py:48-52 | [0.1, 0.7, 0.7, 0.1] is classified Desert (tie at 1 and 2 goes to 1) |
| Classifier.StubGivesDesert | guiTest.py:48-52 | [0.1, 0.7, 0.1, 0.1] is classified Desert |
| GeoAnnotator.MarkerFor | guiTest.py:125-142 | no marker exactly for no prediction or Cloudy; every marker has the info-sign icon; red exactly for Desert, green exactly for Green Area, blue exactly for Water |
| GeoAnnotator.MarkerForInjective | guiTest.py:125-142 | a placed marker identifies the prediction it came from |
| GeoAnnotator.MarkersFor | guiTest.py:125-142 | at most one marker is added, none exactly when MarkerFor gives none, and it is MarkerFor's marker |
| GeoAnnotator.StubMarkerIsBromo | guiTest.py:48-52 | classifying [0.1, 0.7, 0.1, 0.1] and annotating the label puts the marker at (-7.92967, 112.96586) |
| App.FoliumMap.constructor | guiTest.py:122 | a new map has the given location and zoom and no markers |
| App.FoliumMap.AddMarker | guiTest.py:130 | add_to appends the marker to the map and changes nothing else |
| App.PredictionText | guiTest.py:115 | the text starts with "Prediction: " and ends with the predicted label's name |
| App.ImageClassifierApp.constructor | guiTest.py:78-85 | the prediction starts out absent and the label shows it (Valid) |
| App.ImageClassifierApp.UploadImage | guiTest.py:93-115 | an empty path changes nothing; otherwise the prediction becomes Predict's label, or on failure stays as it was and the error is returned; the label on display keeps showing the prediction |
| App.ImageClassifierApp.ShowMap | guiTest.py:117-142 | a fresh map at centre (-0.789275, 113.921327), zoom 5, for every prediction, carrying exactly MarkersFor of the current prediction; the prediction is not changed |
| App.UploadThenShowMap | guiTest.py:93-142 | after a successful upload, show_map's markers are those of the uploaded image's class |

## Left out

- `preprocess_image` (guiTest.py:19-41): OpenCV and scikit-image calls whose internals are not part of this model, plus floating-point rescaling; the prediction vector stands in for its result fed through the model.
- Loading the Keras model and `model.predict` (guiTest.py:13, 47): an opaque trained model; its output is a parameter of Predict and UploadImage.
- Failures before the prediction in `upload_image` (an unreadable image in `Image.open` or `cv2.imread`): not modelled; such an exception, like a failed prediction, would leave `predicted_class` unchanged.
- NaN in the model output (`np.argmax` treats it as the maximum): reals have no NaN.
- Tkinter window, widgets, file dialog and image display (guiTest.py:55-111): user interface; only the prediction text is kept.
- Folium rendering, `BytesIO`, writing `map.html` and `webbrowser.open` (guiTest.py:145-154): library rendering and I/O; the map is kept as its centre, zoom and marker list.
