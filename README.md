# truth-weight-app: the model interaction client, in Dafny

A model of the logic in the four screens of the truth-weight-app React client that talk to a remote obesity classifier:

- **Retrain** (`Retrain.dfy`) holds the retrain request lifecycle (`isRetraining`, `retrainStatus`, `modelComparison`). It also holds the per-metric verdict of the old/new model comparison: "No change" within 0.001, otherwise Improved or Decreased by |new − old|, with log loss as the one metric where lower is better.
- **Upload** (`Upload.dfy`) covers file selection and the pre-checks run before any request. A file must be chosen, and its name must end in `.csv` (case-sensitive). It also covers the upload lifecycle (`uploading`, `uploadStatus`, `uploadResult`).
- **Feature importance** (`FeatureImportance.dfy`) has four parts:
  - the fetch lifecycle (`isLoading`, `error`, `featureData`, `hasFetched`);
  - the ordered probe of the response body (`feature_importance`, `data.feature_importance`, `[0].feature_importance`, first truthy wins, and it must be of type object);
  - the stable descending ranking of the entries;
  - the three severity bands of the importance bars.
- **Prediction** (`Prediction.dfy`) has the sixteen-field form and its single-field update, and the table of categorical fields and their options. It also classifies the `/predict` response as a prediction, a missing class, an API error, or a connection failure.
- **Js** (`Js.dfy`) holds the JavaScript semantics these rely on: the values a decoded JSON body can hold, truthiness, `typeof … === 'object'`, property access with and without `?.`, and `Object.entries`.
- **Http** (`Http.dfy`) holds the outcome of one axios request, which takes the place of the network call, and the `{success, message}` alert the retrain and upload screens show.

Each screen is a class whose fields are the screen's `useState` variables. Each async handler is split in two:
- a Start method, the synchronous part before the `await`. It clears what the handler clears and raises the pending flag. The upload handler clears nothing, so a previous result stays shown, and it raises `uploading` only once both pre-checks pass;
- a Finish method, which takes the request's outcome as a parameter.

A button's `disabled` condition becomes a precondition of Start, with one exception. The upload button is disabled when `uploading || !file` (UploadScreen.js:102), but `SubmitUpload` requires only `!uploading`, so that the handler's own no-file branch stays reachable. The decision rules are pure functions, and lemmas relate them to independent statements of what they mean.

Points where the code's behaviour is easy to misread:
- The scores are the first *truthy* candidate, and only then is their type checked. So a truthy non-object at an earlier path hides an object at a later one, and the fetch fails (`FeatureImportance.EarlierNonObjectShadows`).
- The prediction form is posted unchanged, every value still a string. No field is checked by the code; presence is enforced only by the browser's `required` attribute (`Prediction.Complete` names that condition).
- A body without usable scores is reported with the same load-failure message as a network error. The screen's "No feature importance data found." notice can therefore never be shown once a fetch has finished (`FeatureImportance.FeatureImportanceScreen.NoDataNoticeNeverShown`).
- The retrain, upload and feature-importance buttons are disabled while their request is pending, and the model makes that a precondition. The prediction form has no such guard; the model still treats its Start and Finish as one sequential pair (a ghost `pending` flag).

## Model

| member | source | states |
|---|---|---|
| Retrain.PerformanceIndicator | truth-weight-app/src/Screens/RetrainScreen.js:37-56 | No change exactly when \|new − old\| < 0.001. Outside that, Improved exactly when the metric moved in its better direction (up if higher is better, down otherwise), Decreased exactly when it moved the other way. The reported magnitude is \|new − old\| and is at least 0.001 |
| Retrain.FlipOrientation | truth-weight-app/src/Screens/RetrainScreen.js:38-39 | flipping `higherIsBetter` swaps Improved and Decreased with the same magnitude and keeps No change |
| Retrain.ExchangeModels | truth-weight-app/src/Screens/RetrainScreen.js:38-55 | exchanging the old and the new value reverses the verdict |
| Retrain.WorkedVerdicts | truth-weight-app/src/Screens/RetrainScreen.js:37-55 | 0.80 → 0.85 is Improved(0.05) when higher is better and Decreased(0.05) when not; equal values, and a change of 0.0009, are No change |
| Retrain.ComparisonRows | truth-weight-app/src/Screens/RetrainScreen.js:117-146 | the change column has one row per metric, in the order accuracy, precision, recall, F1, log loss. Each row's verdict is the indicator of that metric's old and new scores, with higher better for the first four rows and lower better for log loss |
| Retrain.ComparisonDirections | truth-weight-app/src/Screens/RetrainScreen.js:121-145 | accuracy, precision, recall and F1 count a rise of at least 0.001 as an improvement; log loss counts a fall of at least 0.001 as one |
| Retrain.RetrainScreen.constructor | truth-weight-app/src/Screens/RetrainScreen.js:6-8 | not retraining, no status, no comparison |
| Retrain.RetrainScreen.StartRetrain | truth-weight-app/src/Screens/RetrainScreen.js:10-13 | callable only when not already retraining (the button is disabled, line 79); sets `isRetraining` and clears the status and the comparison |
| Retrain.RetrainScreen.FinishRetrain | truth-weight-app/src/Screens/RetrainScreen.js:15-34 | on success the status is the success message and the comparison is the response data. On failure the status is the failure message and the comparison stays null. Either way `isRetraining` ends false, and a comparison is only ever shown beside a success status |
| Upload.EndsWith | truth-weight-app/src/Screens/UploadScreen.js:29 | a name that ends with the suffix is some prefix followed by exactly that suffix |
| Upload.EndsWithAppended | truth-weight-app/src/Screens/UploadScreen.js:29 | conversely, every prefix followed by the suffix ends with it |
| Upload.CheckUpload | truth-weight-app/src/Screens/UploadScreen.js:20-35 | no file is reported before anything else; a chosen file is rejected exactly when its name does not end in ".csv", and accepted exactly when it does |
| Upload.CheckUploadExamples | truth-weight-app/src/Screens/UploadScreen.js:29-35 | `data.txt`, `data.CSV` and `csv` are rejected; `data.csv` and `.csv` are accepted |
| Upload.UploadScreen.constructor | truth-weight-app/src/Screens/UploadScreen.js:6-9 | no file, not uploading, no status, no result |
| Upload.UploadScreen.SelectFiles | truth-weight-app/src/Screens/UploadScreen.js:11-15 | keeps the first selected file (none if the selection is empty) and clears both the status and the result |
| Upload.UploadScreen.SubmitUpload | truth-weight-app/src/Screens/UploadScreen.js:17-37 | callable when not uploading (line 102). The request is sent exactly when the pre-check accepts, and `uploading` becomes true only then. A missing file or a wrong extension sets the matching failure status. File and result are untouched |
| Upload.UploadScreen.FinishUpload | truth-weight-app/src/Screens/UploadScreen.js:39-65 | on success the status is the success message and the result is the response data. On failure the status is the failure message and the previous result survives. Either way `uploading` ends false |
| Js.Lookup | truth-weight-app/src/Screens/FeatureImportanceScreen.js:22-24 | property lookup gives the value of the first property with that name, and `undefined` when there is none |
| Js.IndexKeyInjective | truth-weight-app/src/Screens/FeatureImportanceScreen.js:41 | distinct array indices have distinct property keys, so the entries of an array never share a key |
| Js.Entries | truth-weight-app/src/Screens/FeatureImportanceScreen.js:41 | `Object.entries` of an array never yields two entries with the same key |
| Js.EntriesIndex | truth-weight-app/src/Screens/FeatureImportanceScreen.js:41 | in `Object.entries` of an array, the entry keyed by index `i` holds the `i`-th element, so the entries agree with index access |
| Js.OptIndexZeroIsFirstEntry | truth-weight-app/src/Screens/FeatureImportanceScreen.js:24 | on a non-empty array, `?.[0]` is the value of the entry keyed "0" |
| FeatureImportance.Candidates | truth-weight-app/src/Screens/FeatureImportanceScreen.js:22-24 | three candidates, stated per kind of body. All three are `undefined` unless the body is an object or an array. For an object they are its own `feature_importance`, the `feature_importance` of its `data` property and the `feature_importance` of its property "0". For an array, the first two are `undefined`, and the third is the `feature_importance` of the first element when that is an object and `undefined` otherwise |
| FeatureImportance.FirstTruthy | truth-weight-app/src/Screens/FeatureImportanceScreen.js:21-25 | the chained `\|\|` yields the first truthy operand; it is truthy exactly when some operand is, and it is `null` otherwise |
| FeatureImportance.Choose | truth-weight-app/src/Screens/FeatureImportanceScreen.js:21-29 | for any list of candidates: a result exactly when some candidate is an array or an object and every earlier one is falsy, and then it is the first truthy candidate |
| FeatureImportance.Normalise | truth-weight-app/src/Screens/FeatureImportanceScreen.js:21-29 | succeeds exactly when the first truthy candidate is an array or an object. It then yields that candidate, and it fails when that candidate is of any other type |
| FeatureImportance.EarlierNonObjectShadows | truth-weight-app/src/Screens/FeatureImportanceScreen.js:21-29 | a truthy non-object at an earlier path makes the fetch fail, whatever the later paths hold |
| FeatureImportance.NormaliseTopLevel | truth-weight-app/src/Screens/FeatureImportanceScreen.js:22 | `{feature_importance: {...}}` yields the inner object |
| FeatureImportance.NormaliseNested | truth-weight-app/src/Screens/FeatureImportanceScreen.js:23 | `{data: {feature_importance: {...}}}` yields the inner object |
| FeatureImportance.NormaliseArrayWrapped | truth-weight-app/src/Screens/FeatureImportanceScreen.js:24 | `[{feature_importance: {...}}]` yields the inner object |
| FeatureImportance.NormaliseFailures | truth-weight-app/src/Screens/FeatureImportanceScreen.js:21-29 | `{}` fails, and so does a string at the first path in front of an object at the second |
| FeatureImportance.Insert | truth-weight-app/src/Screens/FeatureImportanceScreen.js:41 | inserting into a non-increasing list adds exactly that one feature and keeps the list non-increasing |
| FeatureImportance.SortDescending | truth-weight-app/src/Screens/FeatureImportanceScreen.js:41 | the ranking is a permutation of the entries, non-increasing by importance |
| FeatureImportance.InsertKeepsTies | truth-weight-app/src/Screens/FeatureImportanceScreen.js:41 | the inserted feature goes before all features of equal importance |
| FeatureImportance.SortKeepsTies | truth-weight-app/src/Screens/FeatureImportanceScreen.js:41 | the ranking is stable: the features of every importance value keep their original order (section 23.1.3.30 of ECMA-262 requires `Array.prototype.sort` to be stable) |
| FeatureImportance.SortedTiesDetermine | truth-weight-app/src/Screens/FeatureImportanceScreen.js:41 | take two non-increasing lists that agree, at every importance, on which features have it and in what order; the two lists are then equal |
| FeatureImportance.SortDescendingUnique | truth-weight-app/src/Screens/FeatureImportanceScreen.js:41 | any non-increasing, stable reordering of the entries is exactly the ranking |
| FeatureImportance.SortedFeatures | truth-weight-app/src/Screens/FeatureImportanceScreen.js:40-42 | no data gives no rows; otherwise the rows are a permutation of the entries, non-increasing, with ties in property order |
| FeatureImportance.SortedFeaturesExample | truth-weight-app/src/Screens/FeatureImportanceScreen.js:40-42 | `{height: 0.1, age: 0.3}` ranks age before height |
| FeatureImportance.ImportanceBand | truth-weight-app/src/Screens/FeatureImportanceScreen.js:44-52 | danger exactly above 0.15, warning exactly in (0.05, 0.15], success exactly at or below 0.05 |
| FeatureImportance.BandMonotone | truth-weight-app/src/Screens/FeatureImportanceScreen.js:46-52 | a larger importance never gets a milder band |
| FeatureImportance.RankedBandsNonIncreasing | truth-weight-app/src/Screens/FeatureImportanceScreen.js:110-111 | down the ranked table the bands never get more severe |
| FeatureImportance.FeatureImportanceScreen.NoDataNoticeNeverShown | truth-weight-app/src/Screens/FeatureImportanceScreen.js:80 | in every reachable state, the "No feature importance data found." condition is false |
| FeatureImportance.FeatureImportanceScreen.constructor | truth-weight-app/src/Screens/FeatureImportanceScreen.js:5-8 | no data, not loading, no error, not fetched |
| FeatureImportance.FeatureImportanceScreen.StartFetch | truth-weight-app/src/Screens/FeatureImportanceScreen.js:10-14 | callable when not loading (the button is disabled, line 68); sets loading and fetched, and clears error and data |
| FeatureImportance.FeatureImportanceScreen.FinishFetch | truth-weight-app/src/Screens/FeatureImportanceScreen.js:16-37 | if the GET succeeds and normalisation finds the scores, the data is those scores and there is no error. Otherwise there is no data and the error is the load-failure message. Loading ends false, and exactly one of data and error is set |
| Prediction.FormFieldsDistinct | truth-weight-app/src/Screens/PredictionScreen.js:5-22 | the sixteen field names are pairwise distinct |
| Prediction.InitialFormShape | truth-weight-app/src/Screens/PredictionScreen.js:5-22 | the initial form has exactly the sixteen fields, gender … MTRANS, in order, all set to "" |
| Prediction.FieldFormDistinct | truth-weight-app/src/Screens/PredictionScreen.js:5-22 | a form whose keys are the configured fields has no key twice |
| Prediction.SetField | truth-weight-app/src/Screens/PredictionScreen.js:27-29 | after the spread update, the named field holds the new value and every other field's value is unchanged. The key order is kept, and a new name is appended at the end |
| Prediction.SetFieldInPlace | truth-weight-app/src/Screens/PredictionScreen.js:27-29 | updating an existing field (the first with its name, which in a form with distinct keys is the only one) replaces the value at that field's position and nothing else |
| Prediction.IsCategorical | truth-weight-app/src/Screens/PredictionScreen.js:73 | a categorical field is a form field and not one of the numeric inputs |
| Prediction.OptionsIn | truth-weight-app/src/Screens/PredictionScreen.js:62-71 | the options found for a field are those of an entry of the table named by that field |
| Prediction.OptionsOf | truth-weight-app/src/Screens/PredictionScreen.js:62-71 | every categorical field offers a non-empty list of options, none of them the empty string |
| Prediction.CategoricalTable | truth-weight-app/src/Screens/PredictionScreen.js:62-73 | eight categorical fields, all of them form fields, each with non-empty options without ""; a form field is categorical exactly when it is not one of the eight numeric fields (lines 97-119) |
| Prediction.InitialFormIncomplete | truth-weight-app/src/Screens/PredictionScreen.js:102-104 | the initial form does not satisfy the `required` inputs, since "" is the unset placeholder value |
| Prediction.Classify | truth-weight-app/src/Screens/PredictionScreen.js:45-59 | four outcomes, one per condition. A prediction exactly when the response is ok and its body has a truthy `obesity_class`, which is the prediction. A missing-class error exactly when the response is ok and that value is falsy. An API error exactly when the response is not ok. A connection failure when the request failed, when the body is not JSON, or when an ok body is null (the property read throws) |
| Prediction.EmptyClassIsMissing | truth-weight-app/src/Screens/PredictionScreen.js:49-52 | an empty `obesity_class` is reported as missing; a non-empty one is the prediction |
| Prediction.PredictionScreen.constructor | truth-weight-app/src/Screens/PredictionScreen.js:5-25 | the initial form, an empty prediction, no error |
| Prediction.PredictionScreen.HandleChange | truth-weight-app/src/Screens/PredictionScreen.js:27-29 | the form becomes the single-field update of the old form; the fields and their order stay the sixteen configured ones; prediction and error are untouched |
| Prediction.PredictionScreen.StartSubmit | truth-weight-app/src/Screens/PredictionScreen.js:33-42 | clears the error and the prediction; the payload is the form as it stands, every value a string |
| Prediction.PredictionScreen.FinishSubmit | truth-weight-app/src/Screens/PredictionScreen.js:45-59 | a predicted class becomes the prediction and there is no error; any failure becomes the error and the prediction stays empty. Afterwards exactly one of a non-empty prediction and an error is shown |

## Left out

- The network: `axios.get`, `axios.post`, `fetch` and `FormData` are replaced by the outcome each Finish method receives. No URL, header or multipart encoding is modelled.
- Asynchrony and overlapping requests: Start and Finish are sequential steps. A stale response arriving after a newer request, and an update after the screen is unmounted, are not modelled.
- `console.log` and `console.error` calls.
- JSX rendering, CSS class strings, `toFixed(4)`, `toLocaleString()` and the bar width string. The severity band is modelled as an enumeration.
- Error messages of the prediction screen: they embed `JSON.stringify` of the response body. The model keeps the body itself and not its serialisation, because number formatting is out of scope.
- Retrain.ComparisonRows: runs on typed `ModelMetrics`. Reading the metric fields out of the stored response during rendering (which throws if a field is missing) is not modelled.
- FeatureImportance.SortedFeatures: requires every entry's value to be a number. With any other value the comparator `b[1] - a[1]` can produce NaN. The comparator is then inconsistent, and ECMA-262 leaves the resulting order implementation-defined.
- Js.Entries: the properties of an object are taken in the order the value lists them. JavaScript's rule that integer-like keys come first in ascending order is not modelled; the feature names are not integer-like.
- Objects with duplicate keys are outside the model: `Js.Lookup` answers the first property of a name, whereas `JSON.parse` keeps the last. The decoded bodies the screens read have distinct keys.
- Js.Get: models access by a property name that is neither an array index nor a built-in property such as `length`. Those are the only names the screens read that way.
- Numbers are `real`: floating-point rounding, NaN and Infinity are not modelled.
- Browser behaviour: the `required` check on the prediction inputs and the `accept=".csv"` filter of the file picker are enforced by the browser, not by the code. `Prediction.Complete` states the first condition; neither is assumed by the handlers.
- LandingPage.js, VisualizationScreen.js and App.js (static content, an image gallery and routing) are not part of this model.
