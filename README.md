# Smart Municipality Complaint System: location state, submit gate and weak labels

This project is a Dafny model of the decision logic of the complaint system. The system has two parts:

- **The complaint page (`app.py`).** It keeps the user's chosen location in three session keys: `latitude`, `longitude` and `location_set`. A run of the page script first initialises any missing key with a default. It then applies either the "Set Manual Location" button (which is followed by a rerun) or the last click returned by the map. When "Submit Complaint" is pressed, it checks the complaint and turns it into a result record.
- **The training script (`train_model.py`).** It picks the corpus: the CSV's `REQUEST_TYPE` column with missing cells dropped, or a five-row fallback when the CSV file is absent. It labels each text 1 when it contains "Water", "Leak" or "Pipe" in any letter case, and 0 otherwise.

Files:

- `wrappers.dfy`: the `Option` and `Result` datatypes.
- `submission.dfy` (module `Submission`). This is the submit handler:
  - Python's `str.strip()` over the `str.isspace` character set.
  - The five-character minimum.
  - The location check, which runs second.
  - The result record, including its category.
- `session.dfy` (module `Session`). This is the location state, in three layers:
  - Pure specification functions over a `State` value. A missing key is `None`.
  - Event replay over sequences of events, with the lemmas about them.
  - The class `SessionState`, whose methods update the three keys in place. A run of the script is `SessionState.Run`.
- `labelling.dfy` (module `Labelling`). This is the labelling rule:
  - The left-to-right search of the regular expression.
  - A reference definition: fold the case of the text, then look for a substring.
  - `dropna`, the choice of corpus, the label column, and the fallback rows with their labels.

The classifier is a parameter `predict: string -> int`. Coordinates are `real` values that are only copied. The existence of the CSV file is a `bool` parameter.

Facts about the code that shape the model:

- The code has no coordinate range check, no separate GPS event and no pan- or search-driven centre update. A GPS position reaches the code only as a click on the map. So the events are the initialisation, the manual set and the map data.
- A panned centre never overwrites a confirmed location, because the code never reads the centre at all.
- A click always wins over an earlier confirmation. So does a manual set.

Case-insensitive matching follows Python's `re` with `IGNORECASE`. A text character matches a keyword letter when:

- it is that letter or its ASCII capital;
- it is U+212A KELVIN SIGN and the letter is `k`;
- it is U+0130 or U+0131 and the letter is `i`.

`Labelling.LabelIsAsciiLowerSubstring` shows that for texts without those three characters, the label is plain ASCII lower-casing followed by a substring search.

## Model

| member | source | states |
|---|---|---|
| Submission.TrimStart | app.py:151 | the left half of `strip()`: the result is a suffix of the input, everything removed is whitespace, and the result does not start with whitespace |
| Submission.TrimEnd | app.py:151 | the right half of `strip()`: the result is a prefix, everything removed is whitespace, and the result does not end with whitespace |
| Submission.IsSpace | app.py:151 | the characters `str.strip()` removes, Python's `str.isspace` set; none of them is a digit, an ASCII letter or above U+3000 |
| Submission.Strip | app.py:151 | `complaint.strip()` is the slice left after removing leading and trailing whitespace; the slice neither starts nor ends with whitespace |
| Submission.LongEnough | app.py:151 | the length check `len(complaint.strip()) >= 5`: it needs at least five characters, and holds for any text of five or more that neither starts nor ends with whitespace |
| Submission.LongEnoughIffSpan | app.py:151 | `len(complaint.strip()) >= 5` holds exactly when two non-whitespace characters lie at least four positions apart |
| Submission.Category | app.py:167 | the category is "Water Issue" exactly when the prediction is 1, and otherwise "Other Issue" |
| Submission.Submit | app.py:150-168 | the length error is reported exactly when the stripped text is too short, whatever the location flag; the location error is reported exactly when the text passes and the flag is false; on success the record holds the unstripped text, the session's coordinates, and the category of the prediction |
| Submission.SubmitShortText | app.py:151-152 | "hi" is refused as too short even when a location is set |
| Submission.SubmitPaddedShortText | app.py:151-152 | surrounding whitespace does not count: "  hi  " is refused as too short |
| Submission.SubmitWithoutLocation | app.py:153-154 | a valid text without a set location is refused for the location |
| Submission.SubmitKeepsUnstrippedText | app.py:163-164 | " leaks " is accepted and the record keeps it unstripped |
| Session.AfterInit | app.py:23-28 | after the guards every key is present; a key that was present keeps its value; a missing key gets 20.5937, 78.9629 or False |
| Session.AfterMapData | app.py:132-136 | no map data, or no last click, leaves the keys as they are; a last click sets the keys to its `lat`, its `lng` and True |
| Session.InitIdempotent | app.py:23-28 | initialising twice equals initialising once; an initialised state is unchanged by the guards |
| Session.Step | app.py:23-136 | per event: the flag becomes true exactly on a manual set or a map click, and never leaves true; it becomes false only through the guard on a missing key; a confirming event sets exactly its coordinates; any other event leaves an initialised state unchanged |
| Session.ReplayAppend | app.py:23-136 | replaying one sequence of events and then another equals replaying their concatenation, so successive runs compose |
| Session.LocationSetMonotone | app.py:50 | once `location_set` is true, no sequence of events makes it anything else |
| Session.LocationSetIffConfirmed | app.py:47-136 | after any sequence of events the flag is true exactly when it was true before or some event confirmed a location |
| Session.LocationSetFalseIff | app.py:27-28 | after any sequence of events the flag is false exactly when nothing confirmed a location and the flag was false before, or was missing and the initialisation ran |
| Session.LastConfirmationWins | app.py:47-136 | the last confirming event decides the coordinates and sets the flag, whatever came before it |
| Session.NonConfirmingKeepsState | app.py:132-133 | map data without a last click, and re-initialisation, leave an initialised state exactly as it was |
| Session.RunEvents | app.py:23-136 | a run first initialises the keys and then meets one more event: the manual set when its button was pressed, otherwise the map data; that event confirms a location exactly when the button was pressed or the map data holds a last click |
| Session.Outcome | app.py:47-168 | a run ends in the rerun exactly when "Set Manual Location" was pressed; a finished run carries a submit result exactly when "Submit Complaint" was pressed |
| Session.AfterRun | app.py:23-136 | a run's effect on the keys is the replay of its events (initialisation, then the manual set or else the map data), and leaves every key present |
| Session.SubmitSeesClickOfSameRun | app.py:132-168 | a submit in the run that carries a click is accepted exactly when the text is long enough, with the clicked coordinates |
| Session.SubmitWithoutConfirmationRefused | app.py:153-154 | with no confirmation so far and no click in this run, a valid text is refused for its location |
| Session.ClickInNextRunReplacesManualSet | app.py:47-136 | two successive runs, a manual set and then a run whose map data still holds a last click, end with the clicked coordinates: the manual location is replaced |
| Session.SessionState.constructor | app.py:23 | a new session holds none of the three keys |
| Session.SessionState.InitializeKeys | app.py:23-28 | the guards update the keys in place as `AfterInit` says, and leave all three present |
| Session.SessionState.SetManualLocation | app.py:47-50 | the keys become the entered latitude and longitude and True, whatever they were |
| Session.SessionState.UpdateFromMap | app.py:132-136 | a click sets the keys to its `lat`, its `lng` and True; no map data, or no last click, changes nothing |
| Session.SessionState.SubmitComplaint | app.py:150-168 | the submit handler gives `Submit` of the current keys and modifies nothing |
| Session.SessionState.Run | app.py:23-168 | a run updates the keys as its events say; a manual set ends in a rerun without submitting; otherwise a pressed submit sees the keys as the map data left them |
| Labelling.Label | train_model.py:32-34 | every label is 0 or 1, and a missing cell is labelled 0 |
| Labelling.SearchFindsOccurrence | train_model.py:33 | the left-to-right search finds a keyword exactly when it matches, letter by letter, at some position |
| Labelling.CharMatches | train_model.py:33 | the case-insensitive letter test: a character matches a lower-case keyword letter exactly when its case fold is that letter (ASCII capitals, U+212A for k, U+0130 and U+0131 for i) |
| Labelling.Search | train_model.py:32-34 | the regular-expression scan for one alternative from the left: it finds nothing in a text shorter than the keyword, and succeeds when the keyword matches at the first position; `SearchFindsOccurrence` gives the full characterisation |
| Labelling.SearchIsFoldedSubstring | train_model.py:33 | the search for a keyword agrees with substring search in the case-folded text |
| Labelling.LabelSpec | train_model.py:32-34 | the label is 1 exactly when the case-folded text contains "water", "leak" or "pipe", and 0 exactly when it contains none |
| Labelling.LabelIsAsciiLowerSubstring | train_model.py:32-34 | for text without U+212A, U+0130 and U+0131, the label is 1 exactly when the ASCII-lower-cased text contains a keyword |
| Labelling.LabelIgnoresCase | train_model.py:33 | changing the case of any ASCII letters never changes the label |
| Labelling.SubstringExamples | train_model.py:33 | matching is by substring, not by word: "Pipeline", "Waterfall", "LEAKING tap" and "LEA" followed by the Kelvin sign are all labelled 1 |
| Labelling.NoMatchAtCandidates | train_model.py:33 | a keyword is not found when every position that matches its first letter differs from it at some later letter |
| Labelling.DropNa | train_model.py:17 | `dropna()` keeps exactly the present cells; its length equals the column's exactly when no cell is missing |
| Labelling.DropNaAppend | train_model.py:17 | `dropna()` keeps the order of the rows |
| Labelling.Corpus | train_model.py:15-30 | with the CSV file the corpus is the column without its missing cells; without it, the corpus is the fallback rows |
| Labelling.Labels | train_model.py:32-34 | one label per text, in the same order |
| Labelling.LabelsSpec | train_model.py:32-34 | each label in the column is 0 or 1, and is 1 exactly when its text contains a keyword |
| Labelling.BuildTrainingSet | train_model.py:32-37 | X and y have equal length, X is the chosen corpus, and each y is 0 or 1, being 1 exactly when its X contains a keyword |
| Labelling.FallbackRow0Labelled | train_model.py:23 | "Water leak reported on Elm Street" is labelled 1 |
| Labelling.FallbackRow1Unlabelled | train_model.py:24 | "Broken streetlight at 5th Ave" is labelled 0 |
| Labelling.FallbackRow2Labelled | train_model.py:25 | "Pipe burst causing flooding in basement" is labelled 1 |
| Labelling.FallbackRow3Unlabelled | train_model.py:26 | "Garbage not collected for 2 weeks" is labelled 0 |
| Labelling.FallbackRow4Unlabelled | train_model.py:27 | "Sewer smell and clogged drain near park" is labelled 0 |
| Labelling.FallbackRow1OmitsWater | train_model.py:24 | row 1 does not contain "water" in any case |
| Labelling.FallbackRow1OmitsLeak | train_model.py:24 | row 1 does not contain "leak" in any case |
| Labelling.FallbackRow1OmitsPipe | train_model.py:24 | row 1 does not contain "pipe" in any case |
| Labelling.FallbackRow3OmitsWater | train_model.py:26 | row 3 does not contain "water" in any case |
| Labelling.FallbackRow3OmitsLeak | train_model.py:26 | row 3 does not contain "leak" in any case |
| Labelling.FallbackRow3OmitsPipe | train_model.py:26 | row 3 does not contain "pipe" in any case |
| Labelling.FallbackRow4OmitsWater | train_model.py:27 | row 4 does not contain "water" in any case |
| Labelling.FallbackRow4OmitsLeak | train_model.py:27 | row 4 does not contain "leak" in any case |
| Labelling.FallbackRow4OmitsPipe | train_model.py:27 | row 4 does not contain "pipe" in any case |
| Labelling.FallbackLabels | train_model.py:20-34 | the fallback rows are labelled [1, 0, 1, 0, 0] |
| Labelling.FallbackTrainingSet | train_model.py:15-37 | without the CSV file, X is the five fallback rows and y is [1, 0, 1, 0, 0], whatever the column would have held |

## Left out

- Page rendering is not modelled: titles, markdown, the success, warning, error and info messages, the expanders, the location status line, and the confirmation map (app.py:19-20, 31-46, 51, 54-63, 137-147, 161, 170-184). The model only keeps the fact that `st.rerun()` ends the run after a manual set.
- The map is not modelled: its construction, tile layers, markers, zoom, the geolocation button, the geocoder search box and the layer control (app.py:69-128). Its return value is an input of the run. The widget's own behaviour is not modelled either, including that it keeps returning the last click in later runs. `ClickInNextRunReplacesManualSet` states what the code does when it does.
- Loading and saving the pickled model and vectoriser, reading the CSV and checking that the file exists are I/O (app.py:8-16, train_model.py:8-16, 47-53). File existence is a `bool` input and the column is a sequence of optional strings.
- CSV cells that pandas reads as numbers are left out. `str.contains` with `na=False` labels those 0; the model treats every present cell as a string.
- TF-IDF vectorisation and logistic regression are not modelled (train_model.py:40-44, app.py:157-158). These are floating-point numerics inside a library. The classifier is the parameter `predict`. The library's own errors, such as a corpus with a single class, are not modelled.
- The number inputs' display format and their default of the current session value are not modelled (app.py:43-45). The entered numbers are inputs of the run.
- Coordinate range checks, GPS error events, and pan- or search-driven centre updates are not modelled: `app.py` has none of them.
