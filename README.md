# Quick Report: category normaliser and capture modal

This project models two pieces of a civic-issue reporting app in Dafny and proves properties of them.

The first is the back end's `/process` endpoint in `backend-flask/app.py`, module `MediaProcessing`. It routes an upload by its `kind` field. For an image, it then turns the vision model's three reply fields (`issue_title`, `issue_category`, `detailed_description`) into a report. Each field is trimmed. The category is then mapped onto one of seven allowed categories, trying in order:

1. an exact match, ignoring case;
2. for a non-empty raw category, an allowed name contained in it;
3. an ordered keyword scan over title, category and description together;
4. otherwise "Other".

The priority is "high" for Pothole and Traffic Signal and "medium" for every other category. The title falls back to the description.

The title follows Python's precedence at line 153. The expression parses as `(title or description[:80] + "...") if description else "Untitled"`, so a report with a title and an empty description is titled "Untitled". The model keeps that behaviour (`IssueTitle`).

The text "pavement (sidewalk)" in the combined text maps to Pothole whenever neither the exact nor the contained-name stage decides, because Pothole's keyword "pavement" is tried before Sidewalk's group (`PavementSidewalkIsPothole`). As a raw category it contains the name "Sidewalk", so there stage 2 decides Sidewalk first.

Category names are a datatype, `Category`, whose seven values are listed in `AllowedCategories` in the source's order. `Name` gives each value's exact spelling in the JSON answer.

The second is the front end's `FloatingReportModal` component in `user-frontend/src/components/FloatingReportModal.jsx`, module `ReportModal`. It is a class whose fields are the component's state and whose methods are its event handlers. `Valid()` is the invariant that photo and video are never held together. The constructor establishes it from the initial state, and every handler preserves it. So it holds after any sequence of handler calls.

Three behaviours of the code, followed as written:
- Opening the modal again while a stream is held replaces the stream without stopping its tracks. Each grant brings new tracks, numbered from the `tracksCreated` counter. So the old tracks stay in `liveTracks`, are not the new stream's, and survive a later close, which stops only the newer stream.
- `stopRecording` builds the video from the chunks gathered so far and empties the list. Data the recorder delivers after `stop()` arrives as a later `ChunkAvailable` and lands in the emptied list.
- Submitting or closing during a recording leaves `recording` set.

Two checks one might expect are absent from the code, and the model leaves them out too:
- `startRecording` does not check for a stream.
- `handleSubmit` only alerts and resets. It does no upload, no storage hand-off and no navigation.

Inputs standing in for the environment:
- `ModelReply` for the reply of the OpenAI call. A missing or null key reads as "", as the source's `or ""` does.
- `hasFile` and `kind` for the multipart request.
- `grant` for the camera permission outcome: how many tracks the new stream has, or a refusal.
- `frameReady` for whether the preview has a frame to draw.
- `Chunk` for recorder data events.

Object URLs and device tracks are tokens numbered in creation order.

## Model

| member | source | states |
|---|---|---|
| `Text.IsSpace` | backend-flask/app.py:114-116 | the whitespace `str.strip()` removes, on ASCII: blank, tab, newline and carriage return are included, and every such character is a control character or the blank |
| `Text.TrimStart` | backend-flask/app.py:114-116 | the result is a suffix of the input, everything cut from the front is whitespace, and the result does not start with whitespace |
| `Text.TrimEnd` | backend-flask/app.py:114-116 | the result is a prefix of the input, everything cut from the back is whitespace, and the result does not end with whitespace |
| `Text.Strip` | backend-flask/app.py:114-116 | the result is the slice of the input left after removing whitespace at both ends: everything cut is whitespace, and the result neither starts nor ends with whitespace |
| `Text.Lower` | backend-flask/app.py:121-136 | `str.lower()` keeps the length of the string |
| `Text.LowerCharacters` | backend-flask/app.py:121-136 | after lower-casing no upper-case ASCII letter is left, each one becomes its lower-case partner, and every other character is kept |
| `Text.LowerIdempotent` | backend-flask/app.py:121-136 | lower-casing an already lower-cased string changes nothing |
| `Text.Contains` | backend-flask/app.py:129-139 | the `in` test holds only for a pattern no longer than the text, and always for a prefix of the text, the empty pattern included |
| `Text.Take` | backend-flask/app.py:153 | `s[:n]` is the prefix of `s` whose length is the smaller of `n` and the length of `s` |
| `MediaProcessing.Name` | backend-flask/app.py:38-46 | each category's spelling in the allowed list, which the group targets at lines 54-59 also use; no spelling is empty |
| `MediaProcessing.SameIgnoringCase` | backend-flask/app.py:121 | the exact-match test `raw.lower() == cat.lower()`: the canonical spelling passes, and only a text of the name's length can |
| `MediaProcessing.NamesCategory` | backend-flask/app.py:129 | the containment test `cat.lower() in raw.lower()`: every exact match passes it, and only a text at least as long as the name can |
| `MediaProcessing.MentionsAny` | backend-flask/app.py:138-139 | the inner-loop test that some keyword of a group occurs in the text: never for an empty list, always when a keyword starts the text |
| `MediaProcessing.ExactIndex` | backend-flask/app.py:119-124 | the index found is the first category equal to the raw text ignoring case; None exactly when no category matches |
| `MediaProcessing.ContainedIndex` | backend-flask/app.py:128-132 | the index found is the first category whose lower-cased name occurs in the lower-cased raw text; None exactly when none occurs |
| `MediaProcessing.GroupIndex` | backend-flask/app.py:137-144 | the index found is the first keyword group with some keyword in the text; None exactly when no group has one |
| `MediaProcessing.ExactStage` | backend-flask/app.py:118-124 | stage 1 decides exactly when some allowed category equals the raw text ignoring case, and then with a matching category |
| `MediaProcessing.ContainedStage` | backend-flask/app.py:126-132 | stage 2 never decides for an empty raw category; otherwise it decides exactly when some allowed name occurs in the raw text ignoring case, and then with the first such category in list order |
| `MediaProcessing.KeywordStage` | backend-flask/app.py:134-144 | stage 3 decides exactly when some group has a keyword in the text, and then with the target of the first such group in list order |
| `MediaProcessing.CombinedText` | backend-flask/app.py:136 | the lower-cased title, raw category and description, in that order, separated by single spaces |
| `MediaProcessing.MappedCategory` | backend-flask/app.py:118-149 | an exact match always decides the category, and any category other than "Other" is backed by the raw text naming it or by a keyword of its group in the combined text |
| `MediaProcessing.ExactStageAt` | backend-flask/app.py:119-124 | the first allowed category equal to the raw text ignoring case is the one stage 1 picks |
| `MediaProcessing.ContainedStageAt` | backend-flask/app.py:127-132 | for a non-empty raw category, the first allowed category whose name it contains is the one stage 2 picks |
| `MediaProcessing.KeywordStageAt` | backend-flask/app.py:137-144 | the first group with a keyword in the text is the one stage 3 picks |
| `MediaProcessing.MatchExact` | backend-flask/app.py:118-124 | the loop with early exit over the allowed list yields exactly the stage-1 result |
| `MediaProcessing.MatchContained` | backend-flask/app.py:126-132 | the loop runs only for a non-empty raw category and yields exactly the stage-2 result |
| `MediaProcessing.ScanKeywords` | backend-flask/app.py:134-144 | the nested loops over groups and keywords, each left at the first hit, yield the target of the first group that fires |
| `MediaProcessing.MapCategory` | backend-flask/app.py:118-149 | running the three stages in turn with the "Other" fallback yields `MappedCategory` of the trimmed fields |
| `MediaProcessing.MappedCategoryIsAllowed` | backend-flask/app.py:38-46 | whichever stage decides, the category is one of the seven allowed ones; this holds by the `Category` encoding, whose every value is in the allowed list |
| `MediaProcessing.LoweredCategoriesDistinct` | backend-flask/app.py:38-46 | no two allowed categories are equal ignoring case |
| `MediaProcessing.ExactCategoryIsCanonical` | backend-flask/app.py:118-124 | if the trimmed raw category equals an allowed category ignoring case, the report carries that category |
| `MediaProcessing.ContainedCategoryWins` | backend-flask/app.py:126-132 | with no exact match, a non-empty raw category is reported as the first allowed category, in list order, whose name it contains |
| `MediaProcessing.KeywordScanPicksFirstGroup` | backend-flask/app.py:134-144 | when stages 1 and 2 do not apply, the category is the target of the first group, in list order, with a keyword in the lower-cased combined text |
| `MediaProcessing.NoKeywordMeansOther` | backend-flask/app.py:146-148 | when no stage applies, the category is Other |
| `MediaProcessing.PavementSidewalkIsPothole` | backend-flask/app.py:53-60 | when neither stage 1 nor stage 2 decides, combined text containing "pavement (sidewalk)" maps to Pothole, not Sidewalk, because Pothole's "pavement" is tried first |
| `MediaProcessing.EmptyRawMatchesNothing` | backend-flask/app.py:118-132 | an empty raw category decides neither stage 1 nor stage 2 |
| `MediaProcessing.KeywordsAreLong` | backend-flask/app.py:53-60 | every keyword is longer than three characters |
| `MediaProcessing.ShortTextHasNoKeyword` | backend-flask/app.py:53-60 | no keyword occurs in a text of at most three characters |
| `MediaProcessing.EmptyFieldsMapToOther` | backend-flask/app.py:118-149 | three empty fields fall through every stage to "Other" |
| `MediaProcessing.Priority` | backend-flask/app.py:156 | the priority is "high" exactly for Pothole and Traffic Signal, and "medium" otherwise |
| `MediaProcessing.IssueTitle` | backend-flask/app.py:153 | an empty description gives "Untitled" even when a title exists; otherwise the title if non-empty; otherwise the first 80 characters of the description followed by "..."; so the title is never empty |
| `MediaProcessing.Normalised` | backend-flask/app.py:113-157 | the report's category is allowed; its title is never empty, is "Untitled" when the trimmed description is empty, and is the trimmed title when both are present; its description is the trimmed description; and its priority is "high" exactly for Pothole and Traffic Signal, else "medium" |
| `MediaProcessing.UnparsableReplyDefaults` | backend-flask/app.py:102-111 | a reply that does not parse yields title "Untitled", category Other, an empty description and priority "medium" |
| `MediaProcessing.RequestKind` | backend-flask/app.py:34 | the `kind` form field, "image" when it is absent |
| `MediaProcessing.ProcessMedia` | backend-flask/app.py:29-172 | no file gives 400 "No file uploaded"; an absent kind means "image"; an image yields the normalised report, or a 500 with the exception's message when the reply could not be obtained; "video" yields the fixed Video Report; any other kind gives 400 "Unsupported media kind: <kind>" |
| `ReportModal.FloatingReportModal.constructor` | user-frontend/src/components/FloatingReportModal.jsx:6-13 | the initial state: closed, no captures, no stream, not recording, no chunks; the invariant holds |
| `ReportModal.FloatingReportModal.StartCamera` | user-frontend/src/components/FloatingReportModal.jsx:15-28 | a grant becomes the stream, made of newly numbered tracks that go live; the replaced stream's tracks stay live and are disjoint from the new ones; a refusal changes nothing |
| `ReportModal.FloatingReportModal.StopCamera` | user-frontend/src/components/FloatingReportModal.jsx:30-35 | every track of the stream is stopped and the stream is dropped; with no stream it is a no-op, so it is idempotent |
| `ReportModal.FloatingReportModal.CapturePhoto` | user-frontend/src/components/FloatingReportModal.jsx:37-50 | while recording nothing changes; otherwise, given a frame, the photo becomes a newly created URL and the video is dropped |
| `ReportModal.FloatingReportModal.StartRecording` | user-frontend/src/components/FloatingReportModal.jsx:52-64 | with a photo held nothing changes; otherwise `recording` becomes true and captures and chunks are untouched |
| `ReportModal.FloatingReportModal.ChunkAvailable` | user-frontend/src/components/FloatingReportModal.jsx:58-62 | a chunk is appended after the earlier ones exactly when its size is positive |
| `ReportModal.FloatingReportModal.StopRecording` | user-frontend/src/components/FloatingReportModal.jsx:66-74 | with a recorder: recording ends, the video becomes a new URL of the chunks gathered so far, the photo is dropped and the chunk list is emptied; without one, `stop()` throws and nothing changes |
| `ReportModal.FloatingReportModal.HandleSubmit` | user-frontend/src/components/FloatingReportModal.jsx:76-83 | afterwards the modal is closed, both captures and the stream are gone, the stream's tracks are stopped, and no track is live unless an earlier stream was leaked |
| `ReportModal.FloatingReportModal.OpenModal` | user-frontend/src/components/FloatingReportModal.jsx:85-88 | the modal is open and the camera request is made as in StartCamera: new tracks go live, and those of a stream already held stay live |
| `ReportModal.FloatingReportModal.CloseModal` | user-frontend/src/components/FloatingReportModal.jsx:90-95 | afterwards the modal is closed, both captures and the stream are gone, the stream's tracks are stopped, and no track is live unless an earlier stream was leaked |

## Left out

- Flask application setup, CORS and the static and index routes (backend-flask/app.py:9-22, 179-180): framework plumbing.
- The OpenAI request, its prompt, the base64 encoding of the upload and the API key (backend-flask/app.py:14, 63-96): a foreign network call, represented only by its outcome `ModelReply`.
- The `print` logging throughout `process_media`: it has no effect on the answer.
- MediaProcessing.ProcessMedia: the catch-all 500 handler is modelled only for failures while obtaining the model's reply. Reply fields that are not strings, whose `strip()` raises, and a JSON reply that is not an object are outside the model, because every reply field is a string here.
- Text.Strip: strips only ASCII whitespace, not the other Unicode whitespace Python's `str.strip()` removes.
- Text.Lower: lower-cases only ASCII letters, not full Unicode case mapping.
- Browser device APIs (`getUserMedia`, `MediaRecorder`, canvas drawing and `toBlob`, `Blob`, `URL.createObjectURL`, `alert`, `preventDefault`): these are replaced by the inputs `grant`, `frameReady` and `Chunk`, and by numbered URL tokens.
- Binding the stream to the preview element (`srcObject`) and all JSX markup and styling (FloatingReportModal.jsx:97-193). This includes the buttons hidden or dimmed by rendering: the handlers do not enforce that.
- Asynchrony: the camera request, the `toBlob` callback and each recorder event are single atomic steps. React's batching of state updates, and handlers reading the state of the render that created them, are not modelled: each handler reads the current fields.

This `handleSubmit` does not upload the capture, store a draft or navigate to another page, so none of that is part of this model.
