# AudioRecorder: capture-and-search orchestration

This project models the `AudioRecorder` page component of the music retrieval
demo in Dafny. A user records a clip from the microphone or uploads an audio
file, plays or downloads it, and submits it to a retrieval service. The service
returns ranked song identifiers. Each one is enriched with a per-song detail
request, and the surviving results can be re-ranked by final, audio or text
score.

Modules:

- `Wrappers` (`wrappers.dfy`): the `Option` type used for nullable state.
- `Search` (`search.dfy`): ranked entries (`Rank`), song details (`Detail`),
  displayed results (`Candidate`), the outcome of the results request
  (`RetrievalOutcome`), and the assembly the submit handler performs. Assembly
  maps each entry to an optional candidate carrying its three scores, then
  filters out the failures.
- `Ranking` (`ranking.dfy`): the ranking dimensions and the comparator sort
  `(a, b) => b.score - a.score`. That sort is modelled as a stable descending
  insertion sort, `SortByScore`. Lemmas prove it is a permutation, sorted,
  stable and idempotent.
- `Recorder` (`recorder.dfy`): the class `AudioRecorder`. Its fields are the
  component's state hooks. Its methods are the handlers, and each method's
  `modifies` clause names exactly the state hooks that handler sets.

The browser is replaced by inputs and outputs:

- Microphone access becomes a `MicOutcome`.
- The recorder's finished blob and each `URL.createObjectURL` result become
  parameters.
- The results request becomes a `RetrievalOutcome`. It has five cases: the
  request being rejected, a non-success status, an unreadable body or missing
  `result.result`, a `result.result` that is not a list, and a ranked list.
- Per-song enrichment becomes a function from song id to `Option<Detail>`.
- Toasts and the URL that `handleDownload` revokes are returned as outputs.

What the model shows about the code as written:

- The three early `return`s in `handleSubmit` (request rejected, status not ok,
  payload missing) skip the two lines that clear the artifact, so the
  recording or upload is kept. It is cleared only after a successful assembly
  or after an exception caught by the outer `catch`.
- A `result.result` that is truthy but not a list makes the `.map` call throw.
  The outer handler catches it. That path shows "Unexpected error" and clears
  the artifact.
- The searching flag is cleared on every path by the `finally` block.
- Upload checks the prefix `"audio"`, not `"audio/"`.
- Upload is not blocked while a recording is running. A file uploaded during a
  recording can therefore coexist with `isRecording`, so the object invariant
  does not relate those two.
- `handleDownload` revokes the current object URL but keeps it in state.
- A submission installs the results in the server's order, whatever ranking
  dimension is selected at that time.
- `startRecording` itself has no guard against being called while recording.
  Only the Record/Stop button's dispatch (line 235) prevents that.
- Submissions are serialised only by the disabled Search button (line 310).
  No generation tag is kept. `BeginSubmit` and `SettleSubmit` model the two
  halves of one submission on either side of its first `await`.

## Model

| member | source | states |
|---|---|---|
| Search.DropFailures | src/app/page.tsx:167 | the filtered list is never longer than the settled list, and a candidate is in it exactly when it was settled as non-null |
| Search.DropFailuresAppend | src/app/page.tsx:167 | filtering a concatenation is the concatenation of the filtered parts, so the filter keeps order |
| Search.DropFailuresKeepsAll | src/app/page.tsx:167 | the filter keeps the full length exactly when no settled value is null |
| Search.AssembleAppend | src/app/page.tsx:152-168 | assembly distributes over concatenation of the ranked list: results appear in server order, and no entry's outcome affects another's |
| Search.AssembleSingle | src/app/page.tsx:152-164 | one entry yields its detail carrying `score_audio`, `score_text`, `synthesized_score` as audio, text and final score when enrichment succeeds, and nothing when it fails |
| Search.AssembleLength | src/app/page.tsx:152-168 | the result list is at most as long as the ranked list, and exactly as long if and only if every enrichment succeeded |
| Search.AssembleTrace | src/app/page.tsx:152-168 | every displayed result is the detail of some successfully enriched entry, with that entry's three scores |
| Search.AssembleComplete | src/app/page.tsx:152-168 | every successfully enriched entry is displayed with its three scores |
| Search.PartialEnrichmentExample | src/app/page.tsx:152-168 | with entries "a" then "b" where only "a" is found, the results are exactly the candidate for "a" |
| Ranking.SortByScorePermutation | src/app/page.tsx:213-219 | re-ranking yields a permutation of the current results |
| Ranking.SortByScoreSorted | src/app/page.tsx:213-219 | re-ranking yields descending order of the chosen score |
| Ranking.SortByScoreStable | src/app/page.tsx:213-219 | for every score value, the results with that score keep their prior relative order, as `toSorted` is stable |
| Ranking.SortByScoreOfSorted | src/app/page.tsx:213-219 | a list already in descending order of the chosen score is left unchanged |
| Ranking.SortByScoreIdempotent | src/app/page.tsx:213-219 | sorting twice by the same score gives the same list as sorting once |
| Ranking.RankingExample | src/app/page.tsx:213-219 | with final scores 900, 950 and text scores 80, 60, the text ranking puts the 80 first and the final ranking puts the 950 first |
| Recorder.AudioRecorder.constructor | src/app/page.tsx:14-24 | the initial state: not recording, playing or searching; no artifact, no URL, no results; ranking "final" |
| Recorder.AudioRecorder.SubmitEnabled | src/app/page.tsx:310 | the Search button is enabled only with no search in flight and an artifact held, and it is enabled whenever both hold and the URL is not empty |
| Recorder.AudioRecorder.StartRecording | src/app/page.tsx:31-68 | a started recorder sets the recording flag and clears artifact and URL; a microphone failure raises a destructive toast and changes nothing; no window changes nothing |
| Recorder.AudioRecorder.StopRecording | src/app/page.tsx:70-80 | with a recorder, the artifact becomes the blob named "recording.mp3" with its type, the URL is set and recording stops; with no recorder nothing changes |
| Recorder.AudioRecorder.TogglePlayback | src/app/page.tsx:82-92 | the playing flag flips when the audio element exists, and is left alone otherwise |
| Recorder.AudioRecorder.PlaybackEnded | src/app/page.tsx:270-275 | the end of playback clears the playing flag |
| Recorder.AudioRecorder.HandleDownload | src/app/page.tsx:94-109 | with no artifact it does nothing; otherwise the link carries the URL and the artifact's name and a non-empty URL is revoked, and no state changes |
| Recorder.AudioRecorder.HandleFileUpload | src/app/page.tsx:184-202 | a file whose type starts with "audio" becomes the artifact with its URL and a default toast; a missing or rejected file changes nothing, recording flag included, and raises a destructive toast |
| Recorder.AudioRecorder.BeginSubmit | src/app/page.tsx:111-117 | with no artifact nothing changes; otherwise the search is in flight and the results are empty before any network outcome |
| Recorder.AudioRecorder.SettleSubmit | src/app/page.tsx:122-181 | the in-flight flag ends false on every path; failures raise a destructive toast; a ranked list installs exactly the assembled results; early returns keep the artifact, while success and exceptions clear it |
| Recorder.AudioRecorder.HandleSubmit | src/app/page.tsx:111-182 | a submission with no artifact is a no-op; otherwise it ends not searching, with the assembled results on success and none on any failure, and the artifact kept only on the three early returns |
| Recorder.AudioRecorder.HandleRankingScoreChange | src/app/page.tsx:208-222 | the active value changes nothing; a recognised new dimension stably re-sorts the results into a descending permutation; an unrecognised value keeps the results but is stored |

## Left out

- Rendering, styling and the page chrome of `src/app/layout.tsx` are presentation and hold no logic. `src/app/layout.tsx` is not part of this model.
- The button enable flags at lines 234 and 252 are presentation. Only the Search button's flag is kept, as `SubmitEnabled`, because it stands in for the missing in-flight guard.
- Toast titles and descriptions are left out. Only each toast's variant, or its absence, is returned.
- Browser and network plumbing is left out: `getUserMedia` and its constraints, the RecordRTC import and configuration, FormData, `fetch`, `response.json()`, object-URL creation and the DOM anchor. These are abstracted as the inputs and outputs listed above.
- `console.error` logging is left out. It has no effect on state.
- `Promise.all` concurrency is modelled as a map in index order, because `Promise.all` keeps index order whatever the completion order.
- React's asynchronous, batched state updates are modelled as immediate assignments. Between `BeginSubmit` and `SettleSubmit` the UI disables recording, upload and submit.
- The score display formatting at lines 348-350 is left out. It is float-to-string presentation.
- Scores are `real`. Floating-point rounding and NaN are not modelled, and neither are missing or non-numeric score fields.
- `HTMLAudioElement` play and pause are left out. Only the playing flag and its reset on `onEnded` are modelled.
- `triggerFileInput` (lines 204-206) only forwards a click to the hidden file input, so it is left out.
- StartRecording: a throw from the recorder's own start call after it was stored in the ref is folded into `MicFailed`. In that case the model keeps the previous ref rather than the new, unstarted recorder.
- Release of the microphone stream is not modelled. The code never stops the stream's tracks.
