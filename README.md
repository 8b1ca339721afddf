# Global MedAssist case workflow, modelled in Dafny

`app.py` simulates one medical-assistance case for a patient picked in a
Gradio dropdown. It looks the patient up. It deletes `case_log.txt` and
the mp3 files directly inside `tts_audio`. It then runs ten agents one after the other over a shared state.
Each agent picks an emotion, a prosody, a voice and an ambient context,
has its line synthesized to an mp3, and appends the line and the audio
path to the state. The transcript is laid out into a PDF and the audio is
joined into one track. The outputs are meant to be zipped together; as
written, the zip step raises on the deleted `case_log.txt` (see
"## Findings").

The model covers the deterministic engine behind that flow:

- `Patients`: the three-patient directory and its case-insensitive lookup.
- `Speech`: the emotion table, the prosody table, the SSML wrapper, the
  voice choice, the context heuristic and the mixing decision. It also
  holds the audio path built from an agent and its random suffix, and
  `SynthesizeSpeech` as a method over the filesystem.
- `Workflow`:
  - `BuildWorkflow` builds the ten-node linear chain with two loops.
  - The graph's execution order is a walk along its edges.
  - The patient's script and the utterance resolution are functions.
  - `CaseState` is a class with the `log` and `audio` sequences.
    Its `Step` method is `agent_node(...).run`, and its `Run` loop executes
    the chain.
- `Pdf`:
  - The cursor logic of `generate_pdf_from_log`: US letter height 792, first
    line at 732, 14 points per line, a new page whenever the cursor has
    dropped below 40, and the cursor then reset to 752.
  - It is written as a function over a pen state and as the `GeneratePdf`
    loop proved equal to it.
- `Simulation`:
  - The bundle member list and the member that makes `zipf.write` raise.
  - The clean-up, the run, and `run_simulation_ui` with its early return
    for an unknown patient.
- `Storage`: the filesystem as the set of paths that exist (a `Disk`
  class). `Text`: lower-casing, decimal digits, base names and `"\n".join`.

The speech service, the retrieval chains and the random suffixes are
inputs:

- A `Rendering` records what is handed to the speech service and whether
  the ambient bed is mixed in; the audio bytes are not modelled.
- A `Retrieval` value holds the two question-answering chains as functions
  from question to answer.
- `suffixes` is the sequence of numbers `random.randint(1000, 9999)` draws,
  one per step.

## Model

| member | source | states |
|---|---|---|
| Patients.GetPatientByName | app.py:21-27 | A record is found exactly when the lower-cased name is "anne", "liam" or "priya", and it is that patient's record. |
| Patients.LookupIgnoresCase | app.py:27 | Looking up a name gives the same result as looking up its lower-cased form. |
| Patients.FoundNameHasNoSlash | app.py:27 | A name the directory accepts has no '/', so the file names built from it stay in `tts_audio`. |
| Patients.DirectoryLanguages | app.py:23-25 | A found patient's language is "fr" exactly when the name is Anne's. |
| Text.Lower | app.py:27 | Lower-casing keeps the length; `Text.LowerAt` gives every character. |
| Text.LowerAt | app.py:27 | Position i of the lower-cased string is the i-th character lower-cased (A-Z shifted to a-z, everything else kept). |
| Text.LowerIdempotent | app.py:27 | Lower-casing twice is lower-casing once. |
| Text.DecimalRoundTrip | app.py:76 | The decimal digits written into a file name parse back to the same number. |
| Text.FourDigits | app.py:76 | A suffix in 1000..9999 is written with exactly four digits. |
| Text.Basename | app.py:181 | The base name has no '/' and is a suffix of the path. |
| Text.BasenameOfJoin | app.py:181 | The base name of `dir/name`, for a name without '/', is that name. |
| Text.BasenameOfPlain | app.py:182 | A path without '/' is its own base name. |
| Text.JoinLines | app.py:186 | `"\n".join` of no lines is empty; otherwise its length is the lines' total length plus one separator between each pair of lines; its contents are given by `Text.JoinLinesAt` and `Text.SplitJoin`. |
| Text.SplitJoin | app.py:186 | Splitting the joined transcript on '\n' gives back every line, in order, when no line holds a '\n' itself. |
| Text.JoinLinesAt | app.py:186 | Line i stands unchanged in the joined transcript at the total length of the earlier lines plus i, followed by '\n' unless it is the last line, whatever characters the lines hold. |
| Text.LastNewline | app.py:186 | The result is -1 exactly when the string has no '\n', and otherwise the position of a '\n'; `Text.LastNewlineOfJoin` shows it finds the separator before a last piece without one. |
| Text.LastNewlineOfJoin | app.py:186 | In `a + "\n" + b`, for `b` without a '\n', the last '\n' is the separator. |
| Text.Contains | app.py:111 | Python's `sub in s`; `Text.NotContainsWithoutFirstChar` and `Speech.ContextCases` characterise it. |
| Text.NotContainsWithoutFirstChar | app.py:111 | A string lacking the first character of a word does not contain the word. |
| Text.DecimalString | app.py:76 | `str(n)`: at least one character, all digits; `Text.DecimalRoundTrip` shows it reads back as `n`. |
| Speech.Get | app.py:66-67 | `dict.get` gives the entry for a present key and the default for an absent one. |
| Speech.ProsodyFor | app.py:66-67 | The rate and pitch of an emotion; `Speech.ProsodyTableRows` gives its four rows. |
| Speech.Ssml | app.py:68 | The SSML f-string; `Speech.SsmlCarriesText` shows the text is carried unchanged between the tags. |
| Speech.ContextOf | app.py:111 | The context heuristic; `Speech.ContextCases` states its three cases and the order of the tests. |
| Speech.ShouldMix | app.py:79-80 | The mixing test; `Speech.MixingRule` and `Speech.MixDependsOnAmbientOnly` characterise it. |
| Speech.AudioName | app.py:76 | `<agent>_<suffix>.mp3`; `Speech.AudioNameInjective` shows it determines the agent and the suffix. |
| Speech.EmotionOf | app.py:32-43 | An agent's emotion is one of calm, stress, urgent or neutral, and neutral for an agent the table lacks. |
| Speech.ProsodyTableRows | app.py:66-67 | calm gives (medium, +2st), stress gives (slow, -2st), urgent gives (fast, +0st), and any other emotion gives (medium, +0st). |
| Speech.AgentProsody | app.py:110 | The prosody of an agent's emotion, as `synthesize_speech` looks it up at app.py:66-67; `Speech.AgentProsodyTotal` states its range. |
| Speech.AgentProsodyTotal | app.py:110 | Every agent name gets one of those four profiles, and an unknown agent gets (medium, +0st). |
| Speech.SsmlCarriesText | app.py:68 | The SSML payload is the prosody opening tag, the text unchanged, then the closing tags; the text can be sliced back out. |
| Speech.VoiceCode | app.py:70 | The voice is fr-FR-Wavenet-A exactly when the language is "fr", and en-GB-Wavenet-A otherwise; it is always one of the two. |
| Speech.ContextCases | app.py:111 | The context is hospital exactly when the name contains "Hospital", airport exactly when it contains "Repatriation" but not "Hospital", and none otherwise. |
| Speech.MixingRule | app.py:79-80 | Mixing happens only for hospital or airport, and then exactly when that bed's file exists; "none" never mixes. |
| Speech.MixDependsOnAmbientOnly | app.py:79-80 | The mixing decision depends only on which of the two ambient files exist. |
| Speech.AudioWriteKeepsAmbient | app.py:76-80 | Writing a file under `tts_audio/` never changes which ambient beds exist. |
| Speech.AudioPath | app.py:76 | A step's audio path lies under `tts_audio/` and ends in `.mp3`. |
| Speech.AudioNameInjective | app.py:76 | With four-digit suffixes, two audio names are equal only for the same agent and the same suffix. |
| Speech.AudioPathInjective | app.py:76 | The same holds for the full audio paths. |
| Speech.AudioPathBasename | app.py:181 | For an agent without '/', the archive name of its audio is `<agent>_<suffix>.mp3`. |
| Speech.SynthesizeSpeech | app.py:65-86 | Writes exactly the audio path and no other file. Returns the SSML for the emotion's prosody, the language's voice and that path. Mixes exactly when the context's ambient file existed. |
| Storage.Disk.Write | app.py:77 | The written path exists afterwards; nothing else changes. |
| Storage.Disk.UnlinkIfExists | app.py:155 | The path is gone afterwards; nothing else changes. |
| Storage.IsAudioMp3 | app.py:156 | The paths `audio_dir.glob("*.mp3")` yields; `Storage.Disk.UnlinkAudio` and `Simulation.CleanUp` remove exactly these. |
| Storage.Disk.UnlinkAudio | app.py:156 | Exactly the mp3 files directly inside `tts_audio` are removed. |
| Workflow.NodesDistinct | app.py:125-129 | The ten agent names are pairwise different. |
| Workflow.BuildWorkflow | app.py:123-134 | The graph has the ten nodes in list order, the nine edges `nodes[i] -> nodes[i+1]` and no others, entry ClientAgent and finish OrchestratorAgent. |
| Workflow.ChainSuccessors | app.py:131 | In a linear chain each node but the last has exactly one successor, the next node, and the last has none. |
| Workflow.ChainPredecessors | app.py:131 | In a linear chain each node but the first has exactly one predecessor, the previous node, and the first has none. |
| Workflow.WalkFrom | app.py:132-134 | Following edges from node i visits exactly the nodes from i to the end, in order. |
| Workflow.ScheduleIsNodeOrder | app.py:132-134 | Executing the compiled chain from its entry runs every node once, in list order, ending at the finish point. |
| Workflow.Walk | app.py:132-134 | Running the compiled graph from a node along its edges; `Workflow.WalkFrom` gives its result on a linear chain. |
| Workflow.Schedule | app.py:132-134 | The execution order from the entry point; `Workflow.ScheduleIsNodeOrder` shows it is the node list. |
| Workflow.Script | app.py:158-167 | The patient's script; `Workflow.ScriptCoverage` and `Workflow.ChainNeverPlaceholder` state what it covers. |
| Workflow.Utterance | app.py:112-116 | What an agent says; `Workflow.UtteranceResolution` states the override and the fallbacks. |
| Workflow.Placeholder | app.py:112 | `<agent> is processing...`; `Workflow.UtteranceResolution` says when it is spoken and `Workflow.ChainNeverPlaceholder` that the chain never speaks it. |
| Workflow.Line | app.py:118 | `<agent>: <msg>`; `Workflow.RunTrailShape` and `Workflow.RunFromEmpty` state that each step appends exactly this line. |
| Workflow.StepTrail | app.py:118-119 | One step's effect on the log and audio lists; `Workflow.CaseState.Step` is proved against it. |
| Workflow.RunTrail | app.py:169 | The chain's effect as a left fold of the step; `Workflow.RunTrailShape` states what it appends. |
| Workflow.ScriptCoverage | app.py:158-167 | The script has an entry for every node except ProviderNetworkAgent and PolicyValidationAgent. |
| Workflow.UtteranceResolution | app.py:112-116 | The two retrieval agents always speak their retrieval answer, overriding any script entry; every other agent speaks its script entry if present, else `<agent> is processing...`. |
| Workflow.ChainNeverPlaceholder | app.py:158-167 | With the patient's script, every non-retrieval node of the chain speaks its script line, never the placeholder. |
| Workflow.ContextNoneWithoutCapitals | app.py:111 | A name with no capital H and no capital R has context "none". |
| Workflow.ContextOfPlanner | app.py:111 | RepatriationPlannerAgent has context "airport". |
| Workflow.NodeCapitals | app.py:125-129 | No agent name has a capital H or a '/', and only RepatriationPlannerAgent has a capital R. |
| Workflow.ChainContexts | app.py:111 | Along the fixed chain only RepatriationPlannerAgent gets an ambient context (airport); every other node gets none. |
| Workflow.RunTrailShape | app.py:118-119 | Running nodes over a state appends each node's `<agent>: <msg>` line and audio path in node order, and leaves the earlier entries untouched. |
| Workflow.RenderOf | app.py:110-117 | What one step hands to `synthesize_speech`: the SSML of its utterance with its emotion's prosody, the patient's voice, its audio path and the mixing decision; `Workflow.CaseState.Step` is proved against it. |
| Workflow.Renders | app.py:110-117 | The same for every node in order, with the files present at the start; `Workflow.CaseState.Run` is proved against it. |
| Workflow.RenderOfAmbient | app.py:79-80 | A step's rendering depends on the filesystem only through which ambient beds exist. |
| Workflow.CaseState.constructor | app.py:169 | The state starts with the patient, the script and empty log and audio lists. |
| Workflow.CaseState.Step | app.py:109-120 | Appends exactly one transcript line and one audio path. Writes exactly that path. Returns the rendering the agent's emotion, context, utterance and the patient's language dictate. |
| Workflow.CaseState.Run | app.py:169 | The state after the run is the left fold of the step over the nodes. Exactly the nodes' audio paths are written. Each step's rendering is as the files before the run dictate. |
| Workflow.AudioPathsHas | app.py:119 | Every path a step appends is among the files the run writes. |
| Workflow.AudioPathsInAudioDir | app.py:76 | Every file a run writes lies under `tts_audio/`. |
| Workflow.RunFromEmpty | app.py:118-119 | From an empty state, the log and the audio list have one entry per node, the i-th belonging to the i-th node. |
| Workflow.ChainRun | app.py:125-133 | The fixed chain leaves exactly ten log lines and ten audio paths, in node order. |
| Pdf.Place | app.py:145-146 | One loop iteration; `Pdf.PlaceTexts`, `Pdf.PlaceCursor` and `Pdf.PlaceOk` characterise it. |
| Pdf.PenAfter | app.py:144-146 | The canvas after the loop over some lines; `Pdf.PenAfterOk` gives its invariant. |
| Pdf.Layout | app.py:139-147 | The pages drawn for a transcript; `Pdf.LayoutProperties` states its properties. |
| Pdf.PlaceTexts | app.py:146 | Placing a line adds exactly that line after the lines already drawn. |
| Pdf.CursorFull | app.py:145 | The cursor is the page's top minus 14 per line drawn, and it is below 40 exactly when the page is full. |
| Pdf.PlaceCursor | app.py:145-146 | Placing a line keeps that cursor relation. |
| Pdf.PlaceOk | app.py:144-146 | Placing a line keeps the page invariant and the cursor relation. |
| Pdf.PenAfterOk | app.py:144-146 | After any number of lines the page invariant and the cursor relation hold. |
| Pdf.RowsAboveMargin | app.py:145-146 | Every line is drawn at y >= 40. |
| Pdf.HeaderOnFirstPage | app.py:143 | The header is on the first page and on no other. |
| Pdf.BreakRule | app.py:141-145 | Every closed page ends with a line whose next cursor is below 40. Every later page starts at 752. The first page starts at 732. |
| Pdf.LineSpacing | app.py:146 | Consecutive lines on a page are 14 points apart. |
| Pdf.CountPages | app.py:141-146 | The number of pages is 1 + n/51 for n lines. |
| Pdf.LayoutProperties | app.py:139-147 | Every line is drawn once, in input order. The layout is paginated as above, with no empty trailing page, and has 1 + n/51 pages. |
| Pdf.PenProperties | app.py:144-146 | The invariant implies the pagination properties and the page count. |
| Pdf.PageCountMonotone | app.py:144-146 | More lines never give fewer pages. |
| Pdf.FirstPageHoldsFifty | app.py:141-146 | The layout has a single page exactly when there are at most 50 lines. |
| Pdf.GeneratePdf | app.py:139-147 | The loop produces exactly the layout: every line once, in order, paginated, with 1 + n/51 pages. |
| Simulation.MemberOf | app.py:181-184 | One `zipf.write(p, arcname=basename(p))`; `Simulation.AudioArcnames`, `Simulation.PdfArcname` and `Simulation.FullAudioArcname` give the names it stores. |
| Simulation.BundleMembers | app.py:181-184 | The bundle has `|audio| + 3` members: the audio paths in order, then `case_log.txt`, the PDF and the combined track. |
| Simulation.FirstMissing | app.py:181-184 | Nothing is missing exactly when every member's file exists; otherwise the result is a missing member and all earlier members exist. |
| Simulation.FirstMissingAppend | app.py:181-184 | The first missing member of two lists is the first list's if it has one, else the second's. |
| Simulation.BundleFailure | app.py:181-184 | When the step audio exists, the zip fails exactly on the first of the log, the PDF and the combined track that is missing. |
| Simulation.WriteBundle | app.py:178-184 | Creates the archive. Stores the members' base names in order until the first missing one, which it reports and which is the member right after the stored ones; every stored member exists; when none is missing it stores them all. |
| Simulation.AudioArcnames | app.py:181 | Each step's audio is stored as `<agent>_<suffix>.mp3`. |
| Simulation.PdfArcname | app.py:183 | The PDF is stored as `<name>_conversation.pdf`. |
| Simulation.FullAudioArcname | app.py:184 | The combined track is stored as `<name>_full_convo.mp3`. |
| Simulation.BundleArcnames | app.py:181-184 | The archive names in order: the audio names, `case_log.txt`, the PDF's and the combined track's names. |
| Simulation.BundleArcnamesDistinct | app.py:181-184 | For different agents and four-digit suffixes, all archive names are pairwise different. |
| Simulation.ChainBundleDistinct | app.py:181-184 | The chain's archive holds thirteen pairwise different names. |
| Simulation.PdfPath | app.py:170 | `tts_audio/<name>_conversation.pdf`; `Simulation.PdfArcname` gives its archive name. |
| Simulation.FullAudioPath | app.py:173 | `tts_audio/<name>_full_convo.mp3`; `Simulation.FullAudioArcname` gives its archive name. |
| Simulation.Cleared | app.py:155-156 | The files the clean-up leaves; `Simulation.CleanUp` is proved against it and `Simulation.ClearedKeepsAmbient` characterises it. |
| Simulation.ClearedKeepsAmbient | app.py:155-156 | The clean-up leaves both ambient beds alone, so mixing is decided as before it. |
| Simulation.CaseTrailShape | app.py:169 | One invocation leaves ten log lines and ten audio paths in node order, each path among the files written. |
| Simulation.CaseAudioWritten | app.py:169 | Every audio path in the state is a file the invocation wrote. |
| Simulation.CleanUp | app.py:155-156 | Exactly `case_log.txt` and the top-level mp3 files of `tts_audio` are removed. |
| Simulation.InvokeChain | app.py:169 | `build_workflow().invoke` from an empty state gives the chain's transcript and audio list, and the renderings the files dictate. It writes exactly the step audio. |
| Simulation.RunCase | app.py:155-176 | After the clean-up, the chain, the PDF and the combined track: the transcript, the renderings after the clean-up, the PDF layout of the transcript, and exactly the files that then exist. |
| Simulation.ExportAsWritten | app.py:155-186 | As written, the zip step raises on `case_log.txt`, after the archive file was created and the base name of every step's audio was stored in it. |
| Simulation.ExportAsWrittenStoresAudio | app.py:181-182 | When the zip stops at `case_log.txt`, exactly the step audio has been stored before it. |
| Simulation.Export | app.py:155-186 | With the log saved first, it returns the joined transcript, the archive and the combined track; the archive holds the base names of all the bundle's members, in order; the files are those present before the bundle plus `case_log.txt` and the archive. |
| Simulation.RunSimulationUiAsWritten | app.py:152-186 | An unknown name returns ("❌ Patient not found.", None, None) with no file touched; a known name raises on `case_log.txt` with the step audio stored. |
| Simulation.RunSimulationUi | app.py:152-186 | An unknown name returns ("❌ Patient not found.", None, None) with no file touched. A known name returns the joined transcript of its script, the archive holding every member's base name in order, and its combined track. |
| Simulation.LogFileNotWritten | app.py:170-176 | Nothing the run writes after the clean-up is `case_log.txt`. |
| Simulation.ExportAsWrittenFails | app.py:182 | Whatever files existed before the run, the first missing bundle member is `case_log.txt`. |
| Simulation.ExportCorrectedSucceeds | app.py:181-184 | With the log written before the bundle, no member is missing. |
| Simulation.VoiceFollowsPatient | app.py:117 | The patient's voice, and the voice of each of the ten renderings of the invocation, is French exactly when the patient is Anne, whatever the case of the typed name. |

## Left out

- Credential loading and the Google text-to-speech call (app.py:53-60, 71-74) are foreign I/O. `Rendering` records the request; the audio content is not modelled.
- The retrieval setup (app.py:91-103): document writes, splitting, FAISS embeddings and the OpenAI model. Each chain is an opaque function from question to answer.
- pydub decoding, gain, overlay and concatenation (app.py:81-84, 174-176) are floating-point signal processing. Only the mixing decision and the files written are kept.
- The reportlab canvas, font and `showPage` calls and the `datetime.now()` header text (app.py:140-143, 147). The layout records rows and a header flag per page, not drawing commands or the header's text.
- `random.randint` (app.py:76) is the `suffixes` parameter. Distinctness of the audio names is proved for suffixes in 1000..9999.
- The zip file's byte contents and compression (app.py:178-184). The archive is the path it creates plus the ordered list of stored names.
- `audio_dir.mkdir` (app.py:48) and the directory structure as a whole. The filesystem is a set of existing paths, so a directory whose name ends in `.mp3` is not modelled.
- The LangGraph engine (app.py:124, 134). `StateGraph()` with no schema and `set_edge` are not LangGraph's actual API. The graph is modelled as what the code evidently means: nodes, `add_edge`-style edges, entry and finish, executed by following edges.
- The speech and retrieval calls (app.py:74, 114, 116) are taken to succeed. In the source an exception from either aborts the run after the clean-up, leaving the step mp3 files written so far; the model has no such failure path.
- The Gradio interface and `launch_ui` (app.py:191-205).
- Text.Lower: lower-cases only A-Z, where Python's `str.lower` also maps non-ASCII letters. The lookup could differ only for a non-ASCII letter that lower-cases to a letter of the three keys.
- Speech.SynthesizeSpeech: the text is put into the SSML without escaping, exactly as in the source. The model does not say what the speech service does with markup inside the text.

## Findings

| source | as written | input that shows it | evidently intended | confidence | as-written member | corrected member |
|---|---|---|---|---|---|---|
| app.py:155, app.py:182 | `case_log.txt` is unlinked at the start of the run and nothing writes it again, yet the bundle stores it: `zipf.write(log_file, ...)` raises `FileNotFoundError` | any known patient, e.g. "Anne", from any initial files | the transcript is saved to `case_log.txt` before zipping, and the UI receives the joined log, the archive and the combined track | not executed | Simulation.RunSimulationUiAsWritten (with Simulation.ExportAsWritten and Simulation.ExportAsWrittenFails) | Simulation.RunSimulationUi (with Simulation.Export and Simulation.ExportCorrectedSucceeds) |
