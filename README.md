# Lecture Voice-to-Notes, modelled in Dafny

The application is a single Streamlit script, `app.py`. A student uploads a
lecture recording on the Home page. A speech-to-text engine turns it into time
segments, and the script stores the segments' texts, joined with single spaces
and stripped, as the session's transcript. The Notes, Quiz and Flashcards
pages each have one button. The button runs `generate_with_prompt`, which cuts
the transcript into windows of 900 characters, sends each window to a language
model behind a fixed instruction and a blank line, and joins the answers with
newlines. The result overwrites that page's slot in the session store.

The model has six modules:

- `Wrappers`: an `Option` type.
- `Text`: Python's `sep.join`, plain concatenation of a list, and `str.strip()`.
  `str.strip()` is built from `lstrip` and `rstrip` over the exact set of code
  points that `str.isspace()` accepts.
- `Chunking`: the comprehension `[text[i:i+900] for i in range(0, len(text), 900)]`.
  It is written with Python's `range` and its clamping slice.
- `Generation`: `generate_with_prompt`. It is a method with the source's
  per-chunk loop, proved equal to the specification function `Generated`.
- `Transcription`: transcript assembly from engine segments.
- `Session`: the session store and the page controller.
  - The store is a class `SessionState` whose `slots` field is a map from the
    four keys to strings, so that a key can be absent before initialisation.
  - Each script run is the method `Run`. It runs the initialisation block and
    then the chosen page.
  - `Run` is proved against the relation `RunSpec`, which is built from
    `HomeSpec` and `ArtifactSpec`.

The language model is a parameter `gen: string -> string`. Greedy decoding
with no sampling makes it a fixed function of its input. The engine's answer
is a parameter too: either the list of segments or a failure.

The Home page stores the stripped text before it tests it (`app.py:61-64`).
So an upload that transcribes to whitespace overwrites an earlier transcript
with "" and locks the generator pages again; `HomeSpec` and `UploadUnlocks`
state this. Initialisation sets a slot only when it is absent
(`app.py:36-43`), so it never resets a stored slot.

## Model

| member | source | states |
|---|---|---|
| Text.JoinAppend | app.py:29 | joining one more output adds exactly one separator and that output at the end |
| Text.JoinSplit | app.py:29 | joining two non-empty lists is joining each and putting one separator between them, order kept |
| Text.StripLeading | app.py:61 | the result is a suffix of the input; everything dropped is whitespace; the result does not start with whitespace |
| Text.StripTrailing | app.py:61 | the result is a prefix of the input; everything dropped is whitespace; the result does not end with whitespace |
| Text.StripSpec | app.py:61 | `strip()` keeps one contiguous piece; everything cut off on either side is whitespace; the piece has no whitespace at either end |
| Text.StripEmptyIff | app.py:61-63 | `strip()` gives "" exactly when the input is all whitespace |
| Text.StripIdempotent | app.py:61 | stripping twice is stripping once |
| Chunking.RangeWindow | app.py:20 | `range(start, stop, 900)` has ceil((stop-start)/900) values; the k-th is start+900k, and it is below stop |
| Chunking.ChunkAt | app.py:20 | there are ceil(L/900) chunks, and chunk k is the text from 900k up to the smaller of 900k+900 and L |
| Chunking.ChunkCount | app.py:20 | the chunk count is ceil(L/900); the text is empty exactly when there are no chunks |
| Chunking.ChunkSizes | app.py:20 | every chunk is non-empty and at most 900 long; every chunk but the last is exactly 900 long |
| Chunking.ChunksPrefix | app.py:20 | the first k chunks, concatenated, are the first min(900k, L) characters |
| Chunking.Reassemble | app.py:20 | concatenating all chunks in order gives back the text: no gap, no overlap |
| Chunking.ChunksAppend | app.py:20 | when the first text fills whole windows, the chunks of a concatenation are the first text's chunks followed by the second's |
| Generation.GenerateWithPrompt | app.py:19-29 | the loop's result is `Generated`: one output per chunk, in order, joined with "\n" |
| Generation.Regenerate | app.py:19-29 | two calls with the same prompt and text give the same string |
| Generation.GeneratedEmpty | app.py:20-29 | the empty text gives "" |
| Generation.GeneratedSingleWindow | app.py:20-29 | a text of 1 to 900 characters gives exactly gen(prompt + "\n\n" + text) |
| Generation.GeneratedParts | app.py:20-27 | there are ceil(L/900) outputs, and output k is gen(prompt + "\n\n" + the k-th 900-character window) |
| Generation.GeneratedAppend | app.py:20-29 | when the first text fills whole windows, the output for a concatenation is the first output, "\n", then the second output |
| Transcription.JoinAllSpace | app.py:60 | with a whitespace separator, a join is all whitespace exactly when every part is |
| Transcription.AssembleEmptyIff | app.py:59-63 | the assembled transcript is "" exactly when every segment text is whitespace, including when there are no segments |
| Transcription.AssembleTrims | app.py:60-61 | the transcript is a contiguous piece of the space-joined texts; only whitespace is cut off; the transcript has no whitespace at either end |
| Transcription.AssembleTwo | app.py:60-61 | two segments whose outer ends are not whitespace assemble to the two texts with one space between them |
| Session.WithDefaults | app.py:36-43 | after initialisation all four slots are present; present slots keep their value; absent slots hold "" |
| Session.InitOrder | app.py:36-43 | the four conditional assignments, in the source's order, give `WithDefaults` |
| Session.WithDefaultsIdempotent | app.py:36-43 | a second initialisation changes nothing |
| Session.RunFrame | app.py:33-126 | a run leaves every slot present and changes no slot except the one of the page it runs |
| Session.LockedWithoutTranscript | app.py:74-126 | while the transcript is empty, each of Notes, Quiz and Flashcards (guards at app.py:76, 96, 114) shows the warning and changes nothing beyond initialisation, whatever the upload and even when its button is pressed |
| Session.FailedUploadKeepsTranscript | app.py:51-71 | with no file chosen, or when the engine raises, the store is unchanged; the view is the waiting state or "could not process" |
| Session.UploadUnlocks | app.py:58-66 | after a transcription the transcript is non-empty exactly when some segment holds a non-whitespace character; "unclear audio" shows exactly when it is empty |
| Session.SessionState.SetDefault | app.py:36-37 | a slot is set to "" only when it is absent |
| Session.SessionState.InitDefaults | app.py:36-43 | the store becomes `WithDefaults` of the old store, so every slot is present |
| Session.SessionState.HomePage | app.py:46-71 | the store and view follow `HomeSpec`: no file or an engine failure keeps the store; otherwise the transcript slot alone is overwritten with the assembled text, and the view separates unclear audio from success |
| Session.SessionState.ArtifactPage | app.py:73-126 | the store and view follow `ArtifactSpec`: without a transcript, a warning and no change; otherwise a press overwrites only the page's slot with `Generated` for the page's prompt, and the pane shows the slot when it is non-empty |
| Session.SessionState.Run | app.py:33-126 | one script run is initialisation followed by the chosen page, as `RunSpec` states |
| Session.Walkthrough | app.py:46-126 | whitespace-only audio shows "unclear audio" and the Notes page stays locked; clear audio unlocks it and the notes are the generator's single-window answer; a later engine failure shows "could not process" |

## Left out

- Model loading and caching (`load_models`, `app.py:9-16`): these are I/O. The two models are parameters.
- Tokenizer truncation to 1024 tokens and `max_new_tokens=250` (`app.py:25-26`) are inside the generator function `gen`. The model does not know what the tokenizer cuts.
- Generation.GenerateWithPrompt: an exception raised by the language model is not modelled, because `gen` is total. In the source such an exception would end the script run with the slot unchanged.
- The speech-to-text engine is not part of this model. Its answer is given as a list of segment texts or as a failure. Segment timing and the `info` value are dropped.
- Writing the upload to a temporary file (`app.py:52-54`) is file I/O, and the file name is never used except by the engine.
- Streamlit rendering is out of scope: titles, info and success banners, text-area heights, the expander and the sidebar widget itself. A view records only which message or panes a page shows.
- Streamlit persists the session store between runs of the same browser session. That persistence is modelled by keeping one `SessionState` object across several `Run` calls. Concurrency between sessions is left out.
- Text.IsSpace covers the code points Python's `str.isspace()` accepts. Unicode handling beyond that set is left out.
- The heuristic generator variant is not part of this model.
