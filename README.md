# PDF region text extraction: a Dafny model

The modelled program is a four-step page. Step 1 uploads a batch of PDF files, step 2 takes a
rectangle in page points, step 3 extracts the text inside that rectangle on the first page of every
file, and step 4 shows the rows and offers a reset. This project models the part with stateable
behaviour:

- the two per-document functions `get_pdf_first_page_info` and `extract_text_from_pdf` (module `Pdf`),
  with Python's `str.strip()` spelled out (module `Text`);
- the extraction loop of step 3, which appends one `{ファイル名, 抽出テキスト}` record per file and
  reports the progress `(i+1)/n` (module `Batch`);
- `st.session_state` and the guarded steps that change it (modules `Session` and `Workflow`).

PyMuPDF is an oracle. `fitz.open` is a parameter `open: Bytes -> Document`. A `Document` is either
`OpenFailed(message)` (the open raised, and `message` is `str(e)`) or `Opened(pages)`. Each `Page`
carries `page.rect.width`, `page.rect.height` and `clip: Rect -> Result<string>`, which stands for
`page.get_text("text", clip=rect)` returning text or raising with a message.

The session state is a dictionary in which keys can be missing. So it is modelled as a
`map<Key, Value>` field of the class `Session.SessionState`, and the page's key tests
(`'coords' not in`, `'pdf_dimensions' in`) and its reset (deleting every key) are modelled exactly.
Every run of the script first gives missing keys their defaults (`Session.Initialise`), then performs
the step picked in the sidebar (`Session.Step`). Each method of the class is proved equal to a step
function over the map (`AfterUpload`, `AfterCoordinates`, `AfterExtraction`, `AfterResults`,
`AfterRun`). The lemmas in `Workflow` are about those functions.

Behaviour of the code as written, where it differs from the design description of the system:

- **The coordinate guard never fires.** Step 3 tests whether the `coords` key is present (app.py:141).
  But every run sets that key to `None` first (app.py:15-16), so extraction runs even when no
  coordinates were entered. The unpacking at app.py:64 then raises inside the `try`, and every file
  that has a page gets `エラー: cannot unpack non-iterable NoneType object`
  (`Workflow.CoordsGuardNeverFires`, `Workflow.ExtractionWithoutCoordinates`).
- **Coordinates are stored as typed** (app.py:132). They are not reordered or normalised, and no
  drawn-rectangle (pixel to point) mapping exists in the code.
- **Failures are not typed.** They are text in the record: `エラー: ` plus the message, or the fixed
  `PDFにページがありません` (which does not start with the error prefix).
- **Re-uploading does not clear the old results.** A new upload in step 1 leaves `extraction_results`
  and `processing_complete` as they were. So after an extraction, a new batch keeps the old rows, and
  step 3 will not run again until the reset (`Workflow.StaleResultsAfterNewUpload`).
- **The reset is only offered when there are results** (app.py:183-199).
- **A failed page inspection leaves the old dimensions.** `pdf_dimensions` is set only when the first
  file's page can be inspected; otherwise an earlier value stays.

## Model

| member | source | states |
|---|---|---|
| `Text.Strip` | app.py:72 | the stripped text has no whitespace (Python `isspace`) at either end, is no longer than the input, and is empty exactly when the input is all whitespace |
| `Text.SkipStart` | app.py:72 | the scan from the front stops at the first non-whitespace character (or the end), having passed only whitespace |
| `Text.SkipEnd` | app.py:72 | the scan from the back stops after the last non-whitespace character not before the front position, having passed only whitespace |
| `Text.StripIsTheTrimmedMiddle` | app.py:72 | whenever the text splits into leading whitespace, a middle with non-whitespace ends and trailing whitespace, strip yields exactly that middle |
| `Text.StripIdempotent` | app.py:72 | stripping twice equals stripping once |
| `Pdf.ErrorText` | app.py:75-76 | a caught exception becomes text that starts with `エラー: ` and continues with the exception's message |
| `Pdf.FirstPageInfo` | app.py:32-50 | succeeds exactly when the file opens and has a page, then gives the width and height of page 0; otherwise (no pages, or the open raised) gives `(False, 0, 0)` |
| `Pdf.ExtractText` | app.py:53-76 | never raises: every fault (open fails, coordinates are `None`, the clip raises) gives error text carrying its message; zero pages gives exactly `PDFにページがありません`; otherwise the clipped page-0 text, stripped |
| `Pdf.OnlyFirstPageConsulted` | app.py:60-66 | removing every page after page 0 changes neither the extracted text nor the page information |
| `Pdf.ExtractionIgnoresName` | app.py:53-59 | two uploads with the same bytes give the same text whatever their names |
| `Pdf.NoPagesIgnoresCoordinates` | app.py:60-74 | a document without pages gives the fixed message for any coordinates, even `None`, since the page count is tested before unpacking |
| `Pdf.InspectionFailureMeansNoText` | app.py:32-76 | when page inspection fails, extraction gives only the fixed message or error text |
| `Pdf.InspectionSuccessReachesClip` | app.py:39-72 | when page inspection succeeds and coordinates are set, extraction gives the stripped clip of page 0 or the clip's error |
| `Batch.Records` | app.py:147-164 | exactly one record per file: record `i` has file `i`'s name and the text extracted from file `i` alone |
| `Batch.RecordsAppend` | app.py:151-164 | the records of a joined batch are the records of its parts, concatenated |
| `Batch.ReplacingOneFileChangesOneRecord` | app.py:151-164 | replacing one file changes that file's record only; all other rows and the length stay |
| `Batch.EmptyDocumentRow` | app.py:73-74 | a zero-page document's row is its name with exactly `PDFにページがありません` |
| `Batch.CorruptMiddleFile` | app.py:151-164 | for a.pdf, b.pdf (unparsable), c.pdf: three rows in that order, page text for a and c, error text for b |
| `Batch.Progress` | app.py:153 | the progress for file `i` of `n` lies in (0, 1] and is 1 exactly for the last file |
| `Batch.ProgressIncreases` | app.py:151-154 | progress strictly increases from file to file |
| `Batch.RunBatch` | app.py:147-168 | the loop visits every file in order and returns exactly `Records` of the batch, with `(i+1)/n` reported for each file |
| `Session.Initialise` | app.py:14-22 | gives each missing key among coords, extraction_results, pdf_files and processing_complete its default; present keys untouched; `pdf_dimensions` neither added nor removed |
| `Session.SessionState.Initialize` | app.py:15-22 | the four conditional assignments leave the dictionary equal to `Initialise` of the old one |
| `Session.SessionState.Upload` | app.py:88-98 | the new dictionary is the step-1 function of the old: files replaced on a non-empty upload, dimensions set only when inspection succeeds |
| `Session.SessionState.SpecifyCoordinates` | app.py:108-133 | the new dictionary is the step-2 function of the old |
| `Session.SessionState.Extract` | app.py:139-173 | the new dictionary is the step-3 function of the old; the progress shown is `(i+1)/n` for each file when extraction runs, and none otherwise |
| `Session.SessionState.DeleteAllKeys` | app.py:201-202 | deleting over a snapshot of the keys leaves the dictionary empty |
| `Session.SessionState.ShowResults` | app.py:183-203 | the new dictionary is the step-4 function of the old: emptied when there are results and the reset is pressed |
| `Session.SessionState.Run` | app.py:15-203 | one script run is initialisation followed by the chosen step, with the progress that step shows |
| `Workflow.RunPreservesConsistency` | app.py:15-203 | between runs the dictionary is empty or consistent: an uploaded batch is non-empty, results exist exactly when extraction is complete, and completion implies an upload |
| `Workflow.CoordsGuardNeverFires` | app.py:139-144 | after initialisation, extraction runs exactly when files are uploaded, processing is not complete and the button is pressed; the coords guard plays no part |
| `Workflow.ExtractionEffect` | app.py:139-173 | step 3 either changes nothing or stores one record per uploaded file in order, sets completion, and leaves files, coordinates and dimensions unchanged |
| `Workflow.ExtractionRunsOnce` | app.py:144-177 | once extraction has run, another step 3 changes nothing |
| `Workflow.UploadEffect` | app.py:88-98 | step 1 keeps results, completion and coordinates; a non-empty upload replaces the files and sets the dimensions from the first file when it can be inspected, otherwise keeps the old ones |
| `Workflow.CoordinatesStoredVerbatim` | app.py:108-133 | once files are uploaded, step 2 stores the four numbers as typed and changes nothing else; without files it changes nothing |
| `Workflow.ResetRestoresInitialState` | app.py:199-203 | the reset empties the dictionary; the next initialisation gives no files, no coordinates, no results, not complete and no dimensions |
| `Workflow.InitialiseKeepsInitialized` | app.py:15-22 | initialising an already initialised dictionary changes nothing |
| `Workflow.NoResetWithoutResults` | app.py:183-184 | without results, step 4 changes nothing whatever is pressed |
| `Workflow.RunIsStep` | app.py:15-22 | a run on an initialised dictionary is its step alone, and a run on an empty one starts from the defaults |
| `Workflow.FullWorkflow` | app.py:88-170 | upload, coordinates, extraction from a new session give exactly one record per file in order, using the entered rectangle; the reset then empties the dictionary |
| `Workflow.ExtractionWithoutCoordinates` | app.py:139-164 | extraction right after upload, with no coordinates, completes; each file with a page gets the unpacking error, every other row is the fixed message or error text |
| `Workflow.StaleResultsAfterNewUpload` | app.py:88-96 | after an extraction, a new two-file upload leaves one old row, completion set, and a step 3 that changes nothing |
| `Workflow.ProgressShownRisesToOne` | app.py:151-155 | the progress shown in one run strictly increases and ends at exactly 1 |

## Left out

- Streamlit presentation: titles, warnings, success and info messages, the sidebar radio (the chosen step is an input), the progress bar and status text (only the progress values are kept), and `st.rerun` (each run is one call of `Run`).
- Buttons that only rerun the script ("次へ: 座標指定", "結果を表示") change no state, so they are not inputs.
- PyMuPDF parsing and text clipping: they are the oracle `open` and each page's `clip`. The model does not describe PDF content.
- Temporary files, `os.unlink` and `doc.close`: these are I/O. That the temporary file is never removed on the zero-page and error paths is not modelled. Failures of the temporary-file write or of `getvalue()` are not modelled either.
- The pandas table, CSV text, base64 encoding and download link of step 4 (app.py:187-196): library serialisation.
- `time.sleep(0.1)`: timing only.
- Floating point: coordinates, sizes and progress are `real`, so rounding and the `:.1f` display format are not modelled. The integer zeros that page inspection returns on failure are `0.0`.
- Region normalisation and the drawn-rectangle (canvas) mapping: neither exists in the code.
- Session.SessionState.Run: requires that every stored value has the kind its key holds (`WellTyped`). The page only ever stores such values, so this excludes no reachable state.
