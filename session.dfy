/** `st.session_state` and the four steps of the page. The session state is a dictionary: keys may be
    absent (the page tests `'coords' not in` and `'pdf_dimensions' in`, and the reset deletes every
    key). Each script run initialises the missing keys and then performs the step chosen in the sidebar. */
module Session {
  import opened Wrappers
  import opened Pdf
  import opened Batch

  datatype Key = CoordsKey | ExtractionResultsKey | PdfFilesKey | ProcessingCompleteKey | PdfDimensionsKey

  datatype Value =
    | CoordsValue(coords: Option<Rect>)
    | ResultsValue(records: seq<Record>)
    | FilesValue(files: Option<seq<UploadedFile>>)
    | FlagValue(flag: bool)
    | DimensionsValue(width: real, height: real)

  type State = map<Key, Value>

  /** The kind of value the page stores under each key. */
  predicate Fits(k: Key, v: Value)
  {
    match k
    case CoordsKey => v.CoordsValue?
    case ExtractionResultsKey => v.ResultsValue?
    case PdfFilesKey => v.FilesValue?
    case ProcessingCompleteKey => v.FlagValue?
    case PdfDimensionsKey => v.DimensionsValue?
  }

  predicate WellTyped(m: State)
  {
    forall k :: k in m ==> Fits(k, m[k])
  }

  /** The four keys set at the start of every run are present. */
  predicate Initialized(m: State)
  {
    WellTyped(m) && CoordsKey in m && ExtractionResultsKey in m && PdfFilesKey in m && ProcessingCompleteKey in m
  }

  function FilesOf(m: State): Option<seq<UploadedFile>> requires Initialized(m) { m[PdfFilesKey].files }
  function CoordsOf(m: State): Option<Rect> requires Initialized(m) { m[CoordsKey].coords }
  function ResultsOf(m: State): seq<Record> requires Initialized(m) { m[ExtractionResultsKey].records }
  function CompleteOf(m: State): bool requires Initialized(m) { m[ProcessingCompleteKey].flag }

  /** The defaults of the four initialised keys; `pdf_dimensions` has none. */
  const Defaults: State := map[
    CoordsKey := CoordsValue(None),
    ExtractionResultsKey := ResultsValue([]),
    PdfFilesKey := FilesValue(None),
    ProcessingCompleteKey := FlagValue(false)]

  /** The start of every run: each of the four keys that is missing gets its default; present keys,
      and `pdf_dimensions` whether present or not, are left alone. */
  function Initialise(m: State): (r: State)
    ensures WellTyped(m) ==> Initialized(r)
    ensures forall k :: k in m ==> k in r && r[k] == m[k]
    ensures forall k :: k in r && k !in m ==> k in Defaults && r[k] == Defaults[k]
    ensures PdfDimensionsKey in r <==> PdfDimensionsKey in m
  {
    var m1 := SetDefault(m, CoordsKey, CoordsValue(None));
    var m2 := SetDefault(m1, ExtractionResultsKey, ResultsValue([]));
    var m3 := SetDefault(m2, PdfFilesKey, FilesValue(None));
    SetDefault(m3, ProcessingCompleteKey, FlagValue(false))
  }

  /** `if k not in st.session_state: st.session_state.k = v`. */
  function SetDefault(m: State, k: Key, v: Value): State
  {
    if k in m then m else m[k := v]
  }

  /** What the user does in one run: the step chosen in the sidebar, with its widget inputs. Buttons
      that only rerun the script ("次へ: 座標指定", "結果を表示") change no state and are not inputs. */
  datatype Step =
    | UploadStep(uploaded: seq<UploadedFile>)
    | CoordinateStep(x1: real, y1: real, x2: real, y2: real, nextPressed: bool)
    | ExtractionStep(startPressed: bool)
    | ResultsStep(newExtractionPressed: bool)

  /** Step 1: a non-empty upload replaces `pdf_files`; `pdf_dimensions` is set from the first file when
      its first page can be inspected and is otherwise left as it was. */
  function AfterUpload(m: State, uploaded: seq<UploadedFile>, open: Opener): State
    requires Initialized(m)
  {
    if |uploaded| > 0 then
      var withFiles := m[PdfFilesKey := FilesValue(Some(uploaded))];
      var info := FirstPageInfo(uploaded[0], open);
      if info.0 then withFiles[PdfDimensionsKey := DimensionsValue(info.1, info.2)] else withFiles
    else m
  }

  /** Step 2: with files uploaded, pressing "次へ" stores the four numbers verbatim as `coords`. */
  function AfterCoordinates(m: State, x1: real, y1: real, x2: real, y2: real, pressed: bool): State
    requires Initialized(m)
  {
    if FilesOf(m).None? then m
    else if pressed then m[CoordsKey := CoordsValue(Some(Rect(x1, y1, x2, y2)))]
    else m
  }

  /** The guards of step 3 as written: files uploaded, the `coords` key present, extraction not yet
      complete, and "抽出開始" pressed. */
  predicate ExtractionRuns(m: State, pressed: bool)
    requires Initialized(m)
  {
    FilesOf(m).Some? && CoordsKey in m && !CompleteOf(m) && pressed
  }

  /** Step 3: when it runs, the records of every file replace `extraction_results` and
      `processing_complete` becomes true. */
  function AfterExtraction(m: State, pressed: bool, open: Opener): State
    requires Initialized(m)
  {
    if ExtractionRuns(m, pressed) then
      m[ExtractionResultsKey := ResultsValue(Records(FilesOf(m).value, CoordsOf(m), open))]
       [ProcessingCompleteKey := FlagValue(true)]
    else m
  }

  /** Step 4: when there are results, "新しい抽出を開始" deletes every key. */
  function AfterResults(m: State, pressed: bool): State
    requires Initialized(m)
  {
    if ResultsOf(m) != [] && pressed then map[] else m
  }

  function AfterStep(m: State, step: Step, open: Opener): State
    requires Initialized(m)
  {
    match step
    case UploadStep(uploaded) => AfterUpload(m, uploaded, open)
    case CoordinateStep(x1, y1, x2, y2, pressed) => AfterCoordinates(m, x1, y1, x2, y2, pressed)
    case ExtractionStep(pressed) => AfterExtraction(m, pressed, open)
    case ResultsStep(pressed) => AfterResults(m, pressed)
  }

  /** One run of the script: initialisation, then the chosen step. */
  function AfterRun(m: State, step: Step, open: Opener): State
    requires WellTyped(m)
  {
    AfterStep(Initialise(m), step, open)
  }

  /** The progress values the run shows: those of the batch when step 3 runs, none otherwise. */
  function ProgressShown(m: State, step: Step): seq<real>
    requires WellTyped(m)
  {
    var init := Initialise(m);
    if step.ExtractionStep? && ExtractionRuns(init, step.startPressed) then
      var n := |FilesOf(init).value|;
      seq(n, i requires 0 <= i < n => Progress(i, n))
    else []
  }

  /** The session dictionary of one browser session, changed in place by each run of the script. */
  class SessionState {
    var state: State

    /** A new browser session starts with an empty dictionary. */
    constructor ()
      ensures state == map[]
    {
      state := map[];
    }

    /** The four `if key not in st.session_state` assignments at the top of the script. */
    method Initialize()
      requires WellTyped(state)
      modifies this
      ensures state == Initialise(old(state))
    {
      if CoordsKey !in state {
        state := state[CoordsKey := CoordsValue(None)];
      }
      if ExtractionResultsKey !in state {
        state := state[ExtractionResultsKey := ResultsValue([])];
      }
      if PdfFilesKey !in state {
        state := state[PdfFilesKey := FilesValue(None)];
      }
      if ProcessingCompleteKey !in state {
        state := state[ProcessingCompleteKey := FlagValue(false)];
      }
    }

    method Upload(uploaded: seq<UploadedFile>, open: Opener)
      requires Initialized(state)
      modifies this
      ensures state == AfterUpload(old(state), uploaded, open)
    {
      if |uploaded| > 0 {
        state := state[PdfFilesKey := FilesValue(Some(uploaded))];
        var (success, width, height) := FirstPageInfo(uploaded[0], open);
        if success {
          state := state[PdfDimensionsKey := DimensionsValue(width, height)];
        }
      }
    }

    method SpecifyCoordinates(x1: real, y1: real, x2: real, y2: real, pressed: bool)
      requires Initialized(state)
      modifies this
      ensures state == AfterCoordinates(old(state), x1, y1, x2, y2, pressed)
    {
      if state[PdfFilesKey].files.None? {
        // warning only
      } else if pressed {
        state := state[CoordsKey := CoordsValue(Some(Rect(x1, y1, x2, y2)))];
      }
    }

    method Extract(pressed: bool, open: Opener) returns (progress: seq<real>)
      requires Initialized(state)
      modifies this
      ensures state == AfterExtraction(old(state), pressed, open)
      ensures ExtractionRuns(old(state), pressed) ==>
        var n := |FilesOf(old(state)).value|;
        |progress| == n && forall i :: 0 <= i < n ==> progress[i] == Progress(i, n)
      ensures !ExtractionRuns(old(state), pressed) ==> progress == []
    {
      progress := [];
      if state[PdfFilesKey].files.None? {
        // warning only
      } else if CoordsKey !in state {
        // warning only
      } else if !state[ProcessingCompleteKey].flag {
        if pressed {
          var records;
          records, progress := RunBatch(state[PdfFilesKey].files.value, state[CoordsKey].coords, open);
          state := state[ExtractionResultsKey := ResultsValue(records)];
          state := state[ProcessingCompleteKey := FlagValue(true)];
        }
      }
    }

    /** `for key in st.session_state.keys(): del st.session_state[key]`, over a snapshot of the keys. */
    method DeleteAllKeys()
      modifies this
      ensures state == map[]
    {
      var keys := state.Keys;
      while keys != {}
        invariant state.Keys == keys
        decreases keys
      {
        var key :| key in keys;
        state := state - {key};
        keys := keys - {key};
      }
      assert state.Keys == {};
      assert state == map[];
    }

    method ShowResults(pressed: bool)
      requires Initialized(state)
      modifies this
      ensures state == AfterResults(old(state), pressed)
    {
      if state[ExtractionResultsKey].records == [] {
        // warning only
      } else if pressed {
        DeleteAllKeys();
      }
    }

    /** One run of the script. */
    method Run(step: Step, open: Opener) returns (progress: seq<real>)
      requires WellTyped(state)
      modifies this
      ensures state == AfterRun(old(state), step, open)
      ensures progress == ProgressShown(old(state), step)
    {
      Initialize();
      progress := [];
      match step
      case UploadStep(uploaded) => Upload(uploaded, open);
      case CoordinateStep(x1, y1, x2, y2, pressed) => SpecifyCoordinates(x1, y1, x2, y2, pressed);
      case ExtractionStep(pressed) => progress := Extract(pressed, open);
      case ResultsStep(pressed) => ShowResults(pressed);
    }
  }
}
