/** Properties of the session workflow, stated on the step functions that the session methods follow. */
module Workflow {
  import opened Wrappers
  import opened Pdf
  import opened Batch
  import opened Session

  /** What holds of the dictionary after initialisation in every run: uploaded batches are non-empty,
      results exist exactly when extraction is complete, and completion implies an upload. */
  predicate Consistent(m: State)
  {
    Initialized(m) &&
    (FilesOf(m).Some? ==> |FilesOf(m).value| > 0) &&
    (CompleteOf(m) <==> ResultsOf(m) != []) &&
    (CompleteOf(m) ==> FilesOf(m).Some?)
  }

  /** Between two runs the dictionary is empty (a new session, or just after the reset) or consistent. */
  predicate BetweenRuns(m: State)
  {
    m == map[] || Consistent(m)
  }

  /** Every run keeps the dictionary between-runs consistent. */
  lemma RunPreservesConsistency(m: State, step: Step, open: Opener)
    requires BetweenRuns(m)
    ensures WellTyped(m) && BetweenRuns(AfterRun(m, step, open))
  {
    var init := Initialise(m);
    assert Consistent(init) by {
      if m == map[] {
        assert init == Defaults;
      }
    }
    StepPreservesConsistency(init, step, open);
  }

  lemma StepPreservesConsistency(m: State, step: Step, open: Opener)
    requires Consistent(m)
    ensures BetweenRuns(AfterStep(m, step, open))
  {
    match step
    case UploadStep(uploaded) =>
      UploadEffect(m, uploaded, open);
    case CoordinateStep(x1, y1, x2, y2, pressed) =>
    case ExtractionStep(pressed) =>
      ExtractionEffect(m, pressed, open);
    case ResultsStep(pressed) =>
  }

  /** The `coords` guard of step 3 never blocks once the keys are initialised: whether extraction runs
      depends only on `pdf_files`, `processing_complete` and the button. */
  lemma CoordsGuardNeverFires(m: State, pressed: bool)
    requires WellTyped(m)
    ensures var init := Initialise(m);
      ExtractionRuns(init, pressed) <==> FilesOf(init).Some? && !CompleteOf(init) && pressed
  {
  }

  /** Step 3 as a whole: either nothing changes, or the results are the records of every uploaded file
      in upload order, completion is set, and the files, coordinates and dimensions are untouched. */
  lemma ExtractionEffect(m: State, pressed: bool, open: Opener)
    requires Initialized(m)
    ensures var r := AfterExtraction(m, pressed, open);
      Initialized(r) &&
      (!ExtractionRuns(m, pressed) ==> r == m) &&
      (ExtractionRuns(m, pressed) ==>
        var files := FilesOf(m).value;
        |ResultsOf(r)| == |files| &&
        (forall i :: 0 <= i < |files| ==>
          ResultsOf(r)[i] == Record(files[i].name, ExtractText(files[i], CoordsOf(m), open))) &&
        CompleteOf(r) && FilesOf(r) == FilesOf(m) && CoordsOf(r) == CoordsOf(m) &&
        (PdfDimensionsKey in r <==> PdfDimensionsKey in m) &&
        (PdfDimensionsKey in m ==> r[PdfDimensionsKey] == m[PdfDimensionsKey]))
  {
  }

  /** Extraction happens at most once per batch: after it has run, a second step 3 changes nothing. */
  lemma ExtractionRunsOnce(m: State, second: bool, open: Opener)
    requires Initialized(m) && ExtractionRuns(m, true)
    ensures var once := AfterExtraction(m, true, open);
      Initialized(once) && CompleteOf(once) && AfterExtraction(once, second, open) == once
  {
    assert CompleteOf(AfterExtraction(m, true, open));
  }

  /** Step 1: a non-empty upload replaces the files; the dimensions are those of the first file when it
      can be inspected, and otherwise whatever an earlier upload left; nothing else changes, so results
      and completion of an earlier batch survive a new upload. */
  lemma UploadEffect(m: State, uploaded: seq<UploadedFile>, open: Opener)
    requires Initialized(m)
    ensures var r := AfterUpload(m, uploaded, open);
      Initialized(r) &&
      ResultsOf(r) == ResultsOf(m) && CompleteOf(r) == CompleteOf(m) && CoordsOf(r) == CoordsOf(m) &&
      (|uploaded| == 0 ==> r == m) &&
      (|uploaded| > 0 ==>
        FilesOf(r) == Some(uploaded) &&
        var info := FirstPageInfo(uploaded[0], open);
        (info.0 ==> PdfDimensionsKey in r && r[PdfDimensionsKey] == DimensionsValue(info.1, info.2)) &&
        (!info.0 ==> (PdfDimensionsKey in r <==> PdfDimensionsKey in m) &&
                     (PdfDimensionsKey in m ==> r[PdfDimensionsKey] == m[PdfDimensionsKey])))
  {
  }

  /** Step 2 stores the coordinates exactly as entered, with no reordering of the corners, and only
      once files are uploaded. */
  lemma CoordinatesStoredVerbatim(m: State, x1: real, y1: real, x2: real, y2: real)
    requires Initialized(m)
    ensures var r := AfterCoordinates(m, x1, y1, x2, y2, true);
      Initialized(r) &&
      (FilesOf(m).Some? ==> CoordsOf(r) == Some(Rect(x1, y1, x2, y2)) && r == m[CoordsKey := r[CoordsKey]]) &&
      (FilesOf(m).None? ==> r == m)
  {
  }

  /** The reset of step 4 empties the dictionary, and the next run's initialisation brings back exactly
      the state of a new session: no files, no coordinates, no results, not complete, no dimensions. */
  lemma ResetRestoresInitialState(m: State)
    requires Initialized(m) && ResultsOf(m) != []
    ensures var cleared := AfterResults(m, true);
      cleared == map[] && Initialise(cleared) == Defaults
    ensures Initialized(Defaults) && FilesOf(Defaults).None? && CoordsOf(Defaults).None? &&
      ResultsOf(Defaults) == [] && !CompleteOf(Defaults) && PdfDimensionsKey !in Defaults
  {
  }

  /** Initialisation leaves an initialised dictionary as it is. */
  lemma InitialiseKeepsInitialized(m: State)
    requires Initialized(m)
    ensures Initialise(m) == m
  {
  }

  /** Without results the reset button is not offered, so step 4 changes nothing. */
  lemma NoResetWithoutResults(m: State, pressed: bool)
    requires Initialized(m) && ResultsOf(m) == []
    ensures AfterResults(m, pressed) == m
  {
  }

  /** A run on an initialised dictionary is its step alone; a run on an empty one starts from the defaults. */
  lemma RunIsStep(m: State, step: Step, open: Opener)
    requires Initialized(m) || m == map[]
    ensures WellTyped(m)
    ensures Initialized(m) ==> AfterRun(m, step, open) == AfterStep(m, step, open)
    ensures m == map[] ==> AfterRun(m, step, open) == AfterStep(Defaults, step, open)
  {
  }

  /** A whole session from a new one: upload, enter coordinates, extract. The results hold one record
      per file in upload order, extracted with the entered rectangle; the reset afterwards empties the
      dictionary again. */
  lemma FullWorkflow(files: seq<UploadedFile>, x1: real, y1: real, x2: real, y2: real, open: Opener)
    requires |files| > 0
    ensures var s1 := AfterUpload(Defaults, files, open);
      Initialized(s1) &&
      var s2 := AfterCoordinates(s1, x1, y1, x2, y2, true);
      Initialized(s2) &&
      var s3 := AfterExtraction(s2, true, open);
      Initialized(s3) && CompleteOf(s3) &&
      ResultsOf(s3) == Records(files, Some(Rect(x1, y1, x2, y2)), open) &&
      AfterResults(s3, true) == map[]
  {
    var s1 := AfterUpload(Defaults, files, open);
    UploadEffect(Defaults, files, open);
    var s2 := AfterCoordinates(s1, x1, y1, x2, y2, true);
    CoordinatesStoredVerbatim(s1, x1, y1, x2, y2);
    assert ExtractionRuns(s2, true);
    ExtractionEffect(s2, true, open);
  }

  /** Going straight from upload to extraction, with no coordinates entered, still extracts: every file
      with a page gets the unpacking error, the others the fixed message or their open error. */
  lemma ExtractionWithoutCoordinates(files: seq<UploadedFile>, open: Opener)
    requires |files| > 0
    ensures var s1 := AfterUpload(Defaults, files, open);
      Initialized(s1) &&
      var s2 := AfterExtraction(s1, true, open);
      Initialized(s2) && CompleteOf(s2) && |ResultsOf(s2)| == |files| &&
      forall i :: 0 <= i < |files| ==>
        var text := ResultsOf(s2)[i].extractedText;
        (HasFirstPage(open(files[i].content)) ==> text == ErrorText(UnpackNoneMessage)) &&
        (text == NoPagesMessage || IsErrorText(text))
  {
    var s1 := AfterUpload(Defaults, files, open);
    UploadEffect(Defaults, files, open);
    assert ExtractionRuns(s1, true);
    ExtractionEffect(s1, true, open);
  }

  /** Uploading a new batch after an extraction keeps the old results: a one-file batch extracted, then
      a two-file upload, leaves one result row beside two files, and step 3 will not run again. */
  lemma StaleResultsAfterNewUpload(a: UploadedFile, b: UploadedFile, c: UploadedFile, open: Opener)
    ensures var s1 := AfterUpload(Defaults, [a], open);
      Initialized(s1) &&
      var s2 := AfterExtraction(s1, true, open);
      Initialized(s2) &&
      var s3 := AfterUpload(s2, [b, c], open);
      Initialized(s3) && CompleteOf(s3) && |ResultsOf(s3)| == 1 && FilesOf(s3) == Some([b, c]) &&
      AfterExtraction(s3, true, open) == s3
  {
    var s1 := AfterUpload(Defaults, [a], open);
    UploadEffect(Defaults, [a], open);
    assert ExtractionRuns(s1, true);
    ExtractionEffect(s1, true, open);
    var s2 := AfterExtraction(s1, true, open);
    UploadEffect(s2, [b, c], open);
  }

  /** The progress shown by a run of step 3 rises strictly with each file and ends at exactly 1. */
  lemma ProgressShownRisesToOne(m: State, step: Step)
    requires WellTyped(m)
    ensures var p := ProgressShown(m, step);
      (forall i, j :: 0 <= i < j < |p| ==> p[i] < p[j]) &&
      (p != [] ==> p[|p| - 1] == 1.0)
  {
    var p := ProgressShown(m, step);
    forall i, j | 0 <= i < j < |p| ensures p[i] < p[j] {
      ProgressIncreases(i, j, |p|);
    }
  }
}
