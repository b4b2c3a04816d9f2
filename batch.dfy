/** The extraction loop of step 3: one record per uploaded file, in upload order, with progress. */
module Batch {
  import opened Wrappers
  import opened Pdf

  /** One row `{"ファイル名": name, "抽出テキスト": text}`. */
  datatype Record = Record(fileName: string, extractedText: string)

  function RecordFor(file: UploadedFile, coords: Option<Rect>, open: Opener): Record
  {
    Record(file.name, ExtractText(file, coords, open))
  }

  /** The records the loop builds, appended file by file. Exactly one per file: record `i` carries the
      name of file `i` and the text extracted from file `i` alone. */
  function Records(files: seq<UploadedFile>, coords: Option<Rect>, open: Opener): (r: seq<Record>)
    ensures |r| == |files|
    ensures forall i :: 0 <= i < |files| ==> r[i] == RecordFor(files[i], coords, open)
  {
    if files == [] then []
    else Records(files[..|files| - 1], coords, open) + [RecordFor(files[|files| - 1], coords, open)]
  }

  /** The value `(i + 1) / len(pdf_files)` given to the progress bar while file `i` is processed. */
  function Progress(i: nat, n: nat): (p: real)
    requires i < n
    ensures 0.0 < p <= 1.0
    ensures p == 1.0 <==> i == n - 1
  {
    (i + 1) as real / n as real
  }

  /** Progress strictly increases from one file to the next. */
  lemma ProgressIncreases(i: nat, j: nat, n: nat)
    requires i < j < n
    ensures Progress(i, n) < Progress(j, n)
  {
    var d := n as real;
    assert Progress(j, n) - Progress(i, n) == (j - i) as real / d;
  }

  lemma RecordsStep(files: seq<UploadedFile>, i: nat, coords: Option<Rect>, open: Opener)
    requires i < |files|
    ensures Records(files[..i + 1], coords, open) == Records(files[..i], coords, open) + [RecordFor(files[i], coords, open)]
  {
  }

  /** The loop of step 3: extracts every file in order, appending its record, and reports progress
      before each extraction. It never stops early, because extraction never raises. */
  method RunBatch(files: seq<UploadedFile>, coords: Option<Rect>, open: Opener)
    returns (records: seq<Record>, progress: seq<real>)
    ensures records == Records(files, coords, open)
    ensures |progress| == |files|
    ensures forall i :: 0 <= i < |files| ==> progress[i] == Progress(i, |files|)
  {
    records, progress := [], [];
    for i := 0 to |files|
      invariant records == Records(files[..i], coords, open)
      invariant |progress| == i
      invariant forall j :: 0 <= j < i ==> progress[j] == Progress(j, |files|)
    {
      progress := progress + [Progress(i, |files|)];
      var text := ExtractText(files[i], coords, open);
      records := records + [Record(files[i].name, text)];
      RecordsStep(files, i, coords, open);
    }
    assert files[..|files|] == files;
  }

  /** Batching commutes with concatenation: the records of two batches run back to back are the
      records of the joined batch, so no file's record depends on any other file. */
  lemma {:induction false} RecordsAppend(a: seq<UploadedFile>, b: seq<UploadedFile>, coords: Option<Rect>, open: Opener)
    ensures Records(a + b, coords, open) == Records(a, coords, open) + Records(b, coords, open)
  {
    if b != [] {
      var b' := b[..|b| - 1];
      assert (a + b)[..|a + b| - 1] == a + b';
      RecordsAppend(a, b', coords, open);
    } else {
      assert a + b == a;
    }
  }

  /** Failure isolation: replacing one file (by a corrupt one, say) changes its own record only. */
  lemma ReplacingOneFileChangesOneRecord(files: seq<UploadedFile>, k: nat, g: UploadedFile,
                                         coords: Option<Rect>, open: Opener)
    requires k < |files|
    ensures var before, after := Records(files, coords, open), Records(files[k := g], coords, open);
      |after| == |before| &&
      (forall i :: 0 <= i < |files| && i != k ==> after[i] == before[i]) &&
      after[k] == RecordFor(g, coords, open)
  {
  }

  /** A document without pages yields exactly the fixed message in its own row. */
  lemma EmptyDocumentRow(files: seq<UploadedFile>, k: nat, coords: Option<Rect>, open: Opener)
    requires k < |files| && open(files[k].content) == Opened([])
    ensures Records(files, coords, open)[k] == Record(files[k].name, NoPagesMessage)
  {
  }

  /** Three files a.pdf, b.pdf, c.pdf where b.pdf does not parse: three rows in upload order, an error
      row for b.pdf and page text for the other two. */
  lemma CorruptMiddleFile(goodPage: Page, rect: Rect, a: Bytes, b: Bytes, c: Bytes, open: Opener)
    requires open(a) == Opened([goodPage]) && open(c) == Opened([goodPage])
    requires open(b).OpenFailed?
    requires goodPage.clip(rect).Ok?
    ensures var r := Records([UploadedFile("a.pdf", a), UploadedFile("b.pdf", b), UploadedFile("c.pdf", c)], Some(rect), open);
      |r| == 3 &&
      r[0] == Record("a.pdf", Text.Strip(goodPage.clip(rect).value)) &&
      r[1] == Record("b.pdf", ErrorText(open(b).message)) &&
      r[2] == Record("c.pdf", Text.Strip(goodPage.clip(rect).value))
  {
  }
}
