/** The ingestion orchestration of `crag/create_vectordb.py`: the `VectorDB`
    object, which walks a list of files, cuts PDF files into three-page windows,
    splits the text of each window's middle page (or of a whole text file) into
    chunks, enriches every chunk with a generated context, a translation and a
    source tag, and hands the resulting list to the vector store and to the
    BM25 build. The text splitter, the language model and the file readers are
    parameters of the model. */
module CreateVectordb {
  import opened PyStr
  import opened Tagging
  import opened Lists

  /** The `chunk_size` and `chunk_overlap` the text splitter is configured with. */
  const ChunkSize: nat := 800
  const ChunkOverlap: nat := 100

  type Metadata = map<string, string>

  /** A LangChain `Document`: a page or a chunk, with its metadata. */
  datatype Document = Document(pageContent: string, metadata: Metadata)

  /** What the file system hands back: `PyPDFLoader(path).load()` for a PDF
      file (one document per page) and `open(path).read()` for a text file. */
  datatype FileSystem = FileSystem(pdfPages: string -> seq<Document>, text: string -> string)

  /** The branch `process_document` takes for a path: `.pdf` is tested first. */
  datatype FileKind = Pdf | Txt | Unsupported

  function KindOf(path: string): (kind: FileKind)
    ensures kind == Pdf <==> EndsWith(path, ".pdf")
    ensures kind == Txt <==> !EndsWith(path, ".pdf") && EndsWith(path, ".txt")
  {
    if EndsWith(path, ".pdf") then Pdf else if EndsWith(path, ".txt") then Txt else Unsupported
  }

  /** One pass of the PDF loop: the text given to the language model as the
      surrounding document, and the text of the page that is split into chunks. */
  datatype Window = Window(document: string, source: string)

  /** The windows the PDF loop visits, one per `i` in `range(0, len(pages) - 2)`. */
  function Windows(pages: seq<Document>): (ws: seq<Window>)
    ensures |ws| == if |pages| < 3 then 0 else |pages| - 2
  {
    if |pages| < 3 then []
    else [Window(pages[0].pageContent + pages[1].pageContent + pages[2].pageContent, pages[1].pageContent)]
         + Windows(pages[1..])
  }

  /** Window `i` reads pages `i`, `i + 1` and `i + 2`, all in range, and its
      chunks come from page `i + 1`, which is never the first or the last page. */
  lemma {:induction false} WindowAt(pages: seq<Document>, i: nat)
    requires i < |Windows(pages)|
    ensures i + 2 < |pages| && 1 <= i + 1 <= |pages| - 2
    ensures Windows(pages)[i]
         == Window(pages[i].pageContent + pages[i + 1].pageContent + pages[i + 2].pageContent,
                   pages[i + 1].pageContent)
  {
    if i > 0 {
      WindowAt(pages[1..], i - 1);
      assert pages[1..][i - 1] == pages[i] && pages[1..][i] == pages[i + 1] && pages[1..][i + 1] == pages[i + 2];
    }
  }

  /** The texts handed to the splitter for a PDF are exactly those of its
      interior pages, in order: the first and the last page are context only. */
  lemma WindowSources(pages: seq<Document>)
    requires |pages| >= 3
    ensures forall i :: 0 <= i < |Windows(pages)| ==> Windows(pages)[i].source == pages[1..|pages| - 1][i].pageContent
  {
    forall i | 0 <= i < |Windows(pages)|
      ensures Windows(pages)[i].source == pages[1..|pages| - 1][i].pageContent
    {
      WindowAt(pages, i);
    }
  }

  /** The persisted state the ingestion writes: the Chroma store under
      `data/chroma_db`, one document list per collection name, and the files
      under `data/`, each holding the documents a pickled BM25 retriever was
      built from. */
  class DataDir {
    var chroma: map<string, seq<Document>>
    var bm25Files: map<string, seq<Document>>

    constructor ()
      ensures chroma == map[] && bm25Files == map[]
    {
      chroma := map[];
      bm25Files := map[];
    }

    /** The documents a collection holds so far. */
    function Collection(name: string): seq<Document>
      reads this
    {
      if name in chroma then chroma[name] else []
    }
  }

  class VectorDB {
    const collectionName: string
    /** `text_splitter.create_documents([text])` for a splitter built with a chunk
        size and an overlap. */
    const splitter: (string, nat, nat) -> seq<Document>
    /** The language model answering the context prompt for (document, chunk). */
    const contextModel: (string, string) -> string
    /** The language model answering the translation prompt. */
    const translateModel: string -> string

    constructor (collectionName: string, splitter: (string, nat, nat) -> seq<Document>,
                 contextModel: (string, string) -> string, translateModel: string -> string)
      ensures this.collectionName == collectionName && this.splitter == splitter
      ensures this.contextModel == contextModel && this.translateModel == translateModel
    {
      this.collectionName := collectionName;
      this.splitter := splitter;
      this.contextModel := contextModel;
      this.translateModel := translateModel;
    }

    /** The chunks the configured splitter cuts from a text. */
    function Chunks(text: string): seq<Document> {
      splitter(text, ChunkSize, ChunkOverlap)
    }

    /** `_generate_context`: the model's situating context for a chunk. */
    function GenerateContext(document: string, chunk: string): string {
      contextModel(document, chunk)
    }

    /** `_translate_chunks`: the model's Spanish translation. */
    function TranslateChunks(chunk: string): string {
      translateModel(chunk)
    }

    /** The text sent for translation: context, a blank line, then the chunk. */
    function PreTranslation(document: string, chunk: Document): string {
      GenerateContext(document, chunk.pageContent) + "\n\n" + chunk.pageContent
    }

    /** One enriched chunk: the translation of the pre-translation text, tagged
        with the file's source tag, with the chunk's own metadata. */
    function Enrich(document: string, chunk: Document, filePath: string): Document {
      Document(Wrap(SourceTag(filePath), TranslateChunks(PreTranslation(document, chunk))), chunk.metadata)
    }

    /** An enriched chunk opens with the marker, the source tag and ". ", closes
        with the marker, reads back as that tag and the translation of the context
        followed by a blank line and the chunk, and keeps the chunk's metadata. */
    lemma EnrichShape(document: string, chunk: Document, filePath: string)
      ensures var d, tag := Enrich(document, chunk, filePath), SourceTag(filePath);
        && d.metadata == chunk.metadata
        && |d.pageContent| >= |Open| + |tag| + 2 + |Close|
        && d.pageContent[..|Open| + |tag| + 2] == Open + tag + ". "
        && d.pageContent[|d.pageContent| - |Close|..] == Close
        && Unwrap(d.pageContent)
           == Some(Wrapped(tag, TranslateChunks(GenerateContext(document, chunk.pageContent) + "\n\n" + chunk.pageContent)))
    {
      UnwrapWrap(SourceTag(filePath), TranslateChunks(PreTranslation(document, chunk)));
    }

    /** The list the enrichment loop builds, one append per chunk. It has one
        entry per chunk, in the chunks' order. */
    function Contextualized(document: string, chunks: seq<Document>, filePath: string): (r: seq<Document>)
      ensures |r| == |chunks|
      ensures forall k :: 0 <= k < |chunks| ==> r[k] == Enrich(document, chunks[k], filePath)
    {
      if |chunks| == 0 then []
      else
        var init := chunks[..|chunks| - 1];
        assert forall k :: 0 <= k < |init| ==> init[k] == chunks[k];
        Contextualized(document, init, filePath) + [Enrich(document, chunks[|chunks| - 1], filePath)]
    }

    /** `_generate_contextualized_chunks`. */
    method GenerateContextualizedChunks(document: string, chunks: seq<Document>, filePath: string)
      returns (contextualizedChunks: seq<Document>)
      ensures contextualizedChunks == Contextualized(document, chunks, filePath)
    {
      contextualizedChunks := [];
      for k := 0 to |chunks|
        invariant contextualizedChunks == Contextualized(document, chunks[..k], filePath)
      {
        var chunk := chunks[k];
        var context := GenerateContext(document, chunk.pageContent);
        var contextualizedContent := context + "\n\n" + chunk.pageContent;
        contextualizedContent := TranslateChunks(contextualizedContent);
        var source := SourceTag(filePath);
        contextualizedContent := Open + source + ". " + contextualizedContent + Close;
        assert chunks[..k + 1][..k] == chunks[..k];
        contextualizedChunks := contextualizedChunks + [Document(contextualizedContent, chunk.metadata)];
      }
      assert chunks[..|chunks|] == chunks;
    }

    /** The enriched chunks of one window: its middle page split, each chunk
        contextualised against the three-page document. */
    function WindowChunks(w: Window, filePath: string): seq<Document> {
      Contextualized(w.document, Chunks(w.source), filePath)
    }

    /** The enriched chunks of a run of windows, window after window. */
    function PdfChunks(ws: seq<Window>, filePath: string): seq<Document> {
      ConcatMap((w: Window) => WindowChunks(w, filePath), ws)
    }

    /** What one path contributes to `process_document`'s result. */
    function FileChunks(fs: FileSystem, filePath: string): seq<Document> {
      match KindOf(filePath)
      case Pdf => PdfChunks(Windows(fs.pdfPages(filePath)), filePath)
      case Txt => Contextualized(fs.text(filePath), Chunks(fs.text(filePath)), filePath)
      case Unsupported => []
    }

    /** The result of `process_document`: the files' contributions, file after file. */
    function Processed(fs: FileSystem, filePaths: seq<string>): seq<Document> {
      ConcatMap((path: string) => FileChunks(fs, path), filePaths)
    }

    /** One more file of the outer loop of `process_document`. */
    lemma ProcessedStep(fs: FileSystem, filePaths: seq<string>, f: nat)
      requires f < |filePaths|
      ensures Processed(fs, filePaths[..f + 1]) == Processed(fs, filePaths[..f]) + FileChunks(fs, filePaths[f])
    {
      ConcatMapStep((path: string) => FileChunks(fs, path), filePaths, f);
    }

    /** One more window of the PDF loop of `process_document`. */
    lemma PdfStep(pages: seq<Document>, filePath: string, i: nat)
      requires i < |Windows(pages)|
      ensures PdfChunks(Windows(pages)[..i + 1], filePath)
           == PdfChunks(Windows(pages)[..i], filePath)
              + Contextualized(pages[i].pageContent + pages[i + 1].pageContent + pages[i + 2].pageContent,
                               Chunks(pages[i + 1].pageContent), filePath)
    {
      WindowAt(pages, i);
      ConcatMapStep((w: Window) => WindowChunks(w, filePath), Windows(pages), i);
    }

    /** The PDF branch of `process_document`: one pass per three-page window,
        each appending the enriched chunks of the window's middle page. */
    method ProcessPdf(pages: seq<Document>, filePath: string) returns (contextualizedChunks: seq<Document>)
      ensures contextualizedChunks == PdfChunks(Windows(pages), filePath)
    {
      contextualizedChunks := [];
      var i := 0;
      while i < |pages| - 2
        invariant 0 <= i <= |Windows(pages)|
        invariant contextualizedChunks == PdfChunks(Windows(pages)[..i], filePath)
      {
        var document := pages[i].pageContent + pages[i + 1].pageContent + pages[i + 2].pageContent;
        var chunks := splitter(pages[i + 1].pageContent, ChunkSize, ChunkOverlap);
        var chunkWithContext := GenerateContextualizedChunks(document, chunks, filePath);
        PdfStep(pages, filePath, i);
        contextualizedChunks := contextualizedChunks + chunkWithContext;
        i := i + 1;
      }
      assert Windows(pages)[..i] == Windows(pages);
    }

    /** `process_document`. */
    method ProcessDocument(fs: FileSystem, filePaths: seq<string>) returns (contextualizedChunks: seq<Document>)
      ensures contextualizedChunks == Processed(fs, filePaths)
    {
      contextualizedChunks := [];
      for f := 0 to |filePaths|
        invariant contextualizedChunks == Processed(fs, filePaths[..f])
      {
        var filePath := filePaths[f];
        ProcessedStep(fs, filePaths, f);
        if EndsWith(filePath, ".pdf") {
          var pages := fs.pdfPages(filePath);
          var chunkWithContext := ProcessPdf(pages, filePath);
          contextualizedChunks := contextualizedChunks + chunkWithContext;
        } else if EndsWith(filePath, ".txt") {
          var document := fs.text(filePath);
          var chunks := splitter(document, ChunkSize, ChunkOverlap);
          var chunkWithContext := GenerateContextualizedChunks(document, chunks, filePath);
          contextualizedChunks := contextualizedChunks + chunkWithContext;
        }
      }
      assert filePaths[..|filePaths|] == filePaths;
    }

    /** `create_vectorstore`: the chunks are added to this collection of the Chroma store. */
    method CreateVectorstore(chunks: seq<Document>, data: DataDir)
      modifies data
      ensures data.chroma == old(data.chroma)[collectionName := old(data.Collection(collectionName)) + chunks]
      ensures data.bm25Files == old(data.bm25Files)
    {
      data.chroma := data.chroma[collectionName := data.Collection(collectionName) + chunks];
    }

    /** `create_bm25_retriever`: the file `data/<collection>_bm25` is (over)written
        with a retriever built from exactly these chunks. */
    method CreateBm25Retriever(chunks: seq<Document>, data: DataDir)
      modifies data
      ensures data.bm25Files == old(data.bm25Files)[Bm25Path(collectionName) := chunks]
      ensures data.chroma == old(data.chroma)
    {
      var bm25Path := "data/" + collectionName + "_bm25";
      data.bm25Files := data.bm25Files[bm25Path := chunks];
    }

    /** `store_to_db`: one list of processed chunks goes both to the vector store and to the BM25 file. */
    method StoreToDb(fs: FileSystem, filePaths: seq<string>, data: DataDir)
      modifies data
      ensures data.chroma
           == old(data.chroma)[collectionName := old(data.Collection(collectionName)) + Processed(fs, filePaths)]
      ensures data.bm25Files == old(data.bm25Files)[Bm25Path(collectionName) := Processed(fs, filePaths)]
    {
      var chunks := ProcessDocument(fs, filePaths);
      CreateVectorstore(chunks, data);
      CreateBm25Retriever(chunks, data);
    }

    /** `process_document` over two lists of paths is the result for the first
        followed by the result for the second. */
    lemma ProcessedConcat(fs: FileSystem, first: seq<string>, second: seq<string>)
      ensures Processed(fs, first + second) == Processed(fs, first) + Processed(fs, second)
    {
      ConcatMapAppend((path: string) => FileChunks(fs, path), first, second);
    }

    /** A path ending in neither `.pdf` nor `.txt` contributes nothing, wherever it stands. */
    lemma UnsupportedContributesNothing(fs: FileSystem, before: seq<string>, path: string, after: seq<string>)
      requires !EndsWith(path, ".pdf") && !EndsWith(path, ".txt")
      ensures Processed(fs, before + [path] + after) == Processed(fs, before + after)
    {
      ConcatMapSkip((p: string) => FileChunks(fs, p), before, path, after);
    }

    /** A PDF of fewer than three pages contributes nothing. */
    lemma ShortPdfContributesNothing(fs: FileSystem, path: string)
      requires EndsWith(path, ".pdf") && |fs.pdfPages(path)| < 3
      ensures FileChunks(fs, path) == []
    {
    }

    /** A text file is split whole and its whole text is the context of every chunk. */
    lemma TxtFileChunks(fs: FileSystem, path: string)
      requires !EndsWith(path, ".pdf") && EndsWith(path, ".txt")
      ensures |FileChunks(fs, path)| == |Chunks(fs.text(path))|
      ensures forall k :: 0 <= k < |Chunks(fs.text(path))| ==>
        FileChunks(fs, path)[k] == Enrich(fs.text(path), Chunks(fs.text(path))[k], path)
    {
    }

    /** A PDF file contributes the enriched chunks of its windows: the `.pdf`
        branch of `FileChunks`, unfolded by definition. */
    lemma PdfFileChunks(fs: FileSystem, path: string)
      requires EndsWith(path, ".pdf")
      ensures FileChunks(fs, path) == PdfChunks(Windows(fs.pdfPages(path)), path)
    {
    }

    /** Every enriched chunk of a run of windows is one of the chunks of one window. */
    lemma PdfChunkOrigin(ws: seq<Window>, filePath: string, m: nat)
      requires m < |PdfChunks(ws, filePath)|
      ensures exists k, j :: 0 <= k < |ws| && 0 <= j < |WindowChunks(ws[k], filePath)| &&
                             PdfChunks(ws, filePath)[m] == WindowChunks(ws[k], filePath)[j]
    {
      ConcatMapOrigin((w: Window) => WindowChunks(w, filePath), ws, m);
    }

    /** Chunk `j` of window `k` is chunk `j` of page `k + 1`, contextualised
        against pages `k`, `k + 1` and `k + 2`. */
    lemma WindowChunkAt(pages: seq<Document>, filePath: string, k: nat, j: nat)
      requires k < |Windows(pages)| && j < |WindowChunks(Windows(pages)[k], filePath)|
      ensures 1 <= k + 1 <= |pages| - 2 && j < |Chunks(pages[k + 1].pageContent)|
      ensures WindowChunks(Windows(pages)[k], filePath)[j]
           == Enrich(pages[k].pageContent + pages[k + 1].pageContent + pages[k + 2].pageContent,
                     Chunks(pages[k + 1].pageContent)[j], filePath)
    {
      WindowAt(pages, k);
    }

    /** Every chunk a PDF file contributes was cut from an interior page `p`
        (never the first or the last) and contextualised against pages
        `p - 1`, `p` and `p + 1`. */
    lemma PdfChunkFromMiddlePage(fs: FileSystem, path: string, m: nat)
      requires EndsWith(path, ".pdf")
      requires m < |FileChunks(fs, path)|
      ensures var pages := fs.pdfPages(path);
        exists p, j :: 1 <= p <= |pages| - 2 && 0 <= j < |Chunks(pages[p].pageContent)| &&
          FileChunks(fs, path)[m]
            == Enrich(pages[p - 1].pageContent + pages[p].pageContent + pages[p + 1].pageContent,
                      Chunks(pages[p].pageContent)[j], path)
    {
      var pages := fs.pdfPages(path);
      var ws := Windows(pages);
      PdfFileChunks(fs, path);
      PdfChunkOrigin(ws, path, m);
      var k, j :| 0 <= k < |ws| && 0 <= j < |WindowChunks(ws[k], path)| &&
        PdfChunks(ws, path)[m] == WindowChunks(ws[k], path)[j];
      WindowChunkAt(pages, path, k, j);
      var p := k + 1;
      assert p - 1 == k && p + 1 == k + 2;
    }
  }
}
