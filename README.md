# Ingestion of `VectorDB` (crag/create_vectordb.py), modelled in Dafny

The model covers the ingestion side of the CRAG pipeline: the `VectorDB` object.

- It walks a list of file paths and dispatches on the suffix: `.pdf` is tested first, then `.txt`; any other file is skipped.
- A PDF is cut into three-page windows. Window `i` uses pages `i`, `i + 1` and `i + 2` as the context document. Only the middle page is split into chunks.
- A text file is split whole and is its own context.
- Each chunk is enriched in order:
  - a context generated by the language model, a blank line and the chunk text are passed to the translation model;
  - the translation is wrapped as `<documento> FUENTE: <source tag>. <translation><documento>`;
  - the chunk's metadata is kept.
- The source tag comes from the file path. Take its last `/` component and keep the part before the first `.`. Replace `_` by a space, then apply `title()`.
- `store_to_db` gives one list of chunks to both the Chroma collection and the BM25 file `data/<collection>_bm25`.

Files:

- `pystr.dfy` (module `PyStr`): the Python `str` operations used, over `seq<char>`. These are `split`/`join` on one character, `replace` of one character, `endswith`, and `title` over ASCII letters.
- `tagging.dfy` (module `Tagging`): the source tag, the `<documento>` wrapper with its inverse, and the BM25 file path.
- `lists.dfy` (module `Lists`): the "extend the result with each item's contribution" shape of the loops, with its algebra.
- `vectordb.dfy` (module `CreateVectordb`):
  - `VectorDB` is a class. Its constant fields are the collection name, the text splitter and the two language-model calls. Its methods mirror the source's loops and are proved against specification functions: `Contextualized`, `PdfChunks`, `FileChunks` and `Processed`.
  - `DataDir` is a class holding the persisted state: the Chroma collections and the BM25 files.

The model takes these as parameters:

- the language model (`contextModel`, `translateModel`);
- the splitter (`splitter`, called with chunk size 800 and overlap 100);
- the file readers (`FileSystem.pdfPages` for `PyPDFLoader(path).load()` and `FileSystem.text` for `open(path).read()`).

Window selection follows the code, `range(0, len(pages) - 2)`. The code does not clamp: the first and last pages are never split into chunks, and a PDF of fewer than three pages contributes nothing.

## Model

| member | source | states |
|---|---|---|
| PyStr.Split | crag/create_vectordb.py:108 | `str.split` on one character: at least one part, no part holds the separator, and joining the parts gives the string back |
| PyStr.SplitJoin | crag/create_vectordb.py:108 | splitting a join of separator-free parts gives those parts back, so `split` and `join` are mutually inverse |
| PyStr.LastPart | crag/create_vectordb.py:108 | `split(sep)[-1]` is a suffix of the string without separators, preceded by a separator unless it is the whole string |
| PyStr.FirstPart | crag/create_vectordb.py:108 | `split(sep)[0]` is a prefix of the string without separators, followed by a separator unless it is the whole string |
| PyStr.Replace | crag/create_vectordb.py:108 | `replace('_', ' ')` keeps the length and changes exactly the occurrences of the replaced character |
| PyStr.ReplaceRemoves | crag/create_vectordb.py:108 | after the replacement no underscore is left |
| PyStr.Title | crag/create_vectordb.py:108 | `title()` over ASCII: a letter at the start or after a non-letter is upper-cased, any other letter is lower-cased, non-letters are unchanged, and the length is kept |
| PyStr.TitleIdempotent | crag/create_vectordb.py:108 | applying `title()` twice is the same as applying it once |
| PyStr.TitleKeepsNonLetters | crag/create_vectordb.py:108 | a non-letter occurs in the title-cased string exactly when it occurs in the input |
| PyStr.TitleJoin | crag/create_vectordb.py:108 | `title()` of space-separated lower-case words capitalises each word |
| PyStr.EndsWith | crag/create_vectordb.py:64-75 | `str.endswith`: a string that ends with the suffix is some prefix followed by the suffix |
| PyStr.EndsWithAppend | crag/create_vectordb.py:64-75 | conversely, any string followed by the suffix ends with it |
| PyStr.ReplaceJoin | crag/create_vectordb.py:108 | replacing the separator of a join by another character gives the join with that character |
| Tagging.SourceTag | crag/create_vectordb.py:108 | the source tag holds no `/`, `.` or `_`, and has as many characters as the file name before its first dot |
| Tagging.StemOf | crag/create_vectordb.py:108 | the tag's stem of `dir/stem.ext` is `stem` for any directory path `dir`, nested directories included: only the last `/` component counts |
| Tagging.SourceTagOfWords | crag/create_vectordb.py:108 | a file named by underscore-joined lower-case words, in any directory, is tagged with those words capitalised and separated by spaces |
| Tagging.SourceTagExample | crag/create_vectordb.py:255 | `data/thinking_systems_from_donella_meadows.pdf` is tagged `Thinking Systems From Donella Meadows` |
| Tagging.Wrap | crag/create_vectordb.py:109 | the wrapped content starts with `<documento> FUENTE: ` + tag + `. ` and ends with `<documento>` |
| Tagging.UnwrapWrap | crag/create_vectordb.py:109 | with a dot-free tag, the tag and the body are read back from the wrapped content |
| Tagging.WrapUnwrap | crag/create_vectordb.py:109 | whatever reads back as a tag and a body is exactly their wrapping, with a dot-free tag |
| Tagging.Bm25Path | crag/create_vectordb.py:234 | the BM25 file is `data/` + collection name + `_bm25` |
| Tagging.Bm25PathInjective | crag/create_vectordb.py:234 | two collections share a BM25 file only if they have the same name |
| Lists.ConcatMapAppend | crag/create_vectordb.py:62-82 | extending with the items of two lists in turn gives the result for the first list followed by the result for the second |
| Lists.ConcatMapOrigin | crag/create_vectordb.py:68-72 | every element of the accumulated list is an element of one item's contribution |
| CreateVectordb.KindOf | crag/create_vectordb.py:64-75 | a path is handled as a PDF exactly when it ends in `.pdf`, and as text exactly when it ends in `.txt` but not `.pdf` |
| CreateVectordb.Windows | crag/create_vectordb.py:68 | a PDF of `n` pages has `n - 2` windows if `n >= 3`, and none otherwise |
| CreateVectordb.WindowAt | crag/create_vectordb.py:68-70 | window `i` reads only pages `i`, `i + 1` and `i + 2`, all below `n`. Its document is their concatenation and its chunk source is page `i + 1`, which is an interior page |
| CreateVectordb.WindowSources | crag/create_vectordb.py:69-70 | the texts that are split are exactly the interior pages `1 .. n - 2`, in order |
| CreateVectordb.VectorDB.constructor | crag/create_vectordb.py:33-48 | a new `VectorDB` holds the given collection name, text splitter and language-model calls. The splitter's 800/100 setting is the constants `ChunkSize` and `ChunkOverlap`, applied in `Chunks` |
| CreateVectordb.VectorDB.GenerateContext | crag/create_vectordb.py:117-174 | `_generate_context` is the context model's answer for (document, chunk). `EnrichShape` shows it is the text before the blank line that goes to translation |
| CreateVectordb.VectorDB.TranslateChunks | crag/create_vectordb.py:176-201 | `_translate_chunks` is the translation model's answer for the text. `EnrichShape` shows it is the body read back from every enriched chunk |
| CreateVectordb.VectorDB.EnrichShape | crag/create_vectordb.py:100-112 | an enriched chunk has the chunk's metadata, the marker, the source tag and `. ` at the start, and the marker at the end. It reads back as the tag and the translation of context + `\n\n` + chunk |
| CreateVectordb.VectorDB.Contextualized | crag/create_vectordb.py:96-113 | the enriched list has one entry per chunk, and entry `k` is the enrichment of chunk `k` |
| CreateVectordb.VectorDB.GenerateContextualizedChunks | crag/create_vectordb.py:84-115 | the enrichment loop builds exactly `Contextualized` of its document, chunks and path |
| CreateVectordb.VectorDB.PdfStep | crag/create_vectordb.py:68-72 | one more pass of the PDF loop appends the enrichment of page `i + 1`'s chunks against pages `i` to `i + 2` |
| CreateVectordb.VectorDB.ProcessPdf | crag/create_vectordb.py:64-72 | the PDF branch builds the enriched chunks of all windows, window after window |
| CreateVectordb.VectorDB.ProcessedStep | crag/create_vectordb.py:62-80 | one more file of the outer loop appends that file's contribution |
| CreateVectordb.VectorDB.ProcessDocument | crag/create_vectordb.py:50-82 | `process_document` returns the contributions of the files, file after file, in input order |
| CreateVectordb.VectorDB.ProcessedConcat | crag/create_vectordb.py:62-82 | processing two lists of paths gives the result for the first followed by the result for the second |
| CreateVectordb.VectorDB.UnsupportedContributesNothing | crag/create_vectordb.py:64-80 | a path ending in neither `.pdf` nor `.txt` can be dropped from the list without changing the result |
| CreateVectordb.VectorDB.ShortPdfContributesNothing | crag/create_vectordb.py:68 | a PDF of fewer than three pages contributes no chunk |
| CreateVectordb.VectorDB.TxtFileChunks | crag/create_vectordb.py:75-80 | a text file is split whole: one output per chunk of its text, each contextualised against the whole text |
| CreateVectordb.VectorDB.PdfFileChunks | crag/create_vectordb.py:64-72 | a `.pdf` path contributes the enriched chunks of its windows |
| CreateVectordb.VectorDB.PdfChunkOrigin | crag/create_vectordb.py:68-72 | every chunk of a run of windows is one of the chunks of one window |
| CreateVectordb.VectorDB.WindowChunkAt | crag/create_vectordb.py:68-71 | chunk `j` of window `k` is chunk `j` of page `k + 1`, enriched against pages `k` to `k + 2` |
| CreateVectordb.VectorDB.PdfChunkFromMiddlePage | crag/create_vectordb.py:68-72 | every chunk of a PDF was cut from an interior page `p` and contextualised against pages `p - 1`, `p` and `p + 1` |
| CreateVectordb.VectorDB.CreateVectorstore | crag/create_vectordb.py:203-218 | the chunks are added to this collection, and the BM25 files are unchanged |
| CreateVectordb.VectorDB.CreateBm25Retriever | crag/create_vectordb.py:220-235 | the file `data/<collection>_bm25` is overwritten with exactly these chunks, and the Chroma store is unchanged |
| CreateVectordb.VectorDB.StoreToDb | crag/create_vectordb.py:237-249 | the vector store and the BM25 file receive the same list, which is `process_document`'s result |

## Left out

- The language-model calls (`_generate_context`, `_translate_chunks`, crag/create_vectordb.py:117-201) are fixed functions taken as parameters. Their prompts, the network call and any non-determinism are not modelled. Each call is taken to return one string for one input.
- `RecursiveCharacterTextSplitter` is library code. It is a parameter applied with chunk size 800 and overlap 100. Nothing is claimed about how it splits or about chunk overlap.
- `PyPDFLoader`, `open(...).read()`, `os.makedirs`, `pickle`, `tqdm` and `dotenv` are not modelled. The file readers are given as `FileSystem` functions; progress bars and environment loading have no effect on the result.
- The model does not represent exceptions: from a missing file, from I/O, or from the language model.
- CreateVectordb.VectorDB.StoreToDb: an empty chunk list is modelled as written, not as raising. When `process_document` returns `[]`, the BM25 library raises at `BM25Retriever.from_documents` (crag/create_vectordb.py:230), after the Chroma write and before the file at :234 is opened. This happens for an empty path list, only unsupported files, only PDFs of fewer than three pages, or a splitter that yields nothing. The model instead records `[]` as the file's documents. The same applies to CreateVectordb.VectorDB.CreateBm25Retriever.
- Embeddings are not modelled. The BM25 index build is not modelled either: a BM25 file is represented by the documents it was built from.
- `Chroma.from_documents` is modelled as appending the chunks to the named collection. Deduplication and persistence inside Chroma are library behaviour and are not modelled.
- PyStr.Title: covers ASCII letters only; Python's Unicode case rules (other cased scripts, title-case digraphs) are not modelled.
- Document metadata is a map from strings to strings; it is only copied, so its value types do not matter.
- rag/, app/ and the retrieval side are not part of this model: they wire library retrievers, filters and rerankers together.
- The `__main__` block (crag/create_vectordb.py:252-255) appears only through the source tag of its example file, in `Tagging.SourceTagExample`.
