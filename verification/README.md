# Report chunker: a verified model

This project models the chunking step of the RAG-Challenge-2 pipeline in Dafny.
`TextSplitter` (src/text_splitter.py) turns a parsed report into a flat list of
retrieval chunks:

- every page's text is cut into pieces by a recursive character splitter
  (chunk size 300, overlap 50), and each piece becomes a `content` chunk that
  carries its page number and its token count;
- when a serialized-tables artifact is given, every table that has a
  `serialized` entry and whose `page` is the number of one of the report's
  pages becomes a `serialized_table` chunk of that page, once for each page
  with that number. Its text is its information blocks joined with `"\n"`.
  Tables whose `page` is not the number of any of the report's pages are
  dropped without notice;
- pages are walked in order. A page's content chunks come first, then its
  tables, and one counter gives the chunks the ids 0, 1, 2, …

The model has two modules:

- `ChunkSpec` (chunk_spec.dfy) holds the data model and the specification:
  - the join of information blocks (`JoinLines`) and its inverse (`SplitLines`);
  - the reference grouping of tables by page (`TablesOn`, `TablesByPage`);
  - the chunk list a report must produce (`ReportChunks`);
  - the lemmas that state what that list is.
- `TextSplitter` (text_splitter.dfy) holds the program:
  - the grouping loop;
  - the page-splitting loop;
  - the loading of the table dictionary;
  - the report loop with its single id counter;
  - a `Report` object whose chunk list the split stores.

  Each method's contract ties its result to the `ChunkSpec` definitions. The
  grouping and report loops are proved to compute exactly the `ChunkSpec`
  function for their inputs.

The tokenizer (tiktoken, encoding `o200k_base`) and the recursive splitter
(langchain) are foreign code. They are function-typed parameters
(`TokenCounter`, `Splitter`), and nothing is assumed about them. The tables
artifact, which the program reads from a JSON file, is passed in memory as an
optional `TableArtifact` whose `tables` entry is itself optional.

The report lemmas are stated for any `Grouping` (a function from a page number
to its table candidates). Where they need it, they require that every grouped
candidate sits under its own page (`GroupsOnPage`). `TablesByPageGroups`
proves that the grouping of a table list meets that condition.

## Model

| member | source | states |
|---|---|---|
| ChunkSpec.JoinLines | src/text_splitter.py:19-22 | defines the table text: the information blocks in order with one "\n" between each two, nothing before the first or after the last |
| ChunkSpec.TablePiece | src/text_splitter.py:19-29 | defines the candidate of a serialized table: the table's page and table id, its blocks joined with "\n" as text, and that text's token count |
| ChunkSpec.TablePieceBlocks | src/text_splitter.py:19-29 | splitting a table candidate's text at its newlines gives the table's information blocks back, in order, when there is at least one block and no block holds a newline |
| ChunkSpec.TablesOn | src/text_splitter.py:10-31 | the reference grouping: the candidates of page p are at most as many as the tables, each on page p, with a table id and the token count of its text |
| ChunkSpec.SplitLinesJoinLines | src/text_splitter.py:19-22 | joining newline-free blocks with "\n" loses nothing: splitting at the newlines gives the blocks back, in order |
| ChunkSpec.JoinLinesLength | src/text_splitter.py:19-22 | the joined text is the blocks' lengths plus one separator between each two |
| ChunkSpec.JoinLinesExample | src/text_splitter.py:19-22 | blocks "Header", "Row1" join to "Header\nRow1" |
| ChunkSpec.TablesOnAppend | src/text_splitter.py:11-29 | grouping distributes over concatenation of the table list, so input order is kept within a page |
| ChunkSpec.TablesOnSkipsUnserialized | src/text_splitter.py:11-13 | a table without `serialized` contributes nothing, and the tables around it are grouped as if it were absent |
| ChunkSpec.TablesOnMembers | src/text_splitter.py:11-29 | a candidate is under page p if and only if it is made from a serialized table of page p in the list |
| ChunkSpec.TablesOnEmpty | src/text_splitter.py:15-17 | page p gets a non-empty group if and only if some serialized table is on page p |
| ChunkSpec.TablesOnExample | src/text_splitter.py:19-29 | one table on page 2 with blocks "Header", "Row1" gives exactly one candidate on page 2, with text "Header\nRow1", and none on any other page |
| ChunkSpec.ArtifactTables | src/text_splitter.py:38-42 | defines the table list a report is split with: none without an artifact, the artifact's `tables` entry when it has one, and none when that entry is missing |
| ChunkSpec.ContentPieces | src/text_splitter.py:90-96 | defines a page's content candidates: one per splitter piece, in splitter order, with the page's number, the piece as text, its token count and no table id |
| ChunkSpec.Numbered | src/text_splitter.py:51-62 | defines the numbering loops: the candidates in order, each tagged with the chunk type and given the next id from the start value on |
| ChunkSpec.PageChunks | src/text_splitter.py:50-62 | defines one iteration of the page loop: the page's numbered content chunks, then the tables grouped under its number, numbered on from there |
| ChunkSpec.ReportChunks | src/text_splitter.py:44-62 | defines the chunk list of a report: the chunks of the pages in page order, with ids continuing from the number of chunks already there |
| ChunkSpec.TablesByPageGroups | src/text_splitter.py:24-29 | every candidate of the table grouping is stored under its own page and carries the token count of its text |
| ChunkSpec.ReportChunksStep | src/text_splitter.py:50-62 | one iteration of the page loop appends the page's numbered content chunks, then its numbered tables, with ids continuing from the current count; a page without tables appends content only |
| ChunkSpec.PageChunksShape | src/text_splitter.py:89-96 | a page's chunks are its splitter pieces in order, tagged content, with the page's number and their token counts (none when the split is empty), then its tables; ids run on from the start |
| ChunkSpec.ReportLastPage | src/text_splitter.py:44-62 | chunk by chunk, the report is the chunks of all pages but the last, unchanged, then the last page's content chunks, then its table chunks |
| ChunkSpec.ReportIds | src/text_splitter.py:51-62 | the chunk at position k has id k, so ids are exactly 0..N-1 |
| ChunkSpec.ReportLength | src/text_splitter.py:44-62 | the number of chunks is the sum over pages of the splitter pieces plus the tables grouped under the page's number |
| ChunkSpec.ReportTokensOf | src/text_splitter.py:24-96 | when every grouped table carries its text's token count, so does every chunk of the report: table chunks keep the count taken at line 28, content chunks get the count taken at line 94 |
| ChunkSpec.ReportTokens | src/text_splitter.py:24-96 | every chunk of a report, content or table, has length_tokens equal to the token count of its own text (line 28 for tables, line 94 for content) |
| ChunkSpec.ReportPagesPresent | src/text_splitter.py:56-62 | every chunk has the number of one of the input pages: tables on pages that are absent are never emitted |
| ChunkSpec.ReportTablesGrouped | src/text_splitter.py:56-62 | every table chunk is one of the candidates grouped under its page, numbered with its position |
| ChunkSpec.ReportTableOrigin | src/text_splitter.py:56-62 | every table chunk is made from a serialized table record of the input: its joined text, its table id, its token count |
| ChunkSpec.ReportContentOnly | src/text_splitter.py:44-62 | a grouping with no tables gives content chunks only |
| ChunkSpec.ReportTableExample | src/text_splitter.py:38-62 | a report with one page, page 2, whose text splits into nothing, and an artifact with one serialized table of page 2 made of "Header" and "Row1", is exactly one serialized_table chunk: id 0, page 2, text "Header\nRow1", its token count and the table id |
| ChunkSpec.ReportWithoutTables | src/text_splitter.py:38-42 | without a tables artifact only content chunks appear |
| ChunkSpec.ReportPrefix | src/text_splitter.py:44-62 | the chunks of the first m pages are a prefix of the report's chunks: later pages only append |
| ChunkSpec.ReportPageBlock | src/text_splitter.py:44-62 | the chunks of page k form one block right after those of pages 0..k-1: its content chunks, then its tables |
| ChunkSpec.ReportEmitsGrouped | src/text_splitter.py:56-62 | every candidate grouped under the number of one of the pages is emitted as a table chunk |
| ChunkSpec.ReportEmitsTable | src/text_splitter.py:56-62 | a serialized table whose page is among the pages is emitted, with its joined text, its token count and its table id |
| ChunkSpec.ReportOrdered | src/text_splitter.py:44-62 | with distinct page numbers, chunks are ordered by page position, and within a page every content chunk precedes every table chunk |
| TextSplitter.GetSerializedTablesByPage | src/text_splitter.py:8-31 | the dictionary has key p exactly when the reference grouping of p is non-empty, and stores that grouping under p |
| TextSplitter.SplitPage | src/text_splitter.py:79-97 | one candidate per splitter piece, in splitter order, with the page's number, the piece as text and its token count |
| TextSplitter.AppendTagged | src/text_splitter.py:51-62 | appends the candidates to the chunk list, in order, tagged and numbered from the current id, and advances the id by their number |
| TextSplitter.LoadTablesByPage | src/text_splitter.py:38-42 | the dictionary is empty without an artifact; it has key p exactly when the artifact's grouping of p is non-empty (never, when the artifact has no `tables` entry), and stores that grouping under p |
| TextSplitter.SplitPages | src/text_splitter.py:44-62 | the page loop over a table dictionary builds the specified `ReportChunks` of the pages and the grouping the dictionary stores (missing pages have no tables), and its ids are 0..N-1 |
| TextSplitter.SplitReportChunks | src/text_splitter.py:33-62 | the chunk list is the specified `ReportChunks` of the pages and the artifact's grouping, and its ids are 0..N-1 |
| TextSplitter.Report.constructor | src/text_splitter.py:64 | a report holds its pages and has no chunk list until a split stores one under it |
| TextSplitter.SplitReport | src/text_splitter.py:64-65 | the report's chunk list becomes the specified chunk list of its pages |

## Left out

- Reading the report and the tables artifact from JSON files, and writing the result (`split_all_reports`, lines 99-119), are I/O and are not modelled. The artifact is passed in memory as an optional value.
- `split_all_reports` prints a warning when an artifact file is missing but still passes its path on, so the later `open` would fail. The model cannot express that path, because it has no files.
- Token counting (tiktoken, encoding `o200k_base`) is a parameter. No property of token counts is assumed or claimed, beyond every chunk carrying the count of its own text.
- The recursive character splitter (langchain, `gpt-4o` tokenizer) is a parameter. Its chunk-size and overlap guarantees are not stated; the model only fixes that pages are split with size 300 and overlap 50.
- Aliasing of table records is not modelled. When two pages share a page number, the program appends the same table dictionaries twice, and the second pass overwrites the `id` and `type` already stored in the first. The model emits a fresh record each time. So `ReportIds` holds for the model; for the program it holds only when page numbers are distinct or the repeated pages have no tables.
- ReportOrdered: requires distinct page numbers, because with repeated numbers a page's position is not defined by its number.
- Malformed input is not modelled: a table with `serialized` but no `information_blocks`, or a block without `information_block`, raises in the program. A record's `serialized` field is modelled as the list of block strings, present or absent.
- `table_id` is modelled as a string, while the artifact may hold any JSON value there. The key order of the chunk dictionaries is not modelled.
- The two numbering loops of the page loop (lines 51-55 and 58-62) are one method, `AppendTagged`, called once per loop with the chunk type as a parameter.
- `_split_report` is two methods: `SplitReportChunks` loads the table dictionary (lines 38-42) and hands it to `SplitPages`, which runs the page loop (lines 44-62). The test `tables_by_page and ...` on line 57 is modelled as the key test alone, because an empty dictionary has no keys.
