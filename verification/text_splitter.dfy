/** The report chunker as the program runs it: loops that fill a dictionary of
    table candidates per page, wrap the splitter's pieces with their metadata,
    and append numbered chunks to one list under a single counter. Each method
    is proved against the specification in ChunkSpec. */
module TextSplitter {
  import opened ChunkSpec

  /** Groups the serialized tables by page number. Records without a serialized
      representation are skipped; each other record becomes one candidate whose
      text is its information blocks joined with "\n". A page is a key exactly
      when it has a serialized table, and its list holds that page's
      candidates in input order. */
  method GetSerializedTablesByPage(tables: seq<TableRecord>, countTokens: TokenCounter)
    returns (tablesByPage: map<int, seq<Piece>>)
    ensures forall p :: p in tablesByPage <==> TablesOn(tables, p, countTokens) != []
    ensures forall p :: p in tablesByPage ==> tablesByPage[p] == TablesOn(tables, p, countTokens)
  {
    tablesByPage := map[];
    var i := 0;
    while i < |tables|
      invariant 0 <= i <= |tables|
      invariant forall p :: p in tablesByPage <==> TablesOn(tables[..i], p, countTokens) != []
      invariant forall p :: p in tablesByPage ==> tablesByPage[p] == TablesOn(tables[..i], p, countTokens)
    {
      var table := tables[i];
      assert tables[..i + 1][..i] == tables[..i] && tables[..i + 1][i] == table;
      if table.serialized.None? {
        assert forall p :: TablesOn(tables[..i + 1], p, countTokens) == TablesOn(tables[..i], p, countTokens);
        i := i + 1;
        continue;
      }
      var page := table.page;
      if page !in tablesByPage {
        tablesByPage := tablesByPage[page := []];
      }
      var tableText := JoinLines(table.serialized.value);
      tablesByPage := tablesByPage[page := tablesByPage[page]
        + [Piece(page, tableText, countTokens(tableText), Some(table.tableId))]];
      forall p
        ensures (p in tablesByPage <==> TablesOn(tables[..i + 1], p, countTokens) != [])
        ensures p in tablesByPage ==> tablesByPage[p] == TablesOn(tables[..i + 1], p, countTokens)
      {
        if p != page {
          assert TablesOn(tables[..i + 1], p, countTokens) == TablesOn(tables[..i], p, countTokens);
        } else {
          assert TablesOn(tables[..i + 1], p, countTokens)
            == TablesOn(tables[..i], p, countTokens) + [TablePiece(table, countTokens)];
        }
      }
      i := i + 1;
    }
    assert tables[..|tables|] == tables;
  }

  /** Splits one page's text and wraps each piece, in splitter order, with the
      page's number and the piece's own token count. */
  method SplitPage(page: Page, split: Splitter, countTokens: TokenCounter, chunkSize: nat, chunkOverlap: nat)
    returns (chunksWithMeta: seq<Piece>)
    ensures chunksWithMeta == ContentPieces(page.page, split(page.text, chunkSize, chunkOverlap), countTokens)
  {
    var chunks := split(page.text, chunkSize, chunkOverlap);
    chunksWithMeta := [];
    var i := 0;
    while i < |chunks|
      invariant 0 <= i <= |chunks|
      invariant |chunksWithMeta| == i
      invariant forall k :: 0 <= k < i ==>
        chunksWithMeta[k] == Piece(page.page, chunks[k], countTokens(chunks[k]), None)
    {
      var chunk := chunks[i];
      chunksWithMeta := chunksWithMeta + [Piece(page.page, chunk, countTokens(chunk), None)];
      i := i + 1;
    }
  }

  /** Numbers the candidates from `chunkId` on, tags them with `kind` and
      appends them to `chunks`, in order; returns the grown list and the next
      free id. */
  method AppendTagged(chunks: seq<Chunk>, chunkId: nat, kind: ChunkType, pieces: seq<Piece>)
    returns (chunks': seq<Chunk>, chunkId': nat)
    ensures chunkId' == chunkId + |pieces|
    ensures chunks' == chunks + Numbered(kind, pieces, chunkId)
  {
    chunks', chunkId' := chunks, chunkId;
    var j := 0;
    while j < |pieces|
      invariant 0 <= j <= |pieces|
      invariant chunkId' == chunkId + j
      invariant chunks' == chunks + Numbered(kind, pieces[..j], chunkId)
    {
      var piece := pieces[j];
      NumberedSnoc(kind, pieces, chunkId, j);
      chunks' := chunks' + [Chunk(chunkId', kind, piece.page, piece.text, piece.lengthTokens, piece.tableId)];
      chunkId' := chunkId' + 1;
      j := j + 1;
    }
    assert pieces[..j] == pieces;
  }

  /** The table dictionary a report is split with: the grouping of the
      artifact's tables when there is an artifact (an artifact without a
      `tables` entry has none), and the empty dictionary otherwise. Either way
      it stores exactly the non-empty groups of `TablesByPage`. */
  method LoadTablesByPage(artifact: Option<TableArtifact>, countTokens: TokenCounter)
    returns (tablesByPage: map<int, seq<Piece>>)
    ensures artifact.None? ==> tablesByPage == map[]
    ensures forall p :: p in tablesByPage <==> TablesByPage(ArtifactTables(artifact), countTokens)(p) != []
    ensures forall p :: p in tablesByPage ==> tablesByPage[p] == TablesByPage(ArtifactTables(artifact), countTokens)(p)
  {
    tablesByPage := map[];
    if artifact.Some? {
      tablesByPage := GetSerializedTablesByPage(artifact.value.tables.GetOr([]), countTokens);
    }
  }

  /** The page loop: for each page in order, its content pieces tagged
      content, then the candidates the dictionary stores under its number
      tagged serialized_table, with ids handed out by one counter. */
  method SplitPages(pages: seq<Page>, tablesByPage: map<int, seq<Piece>>, split: Splitter, countTokens: TokenCounter)
    returns (chunks: seq<Chunk>)
    ensures chunks == ReportChunks(pages, StoredGrouping(tablesByPage), split, countTokens)
    ensures forall k :: 0 <= k < |chunks| ==> chunks[k].id == k
  {
    chunks := [];
    var chunkId: nat := 0;
    ghost var groups := StoredGrouping(tablesByPage);

    var i := 0;
    while i < |pages|
      invariant 0 <= i <= |pages|
      invariant chunkId == |chunks|
      invariant chunks == ReportChunks(pages[..i], groups, split, countTokens)
    {
      var page := pages[i];
      var pageChunks := SplitPage(page, split, countTokens, DefaultChunkSize, DefaultChunkOverlap);
      ReportChunksStep(pages, i, groups, split, countTokens, chunks, chunkId, pageChunks, groups(page.page));
      chunks, chunkId := AppendTagged(chunks, chunkId, Content, pageChunks);
      if page.page in tablesByPage {
        chunks, chunkId := AppendTagged(chunks, chunkId, SerializedTable, tablesByPage[page.page]);
      }
      i := i + 1;
    }
    assert pages[..|pages|] == pages;
    ReportIds(pages, groups, split, countTokens);
  }

  /** Builds a report's chunk list: the table dictionary of the artifact (none
      without one), then the page loop over it. The result is the specified
      chunk list of the pages and the artifact's table grouping. */
  method SplitReportChunks(pages: seq<Page>, artifact: Option<TableArtifact>, split: Splitter, countTokens: TokenCounter)
    returns (chunks: seq<Chunk>)
    ensures chunks == ReportChunks(pages, TablesByPage(ArtifactTables(artifact), countTokens), split, countTokens)
    ensures forall k :: 0 <= k < |chunks| ==> chunks[k].id == k
  {
    var tablesByPage := LoadTablesByPage(artifact, countTokens);
    chunks := SplitPages(pages, tablesByPage, split, countTokens);
    ReportChunksSameGroups(pages, StoredGrouping(tablesByPage), TablesByPage(ArtifactTables(artifact), countTokens), split, countTokens);
  }

  /** A parsed report: its pages, and the chunk list once it has been split. */
  class Report {
    const pages: seq<Page>
    var chunks: Option<seq<Chunk>>

    constructor (pages: seq<Page>)
      ensures this.pages == pages && chunks == None
    {
      this.pages := pages;
      chunks := None;
    }
  }

  /** Splits a report and stores the chunk list in it; the pages stay as they
      were. */
  method SplitReport(report: Report, artifact: Option<TableArtifact>, split: Splitter, countTokens: TokenCounter)
    modifies report
    ensures report.chunks == Some(ReportChunks(report.pages, TablesByPage(ArtifactTables(artifact), countTokens), split, countTokens))
  {
    var chunks := SplitReportChunks(report.pages, artifact, split, countTokens);
    report.chunks := Some(chunks);
  }
}
