/** The records written to and read from the Pinecone index, and the two
    tools both versions of the document agent define the same way:
    `save_to_pinecone` (chunks to records) and `query_pinecone` (a filtered
    similarity search wrapped in the retry helper). Embedding, the index and
    the text splitter are external. */
module VectorRecords {

  import opened Wrappers
  import opened Text
  import Retry

  /** The text splitter's configuration; the splitter itself is library code and not modelled. */
  const ChunkSize := 1000
  const ChunkOverlap := 200

  /** A metadata value. */
  datatype Scalar = SString(s: string) | SNumber(n: int) | SBool(b: bool) | SNull

  /** A LangChain `Document` as stored in the index. */
  datatype Record = Record(pageContent: string, metadata: map<string, Scalar>)

  const DocumentIdKey := "documentId"
  const ChunkIndexKey := "chunkIndex"

  /** `{ ...metadata, documentId, chunkIndex: index }`: the caller's metadata
      with the two keys set last, so they win over same-named caller keys. */
  function ChunkMetadata(metadata: map<string, Scalar>, documentId: string, index: nat): map<string, Scalar>
  {
    metadata[DocumentIdKey := SString(documentId)][ChunkIndexKey := SNumber(index)]
  }

  /** One record per chunk, in chunk order. */
  function ChunkRecords(chunks: seq<string>, documentId: string, metadata: map<string, Scalar>): (r: seq<Record>)
    ensures |r| == |chunks| && forall i :: 0 <= i < |r| ==> r[i].pageContent == chunks[i]
  {
    seq(|chunks|, i requires 0 <= i < |chunks| => Record(chunks[i], ChunkMetadata(metadata, documentId, i)))
  }

  /** Record `i` holds chunk `i`, is tagged with the document id and with `i`
      itself; every other caller key keeps its value, and no key is invented. */
  lemma ChunkRecordsShape(chunks: seq<string>, documentId: string, metadata: map<string, Scalar>, i: nat)
    requires i < |chunks|
    ensures var r := ChunkRecords(chunks, documentId, metadata);
      && |r| == |chunks|
      && r[i].pageContent == chunks[i]
      && r[i].metadata[DocumentIdKey] == SString(documentId)
      && r[i].metadata[ChunkIndexKey] == SNumber(i)
      && r[i].metadata.Keys == metadata.Keys + {DocumentIdKey, ChunkIndexKey}
      && (forall k :: k in metadata && k != DocumentIdKey && k != ChunkIndexKey ==> r[i].metadata[k] == metadata[k])
  {
  }

  /** Within one call, chunk indices are distinct, and reading the contents
      back gives the chunks in order. */
  lemma ChunkRecordsIndexedInOrder(chunks: seq<string>, documentId: string, metadata: map<string, Scalar>)
    ensures var r := ChunkRecords(chunks, documentId, metadata);
      && (forall i, j :: 0 <= i < j < |r| ==> r[i].metadata[ChunkIndexKey] != r[j].metadata[ChunkIndexKey])
      && Contents(r) == chunks
  {
  }

  function Contents(records: seq<Record>): seq<string>
  {
    seq(|records|, i requires 0 <= i < |records| => records[i].pageContent)
  }

  function DigitText(d: nat): string
    requires d < 10
  {
    ["0123456789"[d]]
  }

  /** `String(n)` for a natural number. */
  function NatText(n: nat): string
  {
    if n < 10 then DigitText(n) else NatText(n / 10) + DigitText(n % 10)
  }

  /** The `save_to_pinecone` tool: writes one record per chunk and reports how
      many it saved under which id; a failing write is rethrown. */
  function SaveToPinecone(chunks: seq<string>, documentId: string, metadata: Option<map<string, Scalar>>,
                          addDocuments: seq<Record> -> Completion): (r: Result<string>)
    ensures var written := ChunkRecords(chunks, documentId, if metadata.Some? then metadata.value else map[]);
      && (r.Err? <==> addDocuments(written).Threw?)
      && (r.Err? ==> r.message == addDocuments(written).message)
      && (r.Ok? ==> r.value == "Successfully saved " + NatText(|chunks|) + " chunks to Pinecone with documentId: " + documentId)
  {
    var records := ChunkRecords(chunks, documentId, if metadata.Some? then metadata.value else map[]);
    match addDocuments(records)
    case Threw(e) => Err(e)
    case Done => Ok("Successfully saved " + NatText(|chunks|) + " chunks to Pinecone with documentId: " + documentId)
  }

  /** One similarity search, as the retry helper sees it. */
  function SearchAttempt(r: Result<seq<Record>>): Retry.Attempt<seq<Record>>
  {
    match r
    case Ok(rs) => Retry.Returned(rs, |rs| == 0)
    case Err(e) => Retry.Threw(e)
  }

  /** The `query_pinecone` tool: the search for the 3 best matches of the
      query within one document, retried with the default bound and the
      given initial delay. `search(i)` is the i-th search's outcome. It never
      reaches 'Max retries reached'; an empty result comes back only from the
      fifth search; every search before the last one threw or found nothing; and sleep `k` lasts `initialDelay * 2^k`. */
  method QueryPinecone(search: nat -> Result<seq<Record>>, initialDelay: nat)
    returns (outcome: Retry.RetryOutcome<seq<Record>>, calls: nat, waits: seq<nat>)
    ensures 1 <= calls <= Retry.DefaultMaxRetries && |waits| == calls - 1
    ensures forall k :: 0 <= k < |waits| ==> waits[k] == initialDelay * Retry.Pow2(k)
    ensures outcome != Retry.MaxRetriesReached
    ensures forall i :: 0 <= i < calls - 1 ==> search(i).Err? || search(i) == Ok([])
    ensures outcome.Value? ==> search(calls - 1) == Ok(outcome.value)
    ensures outcome.Value? && outcome.value == [] ==> calls == Retry.DefaultMaxRetries
    ensures outcome.Rethrown? ==> calls == Retry.DefaultMaxRetries && search(calls - 1) == Err(outcome.error)
  {
    var op := (i: nat) => SearchAttempt(search(i));
    outcome, calls, waits := Retry.RetryWithExponentialBackoff(op, Retry.DefaultMaxRetries, initialDelay);
    Retry.RetryStopsAtFirstDecisive(op, Retry.DefaultMaxRetries, initialDelay);
  }
}
