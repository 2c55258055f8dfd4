/** What retrieval hands to the context and to the citations. */
module Evidence {

  datatype RetrievedChunk = RetrievedChunk(sourceDocumentId: int, chunkId: string, text: string,
                                           relevance: real, modes: seq<string>)

  datatype RetrievedFact = RetrievedFact(sourceDocumentId: int, chunkId: string, sourceName: string,
                                         relationshipType: string, targetName: string, text: string,
                                         relevance: real)

  datatype RetrievalEvidence = RetrievalEvidence(chunks: seq<RetrievedChunk>, facts: seq<RetrievedFact>)
}
