/** The `{"role": ..., "content": ...}` records that both chat servers keep
    per session, and the pieces of a chat request they share. */
module ChatMessages {
  import opened Wrappers
  import Text

  datatype Role = System | User | Assistant

  datatype Message = Message(role: Role, content: string)

  const RetrievedHeading := "\n---\nRetrieved knowledge:\n"

  /** The content of the system message that records the retrieved
      documents: the heading, then the documents joined by newlines. */
  function RetrievedContext(documents: seq<string>): (context: string)
    ensures |context| >= |RetrievedHeading| && context[..|RetrievedHeading|] == RetrievedHeading
    ensures context[|RetrievedHeading|..] == Text.Join(documents, "\n")
  {
    RetrievedHeading + Text.Join(documents, "\n")
  }

  /** The documents can be read back from the context: split at its
      newlines, the text after the heading gives each document in order
      when none of them spans lines. */
  lemma RetrievedDocuments(documents: seq<string>)
    requires documents != []
    requires forall k :: 0 <= k < |documents| ==> '\n' !in documents[k]
    ensures var context := RetrievedContext(documents);
      Text.Split(context[|RetrievedHeading|..], '\n') == documents
  {
    Text.SplitJoin(documents, '\n');
  }
}
