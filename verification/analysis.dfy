/**
 Classifying a decoded document and dispatching it to the matching
 summariser, as done for each file of a directory scan.
 */
module Analysis {
  import opened Wrappers
  import opened Json
  import opened Buckets
  import opened PostmanSummary
  import opened Swagger

  datatype DocType = SwaggerDocument | PostmanCollection | UnknownDocument

  /** Classifies by membership tests on the document: "swagger" first, then
      "info" together with "item". On an object these are key tests. */
  function Identify(content: Value): (r: Result<DocType, Error>)
    ensures r.Failure? <==> content.Number? || content.Bool? || content.Null?
    ensures content.Object? ==>
              (r == Success(SwaggerDocument) <==> HasKey(content.fields, "swagger"))
    ensures content.Object? ==>
              (r == Success(PostmanCollection) <==>
                 !HasKey(content.fields, "swagger") &&
                 HasKey(content.fields, "info") && HasKey(content.fields, "item"))
    ensures content.Object? ==>
              (r == Success(UnknownDocument) <==>
                 !HasKey(content.fields, "swagger") &&
                 !(HasKey(content.fields, "info") && HasKey(content.fields, "item")))
  {
    var isSwagger :- Contains(content, "swagger");
    if isSwagger then Success(SwaggerDocument)
    // the first membership test already failed on a scalar, so these succeed
    else if Contains(content, "info").value && Contains(content, "item").value then Success(PostmanCollection)
    else Success(UnknownDocument)
  }

  /** The per-file result: a summary, or a message for an unknown type. */
  datatype Details = Counts(summary: Summary) | Message(text: string)

  const UnknownTypeMessage: string := "Unknown API documentation type."

  function AsDetails(r: Result<Summary, Error>): Result<Details, Error> {
    match r
    case Success(s) => Success(Counts(s))
    case Failure(e) => Failure(e)
  }

  /** Classify, then summarise; any failure on the way fails the file. The
      unknown-type message is produced exactly for documents classified
      unknown, and a Swagger document or collection gets exactly the outcome
      of its own summariser. */
  function Analyze(content: Value): (r: Result<Details, Error>)
    ensures Identify(content).Failure? ==> r == Failure(Identify(content).error)
    ensures r == Success(Message(UnknownTypeMessage)) <==> Identify(content) == Success(UnknownDocument)
    ensures Identify(content) == Success(SwaggerDocument) ==> r == AsDetails(SummarizeSwagger(content))
    ensures Identify(content) == Success(PostmanCollection) ==> r == AsDetails(SummarizePostman(content))
    ensures r.Success? && r.value.Message? ==> r.value.text == UnknownTypeMessage
    ensures r.Success? && r.value.Counts? ==>
              (Identify(content) == Success(SwaggerDocument) && SummarizeSwagger(content) == Success(r.value.summary)) ||
              (Identify(content) == Success(PostmanCollection) && SummarizePostman(content) == Success(r.value.summary))
  {
    var kind :- Identify(content);
    match kind
    case PostmanCollection => AsDetails(SummarizePostman(content))
    case SwaggerDocument => AsDetails(SummarizeSwagger(content))
    case UnknownDocument => Success(Message(UnknownTypeMessage))
  }

  /** A document carrying "swagger" is a Swagger document even when it also
      carries "info" and "item". */
  lemma SwaggerTakesPrecedence(fields: seq<Field>)
    requires HasKey(fields, "swagger") && HasKey(fields, "info") && HasKey(fields, "item")
    ensures Identify(Object(fields)) == Success(SwaggerDocument)
    ensures Analyze(Object(fields)) == AsDetails(SummarizeSwagger(Object(fields)))
  {
  }

  /** An object with none of the trigger keys is reported as unknown. */
  lemma PlainObjectIsUnknown(fields: seq<Field>)
    requires !HasKey(fields, "swagger") && !HasKey(fields, "item")
    ensures Analyze(Object(fields)) == Success(Message(UnknownTypeMessage))
  {
  }

  /** A top-level string that mentions "swagger" is classified as Swagger by
      the substring test, and its summary is the empty one. */
  lemma SwaggerMentioningString(s: string)
    requires IsSubstring("swagger", s)
    ensures Analyze(String(s)) == Success(Counts(Summary(0, map[], 0)))
  {
  }

  /** A top-level array holding the strings "info" and "item" (and not
      "swagger") is classified as a collection, which then fails on
      `content["item"]`. */
  lemma ArrayMentioningCollectionKeys(items: seq<Value>)
    requires String("info") in items && String("item") in items && String("swagger") !in items
    ensures Identify(Array(items)) == Success(PostmanCollection)
    ensures Analyze(Array(items)) == Failure(NotSubscriptable)
  {
  }
}
