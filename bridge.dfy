/**
 * The bridge framework's side of the adapter contract: the request it hands
 * in, the results it takes back, and the exceptions an operation can end with.
 */
module Bridge {
  import opened Wrappers
  import opened LinkedMaps

  /** How an operation can fail. */
  datatype Failure =
    /** BridgeError, with its message (a simulated error, a failing query parser or normaliser). */
    | BridgeError(message: string)
    /** IllegalArgumentException from a malformed records template, with its message. */
    | IllegalArgument(message: string)
    /** NumberFormatException from Integer.valueOf / Long.valueOf; None when the text was null. */
    | NumberFormat(input: Option<string>)
    /** NullPointerException from reading a missing pageSize entry. */
    | NullPointer

  datatype Result<+T> = Ok(value: T) | Err(error: Failure) {
    predicate IsFailure() {
      Err?
    }

    function PropagateFailure<U>(): Result<U>
      requires Err?
    {
      Err(error)
    }

    function Extract(): T
      requires Ok?
    {
      value
    }
  }

  /** BridgeRequest: everything is fixed except the query, which the adapter replaces with its substituted form. */
  class BridgeRequest {
    const structure: string
    /** Null when the caller asked for no particular fields. */
    const fields: Option<seq<string>>
    var query: string
    const parameters: map<string, string>
    const metadata: map<string, string>

    constructor (structure: string, fields: Option<seq<string>>, query: string,
                 parameters: map<string, string>, metadata: map<string, string>)
      ensures this.structure == structure && this.fields == fields && this.query == query
      ensures this.parameters == parameters && this.metadata == metadata
    {
      this.structure := structure;
      this.fields := fields;
      this.query := query;
      this.parameters := parameters;
      this.metadata := metadata;
    }
  }

  /** The result of a count: the number of records and the metadata. */
  datatype Count = Count(value: int, metadata: map<string, string>)

  /** One record: its attributes in declaration order, and its metadata when it was given one. */
  datatype Record = Record(attributes: LinkedMap, metadata: Option<map<string, string>>)

  /** The result of a search: the requested fields, the page of records and the metadata. */
  datatype RecordList = RecordList(fields: Option<seq<string>>, records: seq<Record>, metadata: map<string, string>)
}
