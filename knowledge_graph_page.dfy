/** The request handlers of the knowledge-graph page component.

    The component's state hooks become the fields of class `Page`; each
    handler becomes a method that performs the same `setX` calls in the same
    order. What the network and the JSON parser do is abstracted: the reply to
    a request is a datatype argument, and `JSON.parse` is a total function
    parameter `parse` that either yields a value or reports a syntax-error
    message. The theme hook and rendering are not modelled. */
module KnowledgeGraphPage {
  import opened Wrappers
  import opened ExtractJson

  // Messages the page writes into `error` and `uploadMessage`.
  const NoAnswerMessage := "No answer field found in response"
  const FetchErrorMessage := "Error fetching graph data"
  const NoFileMessage := "No file selected!"
  const UploadErrorMessage := "Error uploading PDF"
  const UploadSuccessMessage := "File uploaded and processed successfully!"

  // Messages of errors the handlers throw; none of them ever reaches `error`.
  const NoValidJsonMessage := "No valid JSON found in the answer field."
  const ParseFailurePrefix := "Failed to parse answer into JSON: "
  const UploadNotOkMessage := "failed to upload PDF"
  // The JavaScript engine's TypeError messages for `null.answer` and for
  // calling `.match` on a value that is not a string.
  const NullDataTypeError := "Cannot read properties of null (reading 'answer')"
  const MatchTypeError := "text.match is not a function"

  /** The `answer` property of the decoded query reply: a string, or any other
      JavaScript value (`undefined`, `null`, a number, an object, ...) of which
      only its truthiness matters here. */
  datatype AnswerField = Text(text: string) | NotText(truthy: bool)

  /** JavaScript truthiness of `data.answer`. */
  predicate Truthy(field: AnswerField)
  {
    match field
    case Text(s) => s != ""
    case NotText(t) => t
  }

  /** What `await fetch(...)` followed by `await response.json()` gives the
      query handler: a rejection (network failure or a body that is not JSON),
      the JSON value `null`, or a value whose `answer` property is `answer`
      (a number, string or boolean body has an `undefined` answer). */
  datatype QueryResponse = QueryRejected(reason: string) | NullData | Data(answer: AnswerField)

  /** What the upload request gives the upload handler: a rejected `fetch`, a
      response whose `ok` is false, an ok response whose body does not decode
      as JSON, or an ok response with a JSON body. */
  datatype UploadResponse = UploadRejected(reason: string) | NotOk | BodyRejected(reason: string) | Processed

  /** The `File` object picked in the file input. */
  datatype PdfFile = PdfFile(name: string)

  /** How the outer `try` block of the query handler ends: it stored a parsed
      answer, it reported a missing answer field, or it threw an error with
      the given message, which the outer `catch` receives. */
  datatype QueryDisposition<V> = Loaded(value: V) | NoAnswerField | Thrown(message: string)

  /** How the `try` block of the upload handler ends. */
  datatype UploadDisposition = Uploaded | UploadThrown(message: string)

  /** A snapshot of the component's state. */
  datatype PageState<V> = PageState(
    query: string,
    answer: Option<V>,
    loading: bool,
    error: Option<string>,
    selectedFile: Option<PdfFile>,
    uploadMessage: string)

  /** The outer `try` block of `fetchGraphData`, with the inner `try`/`catch`
      around `extractJSON` and `JSON.parse` folded in: an error thrown inside
      is rethrown with the prefix "Failed to parse answer into JSON: ". */
  function QueryAttempt<V>(response: QueryResponse, parse: string -> Result<V, string>): (d: QueryDisposition<V>)
    ensures d.NoAnswerField? <==> response.Data? && !Truthy(response.answer)
    ensures d.Loaded? <==>
      response.Data? && response.answer.Text? &&
      ExtractJSON(response.answer.text).Some? && parse(ExtractJSON(response.answer.text).value).Success?
    ensures d.Loaded? ==> parse(ExtractJSON(response.answer.text).value) == Success(d.value)
    ensures response.QueryRejected? ==> d == Thrown(response.reason)
    ensures response.NullData? ==> d == Thrown(NullDataTypeError)
    ensures response.Data? && Truthy(response.answer) && !d.Loaded? ==>
      d.Thrown? && |d.message| >= |ParseFailurePrefix| && d.message[..|ParseFailurePrefix|] == ParseFailurePrefix
  {
    match response
    case QueryRejected(reason) => Thrown(reason)
    case NullData => Thrown(NullDataTypeError)
    case Data(field) =>
      if !Truthy(field) then NoAnswerField
      else
        var inner: Result<V, string> :=
          match field
          case NotText(_) => Failure(MatchTypeError)
          case Text(t) =>
            match ExtractJSON(t)
            case None => Failure(NoValidJsonMessage)
            case Some(json) => parse(json);
        match inner
        case Success(v) => Loaded(v)
        case Failure(m) => Thrown(ParseFailurePrefix + m)
  }

  /** The `try` block of `uploadFile`. */
  function UploadAttempt(response: UploadResponse): (d: UploadDisposition)
    ensures d.Uploaded? <==> response.Processed?
    ensures response.NotOk? ==> d == UploadThrown(UploadNotOkMessage)
    ensures response.UploadRejected? ==> d == UploadThrown(response.reason)
    ensures response.BodyRejected? ==> d == UploadThrown(response.reason)
  {
    match response
    case UploadRejected(reason) => UploadThrown(reason)
    case NotOk => UploadThrown(UploadNotOkMessage)
    case BodyRejected(reason) => UploadThrown(reason)
    case Processed => Uploaded
  }

  /** The only values either handler ever leaves in `error`. */
  predicate IsShownError(e: Option<string>)
  {
    e == None || e == Some(NoAnswerMessage) || e == Some(FetchErrorMessage) || e == Some(UploadErrorMessage)
  }

  /** An error rethrown by the inner `catch` of the query handler carries none
      of the messages the page shows, so the generic message that the outer
      `catch` writes (see `Page.FetchGraphData`) never reveals it. */
  lemma InnerErrorIsMasked<V>(text: string, parse: string -> Result<V, string>)
    requires text != ""
    requires ExtractJSON(text).None? || parse(ExtractJSON(text).value).Failure?
    ensures QueryAttempt(Data(Text(text)), parse).Thrown?
    ensures var m := QueryAttempt(Data(Text(text)), parse).message;
      !IsShownError(Some(m)) && m != NoFileMessage
  {
  }

  /** A query reply whose answer is itself a braced JSON object that parses is
      stored unchanged: `extractJSON` returns such a text whole. */
  lemma BracedAnswerLoads<V>(text: string, parse: string -> Result<V, string>, v: V)
    requires |text| >= 2 && text[0] == '{' && text[|text| - 1] == '}'
    requires parse(text) == Success(v)
    ensures QueryAttempt(Data(Text(text)), parse) == Loaded(v)
  {
    BracedIsFixedPoint(text);
  }

  /** The knowledge-graph page component. `answer` holds the parsed graph
      data (the component renders the graph when it is set); `error` and
      `uploadMessage` are the red and green status lines. */
  class Page<V> {
    var query: string
    var answer: Option<V>
    var loading: bool
    var error: Option<string>
    var selectedFile: Option<PdfFile>
    var uploadMessage: string

    ghost function State(): PageState<V>
      reads this
    {
      PageState(query, answer, loading, error, selectedFile, uploadMessage)
    }

    /** The initial values of the state hooks. */
    constructor ()
      ensures State() == PageState("", None, false, None, None, "")
    {
      query := "";
      answer := None;
      loading := false;
      error := None;
      selectedFile := None;
      uploadMessage := "";
    }

    /** The query input's `onChange` handler. */
    method EditQuery(text: string)
      modifies this`query
      ensures State() == old(State()).(query := text)
    {
      query := text;
    }

    /** `handleFileSelection`: the first file of the input, `None` when it
        holds none. */
    method SelectFile(file: Option<PdfFile>)
      modifies this`selectedFile
      ensures State() == old(State()).(selectedFile := file)
    {
      selectedFile := file;
    }

    /** `fetchGraphData`, on a request whose reply is `response`.

        `pending` is the state while the request is outstanding;
        `errorWrites` lists the arguments of the handler's `setError` calls
        in order. */
    method FetchGraphData(response: QueryResponse, parse: string -> Result<V, string>)
      returns (ghost pending: PageState<V>, ghost errorWrites: seq<Option<string>>)
      modifies this`answer, this`loading, this`error
      ensures pending == old(State()).(loading := true, error := None)
      ensures !loading
      ensures IsShownError(error)
      ensures match QueryAttempt(response, parse)
        case Loaded(v) => State() == old(State()).(loading := false, error := None, answer := Some(v))
        case NoAnswerField => State() == old(State()).(loading := false, error := Some(NoAnswerMessage))
        case Thrown(_) => State() == old(State()).(loading := false, error := Some(FetchErrorMessage))
      ensures |errorWrites| >= 1 && errorWrites[0] == None && errorWrites[|errorWrites| - 1] == error
      ensures forall k :: 0 <= k < |errorWrites| ==> IsShownError(errorWrites[k])
    {
      loading := true;
      error := None;
      errorWrites := [None];
      pending := State();

      // The outer `try`: `thrown` is the error that reaches its `catch`.
      var thrown: Option<string> := None;
      match response {
      case QueryRejected(reason) =>
        thrown := Some(reason);
      case NullData =>
        thrown := Some(NullDataTypeError);
      case Data(field) =>
        if Truthy(field) {
          // The inner `try`: `innerThrown` is the error its `catch` rethrows.
          var innerThrown: Option<string> := None;
          match field {
          case NotText(_) =>
            innerThrown := Some(MatchTypeError);
          case Text(t) =>
            var extracted := ExtractJSON(t);
            if extracted.Some? {
              match parse(extracted.value) {
              case Success(v) =>
                answer := Some(v);
              case Failure(m) =>
                innerThrown := Some(m);
              }
            } else {
              innerThrown := Some(NoValidJsonMessage);
            }
          }
          if innerThrown.Some? {
            thrown := Some(ParseFailurePrefix + innerThrown.value);
          }
        } else {
          error := Some(NoAnswerMessage);
          errorWrites := errorWrites + [error];
        }
      }
      if thrown.Some? {
        error := Some(FetchErrorMessage);
        errorWrites := errorWrites + [error];
      }

      loading := false;
    }

    /** `uploadFile`, on an upload whose reply is `response`. The guard on a
        missing file does not return, so its message is overwritten at once
        by the reset before the request; the request is sent either way. */
    method UploadFile(response: UploadResponse)
      returns (ghost pending: PageState<V>, ghost errorWrites: seq<Option<string>>)
      modifies this`loading, this`error, this`uploadMessage
      ensures pending == old(State()).(loading := true, error := None)
      ensures !loading
      ensures IsShownError(error)
      ensures match UploadAttempt(response)
        case Uploaded => State() == old(State()).(loading := false, error := None, uploadMessage := UploadSuccessMessage)
        case UploadThrown(_) => State() == old(State()).(loading := false, error := Some(UploadErrorMessage))
      ensures errorWrites ==
        (if old(selectedFile).None? then [Some(NoFileMessage)] else []) + [None] +
        (if response.Processed? then [] else [Some(UploadErrorMessage)])
    {
      errorWrites := [];
      if selectedFile.None? {
        error := Some(NoFileMessage);
        errorWrites := errorWrites + [error];
      }

      loading := true;
      error := None;
      errorWrites := errorWrites + [error];
      pending := State();

      // The `try`: `thrown` is the error that reaches its `catch`.
      var thrown: Option<string> := None;
      match response {
      case UploadRejected(reason) =>
        thrown := Some(reason);
      case NotOk =>
        thrown := Some(UploadNotOkMessage);
      case BodyRejected(reason) =>
        thrown := Some(reason);
      case Processed =>
        uploadMessage := UploadSuccessMessage;
      }
      if thrown.Some? {
        error := Some(UploadErrorMessage);
        errorWrites := errorWrites + [error];
      }

      loading := false;
    }
  }
}
