# Knowledge-graph page: JSON extraction and request handlers

This project models the logic of the knowledge-graph page of a small web
front end (`frontend/src/app/knowledge-graph/page.jsx`). The page sends a text
query or a PDF to a backend. It digs a JSON object out of the free-text
`answer` the backend returns and keeps it as the graph to draw. Two parts are
modelled and proved.

- **`extractJSON`** (module `ExtractJson`, `extract_json.dfy`). It applies the
  regular expression `/\{[\s\S]*\}/` and returns the match or `null`. The model
  uses two explicit index searches instead of a regex: the first `{` and the
  last `}`. It is proved against an independent description of the regex:
  a match is any span from a `{` to a later `}`, and the result is the
  leftmost match, the longest one at that start. Proved properties: `null`
  exactly when no `}` follows the first `{`; otherwise the text from the first
  `{` through the last `}`, at least two characters long; idempotence.
- **`fetchGraphData` and `uploadFile`** (module `KnowledgeGraphPage`,
  `knowledge_graph_page.dfy`). The component's state hooks (`query`, `answer`,
  `loading`, `error`, `selectedFile`, `uploadMessage`) are the fields of class
  `Page`. Each handler is a method that makes the same `setX` calls in the
  same order. It follows the nested `try`/`catch` with explicit "thrown error"
  variables. The reply of each request is a datatype argument. `JSON.parse` is
  a function parameter `parse` that returns a value or a syntax-error message;
  its internals are not modelled. Pure functions (`QueryAttempt`,
  `UploadAttempt`) say how each `try` block ends. Each method's postcondition
  gives its whole new state in terms of them.

Points of behaviour the model makes explicit:

- An error thrown inside the query handler's inner `try` is rethrown with the
  prefix "Failed to parse answer into JSON: ". The outer `catch` then replaces
  it with "Error fetching graph data". So the inner message never reaches
  `error`, and the previous `answer` stays.
- `uploadFile`'s "No file selected!" guard has no `return`. The message is
  overwritten by `setError(null)` straight away, and the request is sent
  anyway. The ghost output `errorWrites` records this sequence of writes.
- Both handlers end with `loading` false on every path. While the request is
  outstanding (ghost output `pending`) `loading` is true and `error` is null.
- The engine's `TypeError`s are thrown errors like the others. They arise
  from a `null` reply body (`data.answer`) and from a truthy `answer` that is
  not a string (`text.match`). The model writes their messages as the V8
  texts, but they are never shown.

## Model

| member | source | states |
|---|---|---|
| `ExtractJson.FirstIndexOf` | frontend/src/app/knowledge-graph/page.jsx:32 | finds the leftmost `{`, where a match of the pattern must start: absent exactly when no character is the one sought, otherwise the smallest index holding it |
| `ExtractJson.LastIndexOf` | frontend/src/app/knowledge-graph/page.jsx:32 | finds the last `}`, where the greedy `[\s\S]*` makes the match end: absent exactly when no character is the one sought, otherwise the largest index holding it |
| `ExtractJson.RegexMatch` | frontend/src/app/knowledge-graph/page.jsx:32 | `text.match(/\{[\s\S]*\}/)`: no match exactly when no `{` is followed by a `}`; otherwise a span from a `{` to a later `}` that starts no later and ends no earlier than any other match (leftmost, then longest) |
| `ExtractJson.ExtractJSON` | frontend/src/app/knowledge-graph/page.jsx:30-34 | `null` exactly when the pattern matches nowhere; otherwise the contiguous text from the first `{` through the last `}`, both included |
| `ExtractJson.ExtractNullIff` | frontend/src/app/knowledge-graph/page.jsx:32-33 | `null` if and only if the text has no `{`, or no `}` after its first `{` |
| `ExtractJson.ExtractShape` | frontend/src/app/knowledge-graph/page.jsx:32-33 | a non-null result has length at least 2, starts with `{` and ends with `}` |
| `ExtractJson.BracedIsFixedPoint` | frontend/src/app/knowledge-graph/page.jsx:32-33 | a text that starts with `{` and ends with `}` is returned whole, even when it contains more braces or newlines |
| `ExtractJson.ExtractIdempotent` | frontend/src/app/knowledge-graph/page.jsx:32-33 | applying `extractJSON` to its own non-null result returns it unchanged |
| `KnowledgeGraphPage.QueryAttempt` | frontend/src/app/knowledge-graph/page.jsx:41-72 | the query's `try` block stores an answer exactly when the reply's `answer` is a string whose extracted JSON parses, and stores that parse; it reports a missing answer exactly when `answer` is falsy; a rejected request or `null` body throws; every other truthy answer throws an error prefixed "Failed to parse answer into JSON: " |
| `KnowledgeGraphPage.UploadAttempt` | frontend/src/app/knowledge-graph/page.jsx:94-108 | the upload's `try` block completes exactly when the response is ok and its body decodes; a not-ok response throws "failed to upload PDF", a rejection throws its own reason |
| `KnowledgeGraphPage.InnerErrorIsMasked` | frontend/src/app/knowledge-graph/page.jsx:57-75 | when extraction yields `null` or parsing fails, the error reaching the outer `catch` is none of the messages the page ever shows |
| `KnowledgeGraphPage.BracedAnswerLoads` | frontend/src/app/knowledge-graph/page.jsx:58-61 | an answer that is itself a braced object which parses to `v` is stored as `v` |
| `KnowledgeGraphPage.Page.constructor` | frontend/src/app/knowledge-graph/page.jsx:7-13 | the initial state: empty query and upload message, no answer, error or file, not loading |
| `KnowledgeGraphPage.Page.EditQuery` | frontend/src/app/knowledge-graph/page.jsx:133 | the query input's change handler replaces `query` and nothing else |
| `KnowledgeGraphPage.Page.SelectFile` | frontend/src/app/knowledge-graph/page.jsx:82-84 | `handleFileSelection` replaces `selectedFile` and nothing else |
| `KnowledgeGraphPage.Page.FetchGraphData` | frontend/src/app/knowledge-graph/page.jsx:37-80 | while pending, loading on and error reset; afterwards loading off on every path; on success `answer` is the parsed value and `error` null; with a falsy answer field `error` is "No answer field found in response" and `answer` kept; on any thrown error `error` is "Error fetching graph data" and `answer` kept; every `setError` argument is null or a shown message; query, file and upload message untouched |
| `KnowledgeGraphPage.Page.UploadFile` | frontend/src/app/knowledge-graph/page.jsx:86-115 | with no file, "No file selected!" is written and then immediately overwritten by null; loading off on every path; on success the upload message is the success text and `error` null; on a not-ok, rejected or undecodable reply `error` is "Error uploading PDF" and the upload message kept; query, answer and file untouched |

## Left out

- `frontend/src/components/KnowledgeGraph.jsx` is not part of this model. It
  is a d3 force layout with SVG binding, tooltips and drag pinning, which means
  floating-point layout and DOM side effects in a third-party library.
- `main.py` is not part of this model. It is a FastAPI endpoint that only
  checks a content type and joins page texts through the PDF library.
- The theme effect (`matchMedia` listener, page.jsx:16-28), rendering, inline
  styles and the `disabled` conditions of the buttons are left out as UI
  plumbing. So the model treats the handlers as callable in any state.
- `fetch`, `FormData`, `response.json()`, HTTP status codes and the request
  bodies are left out as I/O. The bodies hold the query, the model name
  "llama2" and the form field "file". Each request's result is an abstract
  reply argument.
- The internals of `JSON.parse` are left out: it is a function parameter.
- `console.error` logging is left out (I/O).
- React's scheduling is left out: batching of state updates, re-renders and
  two handlers interleaving across their `await`s. Each handler is one atomic
  step from its first statement to its last. `pending` only records the
  state at the point of the `await`.
- `KnowledgeGraphPage.Page.FetchGraphData`: `errorWrites` is stated by its
  first and last entries and the set of values it may hold, not entry by entry.
