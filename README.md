# Agentic RAG retrieval pipeline: a Dafny model

This project models the retrieval half of a retrieval-augmented question-answering
pipeline in Dafny 4.11:

- the message envelope its agents exchange (`MCPMessage`);
- the embedding store that holds the uploaded document chunks (`VectorStore`);
- the agent that answers a query envelope with the chunks nearest to the question
  (`RetrievalAgent`).

The project has four modules:

- `Values` (`values.dfy`) covers the part of Python's value model the pipeline
  relies on: dynamically typed values, truthiness, `str.strip()` over Python's
  whitespace set, substring `in` and `dict.get`.
- `Mcp` (`mcp.dfy`) models the envelope.
  - The pure function `Create` states what construction yields. It covers both
    the validated path and the `CREATION_ERROR` fallback.
  - The class `MCPMessage` has the source's attributes and its `message` dict.
    Its invariant `Valid()` says that the attributes mirror the dict.
  - The generated trace id (`freshId`) and the clock (`clock`) are parameters.
- `VectorStores` (`vector_store.dfy`) models the store as a class.
  - It holds the chunk list and a flat index value whose row i is the i-th vector
    added.
  - The embedding model and the index's k-nearest-neighbour search are functions
    given to the constructor. The model's batched call on a list of chunks is
    taken to be the model applied to each chunk in turn (`EncodeAll`). The
    search's type (`Searcher`) promises only the shape of its answer: k entries,
    nearest first, ordinals in `[-1, ntotal)`, and no row twice.
  - The persistence directory is a ghost field. Each file operation may fail,
    and the store swallows the error; every such outcome is a free ghost choice
    (`SaveOutcome`, `ClearOutcome`).
- `Retrieval` (`retrieval.dfy`) models the agent's handling as total functions.
  - A message is its dict form.
  - The duck-typed store is a `StoreHandle`, which records what the agent can
    observe of it.
  - `HandleOf` builds that handle for a `VectorStore`.

Distances are integers standing in for float32 values. The code passes them
through unchanged; only the search's ascending order is used by the contracts.

## Behaviour worth knowing

- `clear` deletes the files and the directory but leaves the in-memory chunks and
  index untouched (`VectorStores.VectorStore.Clear`). A cleared store therefore
  still reports and returns its documents until the process restarts.
  - The directory is gone after `clear`, so every later save fails silently
    (`VectorStores.ClearedDirectoryStaysEmpty`).
- Loading does not check that the chunk count equals the index size
  (`VectorStores.LoadAcceptsMismatchedFiles`).
  - A save whose chunk write fails after the index write succeeded produces such
    a pair of files (`VectorStores.TornSaveReloadsMismatched`).
  - This is why `retrieve` guards each ordinal against the chunk count.
- The persistence directory is created when a store starts without both files,
  not on the first insertion.

## Model

| member | source | states |
|---|---|---|
| Values.StripEmptyIffBlank | mcp.py:8-13 | `s.strip()` is empty exactly when every character of `s` is whitespace, so a whitespace-only argument fails a non-empty check |
| Values.StripIsSlice | mcp.py:17-19 | the stripped string is the slice of the original between a whitespace prefix and a whitespace suffix |
| Values.StripIdempotent | mcp.py:17-19 | stripping an already stripped field changes nothing |
| Mcp.ArgumentError | mcp.py:8-15 | no error exactly when sender, receiver and type are non-blank strings and the payload is a dict; any error raised is a `ValueError` |
| Mcp.Create | mcp.py:6-46 | valid arguments: trimmed sender, receiver and type, the payload unchanged, a truthy trace id kept and an empty one replaced by the fresh id. Invalid arguments: `SYSTEM` → `ERROR_HANDLER`, type `CREATION_ERROR`, a string `error` entry and the fresh id. Both paths: timestamp is clock + `Z`, well-formed fields, and a truthy trace id whenever the fresh id is non-empty |
| Mcp.AsDict | mcp.py:16-23 | the message dict has exactly the six required keys |
| Mcp.AsDictLossless | mcp.py:24-29 | two envelopes with the same dict are equal, so the attributes are determined by the dict |
| Mcp.WithMetadata | mcp.py:75-82 | `metadata[key] == value`, with the `metadata` dict created when absent and its other entries kept; every other payload key is unchanged; a non-dict `metadata` leaves the payload as it was |
| Mcp.ErrorMessage | mcp.py:87-99 | always an error envelope; with a valid sender and receiver its type is `ERROR`, its payload is exactly `error`, `error_type` and `severity == "ERROR"`, and it keeps the trace id |
| Mcp.DefaultErrorMessageIsError | mcp.py:88-99 | with the default sender and receiver the factory yields `SYSTEM` → `ERROR_HANDLER` of type `ERROR` with severity `ERROR` |
| Mcp.SuccessMessage | mcp.py:100-111 | an error envelope exactly when sender or receiver is blank; otherwise type `SUCCESS`, payload exactly `status == "success"` and the unchecked `data`, and it keeps the trace id |
| Mcp.MCPMessage.constructor | mcp.py:6-46 | the attributes mirror the message dict, and the envelope is `Create` of the arguments |
| Mcp.MCPMessage.ToDict | mcp.py:47-50 | returns the message dict: the six required keys, equal to the attributes' dict form |
| Mcp.MCPMessage.IsValid | mcp.py:61-66 | every constructed message is valid |
| Mcp.MCPMessage.IsErrorMessage | mcp.py:67-68 | true exactly when the type is `ERROR`, `CREATION_ERROR` or `CONVERSION_ERROR` |
| Mcp.MCPMessage.AddMetadata | mcp.py:75-82 | the payload becomes `WithMetadata` of the old payload, the dict still mirrors the attributes, and the other fields are unchanged |
| Mcp.MCPMessage.CreateErrorMessage | mcp.py:87-99 | a new valid message whose envelope is `ErrorMessage` |
| Mcp.MCPMessage.CreateSuccessMessage | mcp.py:100-111 | a new valid message whose envelope is `SuccessMessage` |
| VectorStores.LoadOrCreate | vector_store.py:23-38 | both files readable: their contents. Otherwise, including a failed read: no chunks and an empty index of dimension 384 |
| VectorStores.LoadAcceptsMismatchedFiles | vector_store.py:25-29 | a chunk file shorter than the index is loaded as it is |
| VectorStores.AfterSave | vector_store.py:58-64 | a completed save into an existing directory is reloaded exactly; without the directory nothing changes; a failed index write leaves the chunk file alone |
| VectorStores.TornSaveReloadsMismatched | vector_store.py:58-64 | a failed chunk write after a successful index write reloads the new index beside the old chunks |
| VectorStores.AfterClear | vector_store.py:90-100 | unless the first removal fails, a later load starts empty; a complete clear leaves no directory and no files |
| VectorStores.ClearedDirectoryStaysEmpty | vector_store.py:90-100 | after a complete clear, no save persists anything |
| VectorStores.ClearIsIdempotent | vector_store.py:90-100 | clearing a cleared directory changes nothing, however far the second clear gets |
| VectorStores.NonBlank | vector_store.py:42 | keeps exactly the chunks that are non-empty after stripping, never more than given |
| VectorStores.NonBlankDistributes | vector_store.py:42 | the filter keeps the chunks' order: filtering a concatenation concatenates the filtered parts |
| VectorStores.Collect | vector_store.py:77-85 | at most one result per answer entry; each result's text is the chunk at its index, which is in range |
| VectorStores.CollectIsOrderedFilter | vector_store.py:77-85 | the results are exactly the answer entries that name a stored chunk, in the answer's order |
| VectorStores.CollectKeepsOrder | vector_store.py:75-85 | an answer sorted by distance gives results sorted by distance |
| VectorStores.CollectKeepsDistinct | vector_store.py:75-85 | an answer that names no row twice gives results with distinct indices |
| VectorStores.Results | vector_store.py:66-88 | an empty index, a non-positive `top_k` or a query embedding of the wrong width (the search raises and the handler returns `[]`) gives `[]`; otherwise at most `min(top_k, ntotal)` results, each with its chunk's text, sorted by distance and with distinct indices |
| VectorStores.VectorStore.constructor | vector_store.py:9-38 | the chunks and the index are what `LoadOrCreate` gives for the directory |
| VectorStores.VectorStore.SaveIndex | vector_store.py:58-64 | only the directory changes, to `AfterSave` of some outcome |
| VectorStores.VectorStore.AddDocuments | vector_store.py:40-56 | nothing to add: no change. Dimension mismatch: an error and no change. Otherwise the filtered chunks and their embeddings are appended in lock-step and then saved. Equal counts stay equal, and each new row embeds its chunk |
| VectorStores.VectorStore.Retrieve | vector_store.py:66-88 | the loop's results equal `Results` for the store's contents |
| VectorStores.VectorStore.Clear | vector_store.py:90-100 | the chunks and the index are unchanged; the directory becomes `AfterClear` of some outcome |
| VectorStores.VectorStore.GetStats | vector_store.py:102-107 | exactly the three keys; `total_documents` is the chunk count and `index_size` the index's row count, so they are equal exactly when the counts agree; the dimension is the index's |
| Retrieval.QueryValue | agents/retrieval_agent.py:13-15 | any value other than `""` is the `query` entry of a dict payload |
| Retrieval.ParseQuery | agents/retrieval_agent.py:9-17 | accepted exactly when a dict payload holds a non-blank string query, which is returned unstripped. A rejection echoes the query as far as it was read and is a `ValueError` or a `TypeError`; a `TypeError` exactly for a non-dict payload that is not iterable or contains `query` |
| Retrieval.Attempt | agents/retrieval_agent.py:7-18 | retrieves exactly when the query is accepted and the store's `retrieve` exists and returns. The store is called with the stripped query; a failure echoes the query value |
| Retrieval.Reply | agents/retrieval_agent.py:32-38 | from `RetrievalAgent` to `LLMResponseAgent`, with the given type and payload, forwarding the message's trace id when truthy |
| Retrieval.HandleQuery | agents/retrieval_agent.py:6-53 | from `RetrievalAgent` to `LLMResponseAgent`, forwarding the trace id, of type `RETRIEVAL_RESULT` or `ERROR`; an error exactly when the attempt raised |
| Retrieval.SuccessfulQuery | agents/retrieval_agent.py:18-38 | type `RETRIEVAL_RESULT`; `retrieved_context[i]` is the i-th result's text; `num_results` is their count; the query is echoed unstripped; `distances` is present exactly when there are results, one per result, the i-th being the i-th result's distance |
| Retrieval.FailedQuery | agents/retrieval_agent.py:39-53 | type `ERROR` with exactly an empty `retrieved_context`, the query as read, the error text and the error class |
| Retrieval.MalformedQueryIsValueError | agents/retrieval_agent.py:9-17 | a missing payload, a dict payload without `query`, or a blank, empty or non-string query gets a `ValueError` reply with no context |
| Retrieval.VectorStoreAnswersFromChunks | agents/retrieval_agent.py:18-38 | over a vector store, an accepted query gets a `RETRIEVAL_RESULT` with at most three texts, each a stored chunk |
| Retrieval.ValidateVectorStore | agents/retrieval_agent.py:54-68 | false exactly when `retrieve` is missing, `get_stats` raises, or its result has no `total_documents` entry; the count itself never fails validation |
| Retrieval.VectorStoreValidates | agents/retrieval_agent.py:54-68 | every vector store validates, an empty one included |
| Retrieval.ValidationFailure | agents/retrieval_agent.py:70-82 | type `ERROR` from `RetrievalAgent` to `LLMResponseAgent` with query `""` and error type `ValidationError`; the trace id comes from a dict message only |
| Retrieval.ProcessQueryWithValidation | agents/retrieval_agent.py:69-83 | a failed validation gives the `ValidationError` reply; otherwise the result is `handle_query` of a dict message, and the `AttributeError` escapes for a non-dict one |
| Retrieval.UiQueryKeepsTrace | app.py:72-78 | the user interface's `QUERY` envelope is answered under the same trace id, and a whitespace-only question gets a `ValueError` reply |

## Left out

- `get_summary`, `__str__` and `__repr__` (mcp.py:69-74, 83-86) only format text for display.
- The `CONVERSION_ERROR` branch of `to_dict` is left out. Copying a dict does not raise, so that branch is never taken.
- Mcp.CreationErrorPayload: `original_params` records the five constructor arguments. It leaves out the `self` and `e` entries that `locals()` also captures.
- Mcp.MCPMessage.AddMetadata: the payload dict is shared with the caller's dict. The model updates only the message's own copy, so it does not capture the caller seeing the change. The copy `to_dict` returns is also shallow, so a later `add_metadata` shows in a dict returned earlier; the model's `ToDict` result does not change.
- Values.Value: dictionary keys are strings and numbers are integers. Python floats and non-string keys are not modelled.
- Console logging (`print`), uuid generation and the wall-clock time are left out. The id and the time are parameters.
- VectorStores.VectorStore.constructor: the embedding model's own loading failure and the `persist_path` argument are left out. The directory is the ghost `disk` field.
- VectorStores.VectorStore.AddDocuments: the chunks are strings, and the model covers one embedding width check. Non-string chunks and numpy's reshaping of a single 1-D embedding are not modelled.
- VectorStores.VectorStore.Retrieve: `top_k` is an integer. The search and the embedding model are abstract; float32 arithmetic and the L2 distance are not modelled.
- The on-disk formats (FAISS index file, pickle) are left out. Disk contents are their decoded values, or unreadable.
- Retrieval.StoreHandle: `retrieve` returns result records as the vector store does. A duck-typed store returning other shapes is not modelled. Such shapes are plain strings (agents/retrieval_agent.py:22-24) or records without `text`.
- Retrieval.HandleQuery takes the message as a dict. A non-dict message makes the `except` clause raise; this is modelled in `ProcessQueryWithValidation`.
- Retrieval.ParseQuery: `TypeError` messages follow CPython 3.12's wording.
- The other agents (document ingestion, the OpenAI response call) and the Streamlit interface are not part of this model. The exception is the query path of app.py:72-78.
