# wiki-transform in Dafny

A model of the page-assembly core of wiki-transform. This is a Node.js
`Transform` stream that turns a wiki XML dump into `{title, text}` page
records. The stream hands its input to an incremental XML tokenizer. It reacts
to the five events the tokenizer reports: open tag, text, CDATA, close tag and
error. From them it assembles each `page` element's `title` and `text` fields,
validates the record, pushes it downstream and latches the first tokenization
error. The model also covers the serializer that writes a page back as XML.

The tokenizer is abstract. A chunk of input is represented by the sequence of
`Sax.Event`s it yields, and the end of input by the events it yields last.

Modules, by source file:

- `Page` (src/page.ts): the `WikiPage` record and `WikiPageToXml`.
- `Sax`: the tokenizer's event interface, with helpers over event sequences
  (the first error, the fragments of a run of character data, the events of a
  sequence of chunks).
- `Assembly` (src/transform.ts): the assembler as a pure reference. `State`
  holds `WikiTransform`'s five private fields plus what it has handed on: the
  pushed pages and the info and error messages sent to the logger. `Step` is
  one event handler. `Run` folds `Step` over a sequence of events. `Assemble`
  runs from the state of a freshly constructed transform.
- `AssemblyLemmas`: what the assembler guarantees over whole event sequences.
- `Transform` (src/transform.ts): the class `WikiTransform`. Its fields mirror
  the source's private fields. It has one method per handler, `Feed` (the
  tokenizer driving the handlers), `TransformChunk` and `Flush` (`_transform`
  and `_flush`), and `ProcessStream`, which runs a whole document through a
  fresh transform chunk by chunk and stops at the first failing callback. Each
  handler is proved to perform `Assembly.Step`, so every method is tied to
  `Assembly.Run`.
- `RoundTrip`: the events a tokenizer reports for the serializer's output.
  `Render` turns those events back into exactly `WikiPageToXml(page)`.
  Assembling them gives back exactly that page.

The `switch` order of the source is kept:

- Opening a tag tests the configured page tag before `"title"`/`"text"`.
- Closing a tag tests `"title"`, then `"text"`, then the page tag.

With a page tag of `"title"` or `"text"`, no page is ever emitted
(`AssemblyLemmas.FieldNamedPageTagEmitsNothing`).

Two behaviours of the code that are easy to overlook, and that the model keeps:

- Opening a page resets only `currentTitle` and `currentText`. It leaves
  `characterBuffer` and `bufferingCharacters` as they were (src/transform.ts:32-35).
  So a field left open when a new page starts keeps its buffered characters.
- The assembler keeps emitting pages after a tokenization error. Only the
  stream stops, after the callback of the chunk in which the error occurred.
  Pages pushed while handling that chunk have already been pushed.

## Model

| member | source | states |
|---|---|---|
| `Assembly.NoTextMessage` | src/transform.ts:74 | reference definition, no contract: the info diagnostic for a page with a title but no text |
| `Assembly.ErrorMessage` | src/transform.ts:85 | reference definition, no contract: the error diagnostic, with the formatted error appended |
| `Assembly.Join` | src/transform.ts:57 | reference definition, no contract: `join("")`, the fragments concatenated in order |
| `Assembly.Falsy` | src/transform.ts:68-73 | reference definition, no contract: a field is falsy when unset or empty |
| `Assembly.OpenTagStep` | src/transform.ts:30-42 | reference definition, no contract: the "opentag" handler, page tag tested first |
| `Assembly.CharactersStep` | src/transform.ts:43-52 | reference definition, no contract: the "text" and "cdata" handlers |
| `Assembly.ClosePageStep` | src/transform.ts:67-81 | reference definition, no contract: title checked, then text, then one page pushed |
| `Assembly.CloseTagStep` | src/transform.ts:53-83 | reference definition, no contract: the "closetag" handler in the order title, text, page tag |
| `Assembly.ErrorStep` | src/transform.ts:84-90 | reference definition, no contract: the "error" handler |
| `Assembly.Step` | src/transform.ts:29-90 | reference definition, no contract: one event dispatched to its handler |
| `Assembly.Run` | src/transform.ts:29-90 | reference definition, no contract: the handlers applied to the events in order |
| `Assembly.Assemble` | src/transform.ts:92-101 | reference definition, no contract: `Run` from the state of a freshly constructed transform |
| `RoundTrip.PageTokens` | src/page.ts:6-11 | reference definition, no contract: the events a tokenizer reports for the serializer's template |
| `Page.WikiPageToXml` | src/page.ts:6-11 | the output starts with `<page>` and ends with `</page>`; its length is a fixed template length plus the lengths of title and text; the title sits verbatim between `<title><![CDATA[` and `]]></title>`; the text sits verbatim, after the title segment, between `<text><![CDATA[` and `]]></text>` |
| `Transform.WikiTransform.constructor` | src/transform.ts:92-101 | the page tag is the configured one, or `"page"` when none is given; buffer empty, buffering off, no title, text or error, nothing pushed or logged |
| `Transform.WikiTransform.OnOpenTag` | src/transform.ts:30-42 | the page tag unsets title and text and leaves everything else; otherwise `title`/`text` turn buffering on; any other tag changes nothing; the buffer and the error never change |
| `Transform.WikiTransform.OnText` | src/transform.ts:43-47 | the fragment is appended to the end of the buffer exactly when buffering is on; nothing else changes |
| `Transform.WikiTransform.OnCdata` | src/transform.ts:48-52 | the same step as the text handler |
| `Transform.WikiTransform.OnCloseTag` | src/transform.ts:53-83 | closing `title`/`text` turns buffering off, sets that field to the joined buffer and empties the buffer; closing the page with a falsy title logs "Page without title!"; else with a falsy text logs "Page '<title>' has no text!"; else pushes exactly one page with the current title and text; other tags change nothing |
| `Transform.WikiTransform.OnError` | src/transform.ts:84-90 | one error-log entry is appended; the error is stored only if none was stored before |
| `Transform.WikiTransform.OnEvent` | src/transform.ts:29-90 | each event kind is routed to its handler: the new state is one `Assembly.Step` |
| `Transform.WikiTransform.Feed` | src/transform.ts:108 | handling a chunk's events one by one gives `Assembly.Run` of the old state over them |
| `Transform.WikiTransform.TransformChunk` | src/transform.ts:103-110 | after the chunk's events, the callback gets the latched error: the earlier one if set, else the chunk's first error |
| `Transform.WikiTransform.Flush` | src/transform.ts:112-115 | after the final events, the callback gets the latched error in the same way |
| `Transform.ProcessStream` | src/transform.ts:103-115 | the reported failure is the document's first error; without one, the pages are exactly `Assemble` of all events, however they are split into chunks; with one, the pages are a prefix of those |
| `AssemblyLemmas.JoinAppend` | src/transform.ts:57 | joining with `""` is concatenation, so it distributes over appending fragment lists |
| `AssemblyLemmas.RunAppend` | src/transform.ts:29-90 | handling `a` then `b` equals handling `a + b` (chunk boundaries between events do not matter) |
| `AssemblyLemmas.CharacterDataRun` | src/transform.ts:43-52 | a run of text and CDATA events appends its fragments in order while buffering, and is ignored otherwise |
| `AssemblyLemmas.FieldElement` | src/transform.ts:37-65 | a whole `title` or `text` element sets that field to the join of everything buffered, turns buffering off and empties the buffer, when the page tag differs from the field name |
| `AssemblyLemmas.SplitInvisible` | src/transform.test.ts:267-297 | splitting a field's characters into any number of text or CDATA events gives the same state as one text event holding their concatenation |
| `AssemblyLemmas.SiblingInvisible` | src/transform.ts:31-82 | an element that is neither the page nor a field, met while buffering is off, leaves the state unchanged |
| `AssemblyLemmas.InsertSiblingInvisible` | src/transform.test.ts:73-89 | inserting such an element where buffering is off does not change the outcome |
| `AssemblyLemmas.PageElementOutcome` | src/transform.ts:67-81 | for a page element met with an empty buffer and a page tag other than the field names: an empty title is logged and skipped; else an empty text is logged and skipped; else exactly the assembled page is pushed |
| `AssemblyLemmas.FieldOrderIrrelevant` | src/transform.test.ts:56-71 | for a page element met with an empty buffer and a page tag other than the field names, `text` before `title` ends in the same state as `title` first |
| `AssemblyLemmas.PageWithoutTitle` | src/transform.test.ts:169-204 | a page holding only a text element pushes nothing and logs exactly "Page without title!" |
| `AssemblyLemmas.PageWithoutText` | src/transform.test.ts:206-241 | a page holding only a non-empty title pushes nothing and logs exactly "Page '<title>' has no text!" |
| `AssemblyLemmas.RunKeepsPagesValid` | src/transform.ts:67-81 | every pushed page has a non-empty title and a non-empty text |
| `AssemblyLemmas.PagesOnlyAppended` | src/transform.ts:78-81 | pages already pushed stay in place; new pages come after them, at most one per page-close event |
| `AssemblyLemmas.InfoLogOnlyAppended` | src/transform.ts:67-81 | with a page tag other than the field names, logged info diagnostics and pushed pages stay in place, and each page-close event adds exactly one page or exactly one info diagnostic; no other event adds either |
| `AssemblyLemmas.FieldNamedPageTagEmitsNothing` | src/transform.ts:54-67 | with the page tag set to `"title"` or `"text"`, the field case wins on close and no page is ever pushed |
| `AssemblyLemmas.ErrorMessages` | src/transform.ts:84-85 | it has one diagnostic per error event |
| `AssemblyLemmas.ErrorLogged` | src/transform.ts:84-85 | the error log grows by exactly one "Error while parsing page: …" entry per error event, in order |
| `AssemblyLemmas.FirstErrorLatched` | src/transform.ts:87-89 | a stored error never changes; an unset one becomes the error of the first error event |
| `Sax.FirstError` | src/transform.ts:87-89 | none exactly when no event is an error; otherwise the error of an error event with no error event before it |
| `RoundTrip.SerializedPageTokens` | src/page.ts:6-11 | the event list assigned to the template has exactly the serializer's output as its markup |
| `RoundTrip.PageRoundTrip` | src/page.test.ts:9-27 | from any state outside a field, the serialized page's events push exactly that page and log nothing, when title and text are non-empty |
| `RoundTrip.FreshPageRoundTrip` | src/page.test.ts:9-27 | a fresh assembler given the serialized page pushes `[page]` and logs no info, no error and no failure |
| `RoundTrip.PagesRoundTrip` | src/transform.test.ts:134-167 | the serialized pages, one after another, are pushed as exactly those pages in order |
| `RoundTrip.WikiRoundTrip` | src/transform.test.ts:134-167 | pages serialized inside a `wiki` container come out as exactly those pages in document order, with nothing logged |

## Left out

- The XML tokenizer (`createStream(true)`) is an external library. XML syntax,
  entity unescaping and splitting tags across chunks are its job. The model
  takes its output as given: a sequence of events per chunk.
- `RoundTrip.PageTokens` is the event list assigned to the serializer's
  template. That a real tokenizer yields exactly these events is not proved,
  because the tokenizer is not modelled. `RoundTrip.Render` only shows that
  these events stand for exactly the serializer's output.
- Node stream plumbing is host I/O and flow control. This covers `objectMode`,
  `highWaterMark`, `AbortSignal`, backpressure and `destroy`.
  `Transform.ProcessStream` only models processing the chunks in order and
  stopping after the first callback that reports an error.
- The order between push calls and logger calls is not recorded. Pages,
  info messages and error messages are three separate sequences, each in its
  own order, so the model does not show that a diagnostic about a malformed
  page comes before a page from later content.
- The logger is optional in the source (`this.logger?.…`). The model records in
  `infoLog` and `errorLog` the messages an attached logger would receive. The
  logger implementation is not modelled.
- `formatError` is a foreign call. A tokenization error is modelled as its
  formatted `description`.
- The serializer's page-tag option and the `./core` module that the
  serializer's test imports are not part of this model. The serializer is
  modelled with the fixed `page` tag, as the serializer's code has it. The page
  tag stays configurable in the assembler.
- Round-trip fidelity for fields containing `]]>` is not claimed. The
  serializer does not escape it, so such a field ends its CDATA section early.
