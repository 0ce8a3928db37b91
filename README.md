# Telegram insurance-policy assistant: acquisition, reply and webhook model

This project models, in Dafny, the three pieces of decision logic that `bot.py`
of the Telegram policy assistant states itself. The rest of the file delegates
to libraries and services.

- **Document acquisition** (`process_pdfs`). The bot goes through the
  configured PDF sources in order. Each source is downloaded to `temp_<i>.pdf`,
  and at most its first 20 pages are read. Empty page texts are dropped. An
  error in one source is absorbed, and the texts already appended from that
  source stay. The temporary file is removed on every path. The acquisition
  fails with an error when no text at all was collected. The download and the
  PDF reader are replaced by a given per-source `FetchOutcome`: the download
  raises, the write raises, the parse raises, or the reader yields page texts
  with an optional page at which extraction raises. The working directory is a
  class holding the set of file names. The page loop (`ReadPages`) and the
  source loop (`ProcessPdfs`) are methods proved against the specification
  functions `Collected` and `AllTexts`, and the lemmas about those functions
  give the properties.
- **Reply truncation** (`handle_message`). The answer sent is the first 4000
  characters of the generated output.
- **Webhook reconciliation** (`register_webhook`, the application's post-init
  hook). Telegram's side is a `Bot` object. It holds the current registration
  and a log of every `set_webhook` request, and its two methods stand for
  Telegram's `get_webhook_info` and `set_webhook`. The errors raised by either
  call are given as `Faults`. A `set_webhook` error may come before or after
  Telegram applied the request. `RegisterWebhook` reads the current webhook. It
  calls `set_webhook` once, with the desired URL, the secret, all update types
  and pending updates dropped, but only when the URL differs. It propagates any
  error. `RegisterTwice` shows that after one successful run a second run makes
  no call.

The model follows what `bot.py` does:

- The HTTP status of a download is never checked. An error page is written to
  the temporary file and fails in the PDF reader, so it is a `ParseFails`
  outcome.
- When no text was collected, `process_pdfs` raises a `ValueError`. The model
  returns `Failure(NoPdfProcessed)` in its place.
- Only the URL of the current webhook is compared. A registration with the
  right URL but another secret token or update filter is left unchanged.
- A failed webhook call re-raises the original exception. The model returns
  its cause in `Fail`.
- An unset `RENDER_APP_NAME` is formatted as the text `None` in the URL, so the
  desired URL becomes `https://None.onrender.com/webhook`.
- The list of sources is a parameter. The program configures three URLs at
  bot.py:63-71.

Modules: `Wrappers` (wrappers.dfy), `Acquisition` (acquisition.dfy), `Reply`
(reply.dfy), `Webhook` (webhook.dfy).

## Model

| member | source | states |
|---|---|---|
| `Acquisition.KeepNonEmpty` | bot.py:121-123 | a text is kept exactly when it is one of the page texts and is non-empty; never more texts than pages |
| `Acquisition.KeepNonEmptyAppend` | bot.py:119-123 | dropping empty pages distributes over concatenation, so kept texts stay in page order |
| `Acquisition.PagesReached` | bot.py:119-123 | the page loop looks at the smallest of: the page count, 20, and the page at which extraction raises |
| `Acquisition.Collected` | bot.py:109-129 | one source contributes at most 20 texts, all non-empty; a text is kept exactly when it is a non-empty text of a page reached; a source failing before the reader opens it contributes nothing |
| `Acquisition.PartialDocumentKept` | bot.py:119-129 | when extraction raises at page k, the texts of pages before k are kept, and they are a prefix of what a failure-free read collects |
| `Acquisition.AllTexts` | bot.py:101-129 | the collected list holds at most 20 texts per source and no empty text |
| `Acquisition.AllTextsAppend` | bot.py:103-129 | texts follow source order: the texts of two source lists in sequence are the first list's texts followed by the second's |
| `Acquisition.FailingSourceSkipped` | bot.py:103-135 | a source that yields nothing does not stop later sources; the result is what the other sources give, in order |
| `Acquisition.AllTextsEmptyIff` | bot.py:139-141 | nothing is collected if and only if every source contributes nothing |
| `Acquisition.ReadPages` | bot.py:117-123 | the page loop returns exactly the non-empty texts of the pages reached, and says whether extraction raised within the first 20 pages |
| `Acquisition.ProcessPdfs` | bot.py:99-141 | fails with `NoPdfProcessed` (the `ValueError`) if and only if every source contributes nothing, otherwise returns all collected texts in source then page order; afterwards no `temp_<i>.pdf` of a processed source exists, and the directory is what it was minus exactly those files |
| `Acquisition.Decimal` | bot.py:111 | the index in a temporary file name is written as a non-empty string of decimal digits |
| `Acquisition.DecimalRoundTrip` | bot.py:111 | reading those digits back gives the source index |
| `Acquisition.TempName` | bot.py:111 | the source index can be read back from between `temp_` and `.pdf` |
| `Acquisition.TempNameInjective` | bot.py:111 | distinct sources use distinct temporary files |
| `Acquisition.TempNames` | bot.py:131-135 | the files removed by the first n iterations include the temporary file of each of those sources |
| `Acquisition.TempNamesOnly` | bot.py:131-135 | and they include no other file |
| `Acquisition.LaterTempFileUntouched` | bot.py:131-135 | the temporary file of a source not yet processed is not removed |
| `Reply.ReplyText` | bot.py:181 | the reply is a prefix of the generated output of at most 4000 characters; it is the whole output when that fits, otherwise exactly 4000 characters |
| `Reply.ReplyTextIdempotent` | bot.py:181 | cutting an already cut reply changes nothing |
| `Reply.ReplyTextIsLongestFittingPrefix` | bot.py:181 | every prefix of the output that fits in 4000 characters is a prefix of the reply |
| `Webhook.WebhookUrl` | bot.py:195 | the application name (or `None` when unset) can be read back from the desired URL, which is never empty |
| `Webhook.UnsetAppNameIsNone` | bot.py:195 | an unset application name gives `https://None.onrender.com/webhook`, the same URL as an application named `None` |
| `Webhook.WebhookUrlInjective` | bot.py:195 | different application names give different desired URLs |
| `Webhook.Bot.SetWebhook` | bot.py:213-223 | logs every request; applies it on success, and on an error applies it only when Telegram had accepted it before the error |
| `Webhook.RegisterWebhook` | bot.py:191-237 | no call and no change when the current URL equals the desired one; otherwise exactly one `set_webhook` with the desired URL, the secret, all update types and `drop_pending_updates`, after which the bot is registered there with no pending updates; a bot with no webhook always gets that call; an error of either call is propagated |
| `Webhook.RegisterTwice` | bot.py:201-229 | after a successful run of register_webhook a second run makes no `set_webhook` call, so the two runs make at most one call |

## Left out

- Splitting the joined texts into chunks (`CharacterTextSplitter`, bot.py:145-157): the windowing is library code that is not part of this model. `ProcessPdfs` ends with the collected texts that are joined and handed to the splitter.
- Embeddings, the FAISS index and the similarity search (bot.py:159-173): a remote service and floating-point vector search.
- The question-answering chain and the chat model (bot.py:175-179): a remote service. Its output is the input of `ReplyText`.
- The HTTP download and the PDF text extraction: replaced by the given `FetchOutcome` of each source.
- ProcessPdfs: does not model an error raised by `os.path.exists` or `os.remove` in the `finally` clause (bot.py:131-135). Such an error is outside the `except` and would leave `process_pdfs` at once, skipping later sources and returning neither texts nor the `ValueError`. The model's removal always succeeds, so its "every temporary file is gone" and "later sources are still read" hold only when removal does not fail.
- The Telegram handlers (`start`, `health_check`, `error_handler`, the error reply of `handle_message`) and `run_webhook` with its port parsing (bot.py:75-95, 241-293): transport and process plumbing. The error reply is not cut to 4000 characters, and that path is not modelled. `run_webhook` is also given the webhook URL, secret and `drop_pending_updates` (bot.py:273-287), and the library it hands them to may register the webhook again. The model says nothing about how many registration calls a whole start of the program makes; `RegisterTwice` is about two runs of register_webhook only.
- `asyncio.sleep`, logging, `load_dotenv` and `os.getenv`: timing, logging and configuration. Environment values are parameters.
