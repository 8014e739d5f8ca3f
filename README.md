# lyricgenie record converter, modelled in Dafny

lyricgenie turns a JSON-lines training set in prompt/completion form into the
chat-message form (`{"messages": [system, user, assistant]}`) used for chat
fine-tuning. This project models `convert_to_chat_format` in `load.py` and its
per-line rules:

- each line is stripped and handed to `json.loads`;
- a line that does not parse is skipped with a warning;
- a value for which `"messages" in item` holds is passed through unchanged;
- otherwise, a value with both `prompt` and `completion` becomes three turns:
  - the system message, used verbatim;
  - the stripped prompt;
  - the stripped completion, minus one leading space if present, then minus one
    trailing `" END"` if present;
- any other value is skipped with a warning;
- the kept records are written in input order, and their number is printed.

Files:

- `wrappers.dfy`: the `Option` and `Result` datatypes.
- `text.dfy`: Python's `str.strip()`, `lstrip()`, `rstrip()`, `startswith`,
  `endswith` and substring `in` on `seq<char>`. `str.isspace()` is written out
  as a character predicate. `Strip` is proved equal to an independent reference
  definition: remove a maximal whitespace prefix and a maximal whitespace suffix.
- `pyjson.dfy`: decoded JSON values, and what Python's `in`, `item[key]` and
  `.strip()` do with them, including the exceptions they raise.
- `load.dfy`: the chat record and a reader that gets its turns back; the
  in-place edit of `new_item["messages"][2]["content"]`; the assistant-content
  normalisation; the per-line classification, as a function and as a method;
  the run, as a fold over lines (`Run`) and as a loop (`ConvertToChatFormat`);
  and lemmas about all of these.

Inputs and outputs are modelled as follows:

- The input file is a `seq<string>` of lines.
- `json.loads` is a parameter `parse: string -> Option<Value>`, where `None`
  means JSONDecodeError. It is applied to the stripped line, as at load.py:20.
- `json.dumps` is the identity: the records of the result are what is written.
- The printed warnings are a returned `seq<Warning>`, one per skipped line,
  each carrying the stripped line text.
- The printed summary count is the `reported` field of the result.

The source catches only `json.JSONDecodeError`. These exceptions escape the loop:

- the TypeError of `"messages" in 5`;
- the TypeError of `item["prompt"]` on a str or list;
- the AttributeError of `.strip()` on a value that is not a str.

Any of them ends the run before the output file is opened, so nothing is
written. The model keeps these paths: `Run` yields `Aborted(line, error)`.

The element test of `"messages" in a_list` is exact as modelled: Python
compares `"messages"` with each element, and a str equals no value that is not
a str, so the test is `Str("messages") in xs`.

Three behaviours of the code are worth stating, because the comments in
`load.py` suggest more than the code does:

- The comment at load.py:43 says the `"END"` token is removed if present.
  load.py:44-45 removes a single trailing `" END"`, so `"Yo END END"` becomes
  `"Yo END"` (`EndTokenRemovedOnce`).
- Whitespace before that `" END"` survives: `"a  END"` becomes `"a "`
  (`TrailingWhitespaceCanRemain`).
- load.py:23 tests `messages` before `prompt` and `completion`, so a record
  with all three keys passes through unchanged (`MessagesPassThrough`).

Some members are definitions: they have no contract, or one that only
spells out their body. They are named here with the lines they follow, and the
lemmas in the table state what they do:

- `Text.Strip` (with `TrimStart` and `TrimEnd`) is `str.strip()` at
  load.py:20, 33 and 34.
- `PyJson.Contains`, `PyJson.Subscript` and `PyJson.StripText` define
  Python's `in` (load.py:23, 28), `item[key]` (load.py:33-34) and `.strip()`
  (load.py:33-34) on decoded values, including the exceptions they raise.
- `Load.StrippedPair` evaluates `item["prompt"].strip()` before
  `item["completion"].strip()`, in the order of the dict display at
  load.py:30-36, so the first exception raised is the one reported.
- `Load.CleanAssistant` is the assistant-content normalisation of
  load.py:40-45.
- `Load.RunSteps`, `Load.Run` and `Load.RunWarnings` are the loop at
  load.py:17-52 written as a fold over the lines: the records written, or the
  first line that raised, and the warnings printed.

## Model

| member | source | states |
|---|---|---|
| Text.TrimStartSpec | load.py:33-34 | the left half of `strip()` keeps a suffix of its argument, removes only whitespace, and stops at the first non-whitespace character |
| Text.TrimEndSpec | load.py:33-34 | the right half of `strip()` keeps a prefix, removes only whitespace, and stops at the last non-whitespace character |
| Text.StripEnds | load.py:33-34 | a stripped string is no longer than its argument and neither begins nor ends with a whitespace character |
| Text.StripCharacterised | load.py:33-34 | `r == Strip(s)` exactly when `r` is `s` with a maximal whitespace prefix and a maximal whitespace suffix removed (both directions) |
| Text.StripIdempotent | load.py:33-34 | stripping a stripped string changes nothing |
| Load.ChatRecordReadsBack | load.py:30-36 | a built record reads back as exactly three turns, in the order system, user, assistant, with the given contents |
| Load.SetAssistantContent | load.py:40-45 | after the assignment to `new_item["messages"][2]["content"]` the record still has an assistant turn, and its content is exactly the value assigned |
| Load.SetAssistantContentOfChatRecord | load.py:40-45 | assigning `new_item["messages"][2]["content"]` replaces the assistant content and leaves the rest of the record as it was |
| Load.LeadingSpaceBranchUnreachable | load.py:34-41 | after `strip()` the assistant content never starts with a space, so the leading-space removal never fires |
| Load.AssistantContentOfCompletion | load.py:34-45 | the assistant content is a prefix of the stripped completion: with one trailing `" END"` removed when present, else equal to it; it never begins with whitespace |
| Load.EndTokenRemovedOnce | load.py:44-45 | a stripped completion ending `" END END"` keeps one `" END"` |
| Load.TrailingWhitespaceCanRemain | load.py:44-45 | for every body that starts with a non-whitespace character and ends with whitespace, the completion `body + " END"` becomes `body`, so the assistant content can end with whitespace |
| Load.ConvertLine | load.py:18-52 | every line that yields a record yields one for which `"messages" in item` holds |
| Load.ProcessLine | load.py:18-52 | the imperative per-line body, with its in-place content edits, computes exactly the per-line classification |
| Load.MessagesPassThrough | load.py:23-25 | a parsed value for which `"messages" in item` holds is appended unchanged, even when it also has prompt and completion |
| Load.ScalarLineRaises | load.py:23 | a top-level number, bool or null raises TypeError, which ends the run |
| Load.PromptCompletionConverted | load.py:28-47 | a dict without `messages` and with str `prompt` and `completion` gives three turns: the system message verbatim, the stripped prompt, and the normalised completion |
| Load.NonStringFieldRaises | load.py:33-34 | a prompt or completion that is not a str raises AttributeError |
| Load.MissingFieldsSkipped | load.py:48-49 | a dict with neither `messages` nor both `prompt` and `completion` is skipped with a missing-fields warning on the stripped line |
| Load.UnparsableSkipped | load.py:51-52 | a line `json.loads` rejects is skipped with a could-not-parse warning on the stripped line |
| Load.ExampleLine | load.py:28-47 | `{"prompt": "Write a verse", "completion": " Yo yo yo END"}` with the default persona gives system "You are a rap lyric generator.", user "Write a verse", assistant "Yo yo yo" |
| Load.FirstRaised | load.py:17-52 | finds the first line whose exception escapes the handler: that line raised and no earlier line did; when there is none, no line raised |
| Load.ConvertToChatFormat | load.py:4-59 | the loop returns exactly the fold `Run`: the records in input order with the count printed, or the first line that raised; it also returns the warnings printed up to that point |
| Load.RunStepsConcat | load.py:17-52 | the fold over `a + b` is the fold over `a` followed by the fold over `b`: records concatenate in order, and a later exception is reported at its shifted line |
| Load.RunConcat | load.py:17-52 | the same law for the conversion itself: lines are processed independently and in input order |
| Load.RunSingle | load.py:17-52 | one line contributes its passed-through or converted record, or nothing if skipped, or ends the run if it raised |
| Load.SkippedLineContributesNothing | load.py:48-52 | removing a skipped line does not change whether the run completes or which records it writes; later lines are still processed |
| Load.RunAccountsForEveryLine | load.py:47-59 | in a completed run the count printed equals the number of records written, records plus warnings equal the number of lines, and the count is at most the number of lines |
| Load.RecordsHaveMessages | load.py:23-36 | every record written has `messages` |
| Load.RerunPassesThrough | load.py:23-25 | converting the written records again, with any system message, writes the same records |

## Left out

- upload.py: it makes one call to the remote fine-tuning API and loads credentials from the environment. There is no logic in it to model.
- File I/O (load.py:16-17, 55-57): lines come in as a sequence, and writing is the sequence of result records. A missing or unwritable file is not modelled.
- The internals of `json.loads` and `json.dumps` (load.py:20, 57): decoding is an opaque parameter, and encoding is the identity. Key order inside a dict is not kept, because `Value` uses maps.
- The printed text of the warnings and of the summary (load.py:49, 52, 59) is not modelled. Only which warning was printed, with the stripped line, and the count are kept.
- Command-line parsing (load.py:61-69) is left out. Its default persona is the constant `DefaultSystemMessage`.
- ConvertLine: exceptions that `json.loads` can raise besides JSONDecodeError are not modelled. An example is RecursionError on deeply nested input.
- The mutation of `new_item["messages"][2]["content"]` is modelled as a value update of the record. Nothing else can see the record at that point, so no aliasing is lost.
