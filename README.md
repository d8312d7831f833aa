# Bash Mate: the command filter, the command tool and the transcript

Bash Mate is a chat assistant: a language model answers questions about a Linux
machine by running shell commands through one tool, `run_command`. This project
models the three pieces of logic in `bash_assistant.py` and proves properties of them.

- **The safety filter** (`is_command_harmful`), in module `CommandGuard`
  (`command_guard.dfy`). The blocklist has 117 keywords, kept line by line in
  source order. A command is harmful exactly when some keyword occurs in it as a
  contiguous substring. The match is case-sensitive and ignores word boundaries.
  The filter is a linear scan that stops at the first match.
- **The command tool** (`run_command`), in module `CommandRunner`
  (`command_runner.dfy`). A blocked command gets the reply
  ``you are not allowed to run `<command>` `` and never reaches the shell.
  Any other command goes to a `Shell` object. The object records every command it
  starts. It takes a function that says how the n-th command ends: it finishes
  with text on stderr and stdout, it overruns the 3-second timeout, or the run
  raises another exception (`OSError` when the shell cannot start,
  `UnicodeDecodeError` when the output is not valid text). A command holding a NUL
  character raises `ValueError` before any process starts. A finished command's
  reply is `stderr.strip() + "\n" + stdout.strip()`. Every exception is passed on
  to the caller, because the tool catches none of them.
- **Python string behaviour**, in module `PythonStrings` (`python_strings.dfy`):
  `str.strip()` over the exact `str.isspace()` character set, and string
  repetition (`"-" * 100`).
- **The transcript** (`process_memory`), in module `Transcript`
  (`transcript.dfy`). It renders the chat memory as markdown, building the output
  with `+=` in two nested loops. The method keeps those loops. It is proved equal
  to a recursive rendering function, and the transcript properties are proved
  about that function.

Some proofs need concrete keywords to be absent, for example that `ls -l` passes
the filter. These use a certificate: the characters and adjacent character pairs
of the allowed example commands. Every keyword has a character, or one of its
first two adjacent pairs, outside that set. So the keyword cannot occur in any
command built only from those characters and pairs.

## Model

| member | source | states |
|---|---|---|
| CommandGuard.Keywords | bash_assistant.py:35-59 | The reference definition of the blocklist: the 23 source lines joined in order (its properties are stated by `OnSomeLine` and `KeywordOnLine`). |
| CommandGuard.Contains | bash_assistant.py:62 | The reference definition of Python's `keyword in command`: some index at which the keyword matches character by character. |
| CommandGuard.Harmful | bash_assistant.py:61-64 | The reference definition of the verdict: some keyword of the list is contained in the command. |
| CommandGuard.IsCommandHarmful | bash_assistant.py:34-64 | The scan returns true exactly when some keyword of the list is a substring of the command. Its loop invariant: no keyword scanned so far matched. |
| CommandGuard.OnSomeLine | bash_assistant.py:35-59 | A string is a keyword exactly when it is an entry of one of the 23 lines of the list. |
| CommandGuard.KeywordOnLine | bash_assistant.py:35-59 | An entry of any line of the list is a keyword. |
| CommandGuard.ContainedIsShorter | bash_assistant.py:62 | A substring is no longer than the string containing it. A substring of equal length is the string itself. |
| CommandGuard.ContainsExtended | bash_assistant.py:62 | A substring of `s` stays a substring of `p + s + q`. |
| CommandGuard.ContainsTransitive | bash_assistant.py:62 | A substring of a substring of `a` is a substring of `a`. |
| CommandGuard.HarmfulExtended | bash_assistant.py:61-63 | Monotonicity: if `c` is harmful, so is every `p + c + q`. |
| CommandGuard.Minimal | bash_assistant.py:35-59 | The minimal list holds exactly the keywords that contain no other, different keyword. |
| CommandGuard.MinimalWitness | bash_assistant.py:61-63 | A command containing any keyword contains a keyword of the minimal list. |
| CommandGuard.MinimalPreservesVerdict | bash_assistant.py:35-63 | Scanning the minimal list gives the same verdict as scanning the full list, for every command. |
| CommandGuard.LongerVariantDropped | bash_assistant.py:35-59 | A keyword that contains a different keyword is not in the minimal list. |
| CommandGuard.ListedVariantDropped | bash_assistant.py:35-59 | An entry of the list that begins with another, shorter entry is a keyword and is not in the minimal list. |
| CommandGuard.LongerVariantsDropped | bash_assistant.py:36-58 | `rm -rf`, `dd if=`, `echo >` and `mv /etc` are keywords but not in the minimal list, because `rm`, `dd`, `echo` and `mv` are keywords too. |
| CommandGuard.AvoidedNotContained | bash_assistant.py:62 | A keyword that avoids the example certificate does not occur in any command covered by it. |
| CommandGuard.LinesAvoidExamples36To37 | bash_assistant.py:36-37 | Every keyword on these lines avoids the example certificate. |
| CommandGuard.LinesAvoidExamples38To40 | bash_assistant.py:38-40 | Every keyword on these lines avoids the example certificate. |
| CommandGuard.LinesAvoidExamples41To44 | bash_assistant.py:41-44 | Every keyword on these lines avoids the example certificate. |
| CommandGuard.LinesAvoidExamples45To47 | bash_assistant.py:45-47 | Every keyword on these lines avoids the example certificate. |
| CommandGuard.LinesAvoidExamples48To50 | bash_assistant.py:48-50 | Every keyword on these lines avoids the example certificate. |
| CommandGuard.LinesAvoidExamples51To52 | bash_assistant.py:51-52 | Every keyword on these lines avoids the example certificate. |
| CommandGuard.LinesAvoidExamples53To56 | bash_assistant.py:53-56 | Every keyword on these lines avoids the example certificate. |
| CommandGuard.LinesAvoidExamples57To58 | bash_assistant.py:57-58 | Every keyword on these lines avoids the example certificate. |
| CommandGuard.KeywordsAvoidExamples | bash_assistant.py:35-59 | Every keyword of the list avoids the example certificate. |
| CommandGuard.CoveredCommandAllowed | bash_assistant.py:61-64 | A command made only of the examples' characters and adjacent pairs is not harmful. |
| CommandGuard.DocstringExamplesAllowed | bash_assistant.py:72-75 | `cd test_folder && pwd`, `ls -l` and `docker ps` are not harmful. |
| CommandGuard.MatchingIsCaseSensitive | bash_assistant.py:62 | `rm file` is harmful and `RM file` is not. |
| CommandGuard.EmptyCommandAllowed | bash_assistant.py:35-64 | Every keyword is non-empty, so the empty command is not harmful. |
| CommandGuard.BlockedExamples | bash_assistant.py:50-57 | `echo hello` is harmful through `echo`, `cat /etc/passwd` through `/etc/passwd`, and `my_mv_script.sh` through `mv`. |
| PythonStrings.TrimStart | bash_assistant.py:91 | The result is a suffix of the input. Only whitespace was cut off, and the result starts with a non-whitespace character or is empty. |
| PythonStrings.TrimEnd | bash_assistant.py:91 | The result is a prefix of the input. Only whitespace was cut off, and the result ends with a non-whitespace character or is empty. |
| PythonStrings.Strip | bash_assistant.py:91 | The result of `strip()` neither starts nor ends with whitespace. |
| PythonStrings.StripSplits | bash_assistant.py:91 | The input is whitespace, then the result of `strip()`, then whitespace. |
| PythonStrings.StripPadded | bash_assistant.py:91 | Whitespace around a trimmed string is exactly what `strip()` removes. |
| PythonStrings.StripIgnoresPadding | bash_assistant.py:91 | Adding whitespace on either side of the input does not change `strip()`. |
| PythonStrings.AllSpaceStripsToEmpty | bash_assistant.py:91 | A string of whitespace only strips to the empty string. |
| PythonStrings.StripFixesExactlyTrimmed | bash_assistant.py:91 | `strip()` leaves a string unchanged exactly when it is already trimmed. |
| PythonStrings.StripIdempotent | bash_assistant.py:91 | Stripping twice equals stripping once. |
| PythonStrings.Repeat | bash_assistant.py:122 | `c * n` has length `n` and every character is `c`. |
| CommandRunner.Shell.constructor | bash_assistant.py:90 | A new shell has started no command. |
| CommandRunner.Shell.Execute | bash_assistant.py:90 | A command holding a NUL character is refused with `ValueError` and leaves the record unchanged. Any other command is appended, unchanged, to the shell's record, and the result is how the shell says that command ends at that position. |
| CommandRunner.Rejection | bash_assistant.py:88 | The reference definition of the rejection message (its properties are stated by `RejectionNamesCommand` and `RejectionInjective`). |
| CommandRunner.ReplyFor | bash_assistant.py:90-91 | The reference definition of the reply to a command that reached the shell: the formatted output, or the exception passed on. |
| CommandRunner.ReplyForShowsOutcome | bash_assistant.py:90-91 | The reply is text exactly when the command finished, and that text holds a line feed. It is the timeout error exactly when the command overran. Any other exception is passed on under its own name. |
| CommandRunner.RejectionNamesCommand | bash_assistant.py:88 | The command can be read back from its rejection message. |
| CommandRunner.RejectionInjective | bash_assistant.py:88 | Different commands get different rejection messages. |
| CommandRunner.FormatOutput | bash_assistant.py:91 | The reply of a finished command always contains a line feed. |
| CommandRunner.FormatOutputIgnoresPadding | bash_assistant.py:91 | Extra whitespace around stderr or stdout does not change the reply. |
| CommandRunner.FormatOutputOfStrippedStreams | bash_assistant.py:91 | Stripping the streams beforehand does not change the reply. |
| CommandRunner.SilentCommandReply | bash_assistant.py:91 | A command that prints only whitespace gets the reply `"\n"`. |
| CommandRunner.RejectionIsNoOutput | bash_assistant.py:87-91 | The rejection of a one-line command differs from every reply of a finished command. |
| CommandRunner.RunCommand | bash_assistant.py:87-91 | A harmful command gets its rejection and the shell starts nothing. A command holding a NUL character raises `ValueError` and the shell starts nothing. Any other command is started exactly once, unchanged. It gets the stripped-stderr, line feed, stripped-stdout reply, the timeout error, or the exception the run raised. |
| Transcript.Rule | bash_assistant.py:122 | The reference definition of the rule `"-" * 100 + "\n"` written under every command and every tool output. |
| Transcript.CommandBlock | bash_assistant.py:121-122 | The reference definition of the block for one tool call: the command in backticks, a blank line, then the rule. |
| Transcript.Paragraph | bash_assistant.py:117-118 | The reference definition of an assistant's text: nothing when it is empty, otherwise the text and a blank line. |
| Transcript.Piece | bash_assistant.py:116-125 | The reference definition of what one message adds (its properties are stated by `PieceEmptyIffSilent`, `ToolPieceLayout` and `AssistantPieceLayout`). |
| Transcript.Render | bash_assistant.py:110-126 | The reference definition of the transcript: the pieces of the messages in order (its properties are stated by `RenderAppend` and `RenderEmptyIffSilent`). |
| Transcript.ConcatMapAppend | bash_assistant.py:111-112 | Concatenating an accumulation over `xs + ys` equals accumulating over `xs`, then over `ys`. |
| Transcript.ConcatMapEmpty | bash_assistant.py:111-112 | The accumulation is empty exactly when every piece is empty. |
| Transcript.ProcessMemory | bash_assistant.py:110-126 | The nested-loop formatter returns exactly the rendering of the memory. |
| Transcript.RenderAppend | bash_assistant.py:110-126 | The transcript of `a + b` is the transcript of `a` followed by that of `b`. |
| Transcript.UnrenderedRolesIgnored | bash_assistant.py:113-116 | A user or system message, wherever it stands, leaves the transcript unchanged. |
| Transcript.PieceEmptyIffSilent | bash_assistant.py:116-125 | A message adds nothing to the transcript exactly when it is one of these: a user or system message, or an assistant message with no text and no tool calls. |
| Transcript.RenderEmptyIffSilent | bash_assistant.py:110-126 | The transcript is empty exactly when every message is silent, for example a memory of user messages only. |
| Transcript.CommandBlocksInOrder | bash_assistant.py:119-122 | The tool calls are shown one block each, first call first. |
| Transcript.ToolPieceLayout | bash_assistant.py:123-125 | A tool message shows its content verbatim between a 12-character header and the closing fence, then the rule. The piece is 119 characters longer than the content, and tool calls on the message are not shown. |
| Transcript.AssistantPieceLayout | bash_assistant.py:116-122 | An assistant message shows its text and a blank line first, when the text is non-empty, then its command blocks. |

## Left out

- Running the command with `subprocess.run(..., shell=True, capture_output=True, text=True, timeout=3)` is operating-system I/O. The `Shell` object stands in for it. Its `respond` function gives each started command its output, a timeout overrun, or a raised exception such as `OSError` or `UnicodeDecodeError`. Which outputs fail to decode, and how decoding and universal-newline translation turn bytes into text, are not modelled; `respond` decides them.
- The exit status of a command is not modelled, because `run_command` ignores it.
- Messages hold decoded data, so `json.loads(tool_call.function.arguments).get('command')` is not modelled. When the arguments have no `command` key, Python prints `None` in the block; the model takes a command string as given.
- Message content that is `None`: an assistant message treats it like empty text, and the model does the same with `""`. A tool message with `None` content would show the word `None`; the model's content is always a string.
- Message roles other than user, system, assistant and tool are not modelled. The chat library has more roles, and `process_memory` ignores them all, just as it ignores system messages.
- `shell_agent` and `process_query` (bash_assistant.py:93-107) call the OpenAI model through llama_index, which is an external network service.
- The Streamlit page, the session state, history trimming, the clear-chat button and `load_dotenv` are user-interface and environment glue.
- The system prompt and the suggested questions (bash_assistant.py:13-32) are prose with no behaviour.
- The substring test inside the scan is the `Contains` predicate. CPython's string search algorithm is not modelled.
