# mysh: the per-line command core, modelled in Dafny

`mysh` is a small Unix shell. Every input line goes to `executeCommands`,
which reads and updates two session variables, `lastStatus` (the status of
the last command) and `totalCommands` (how many commands have been counted).
This project models what one line does to those two variables:

- comment lines, which are ignored;
- the split of a line into space-separated tokens, at most MAX_ARGS - 1 = 511 of them;
- a leading `and`/`or`, resolved against the previous status;
- `<` and `>` redirections taken out of the token list;
- `*` wildcards expanded against a directory listing;
- the built-ins `exit`, `die`, `cd`, `pwd` and `which`;
- command lookup over `/usr/local/bin`, `/usr/bin` and `/bin`;
- the status rules for running an external command;
- lines holding `|`: the split into two trimmed stages and the status the shell records once the stages end.

The modules follow those stages:

- `Text`: strings and strtok with a one-character delimiter.
- `Tokenizer`, `Conditional`, `Redirection` and `Wildcard`: the stages of a command line.
- `Command`: the stages chained together. `executeCommands` runs them on a whole line and `getArgs` on a pipeline stage.
- `PathSearch`: `findPath`.
- `Pipeline`: `trim`, the pipeline split and the pipeline status.
- `Shell`: the per-line step and the `Session` class.

The loops that compute a line's result appear as methods with loop
invariants, each proved equal to a specification function: the strtok
loops, the conditional shift, the redirection scan, the wildcard scan and
expansion loops, the search-directory loop and the two walks of `trim`.
getArgs' final copy into the caller's array becomes a plain assignment of
the argument list. Properties of the specification functions are proved as
lemmas.

The operating system enters as inputs:

- a directory-listing function, standing for `opendir`/`readdir`;
- an executability predicate, standing for `access(X_OK)`;
- success flags for opening the redirection files, `chdir`, `getcwd`, `pipe` and `fork`;
- the exit value of each program that `execv` starts;
- the exit values of the two pipeline stages.

In `Shell` these are gathered into a `World` value, and in `Pipeline` into a `PipeWorld` value.

Two behaviours of the code are easy to misread, and the model follows the
code:

- A pipeline line is counted once by `executeCommands` after `pipeCommand`
  returns (mysh.c:97). `pipeCommand` counts it a second time only when both
  stages succeed (mysh.c:441). So a successful pipeline adds 2 and a failed
  one adds 1.
- The child of an external command stores the resolved path in `argv[0]`
  (mysh.c:319), so the program sees the full path there, not the name as
  typed.

## Model

| member | source | states |
|---|---|---|
| Text.NextField | mysh.c:104-109 | one strtok call from a resume index returns the next maximal separator-free run, or none when only separators remain, and where the following call resumes |
| Text.Fields | mysh.c:104-109 | the tokens successive strtok calls with a one-character delimiter hand out: the maximal delimiter-free runs of the string, in order (its properties are in the rows below) |
| Text.FieldsWellFormed | mysh.c:104-109 | every token strtok hands out is non-empty and free of the delimiter |
| Text.FieldsOfJoin | mysh.c:104-109 | tokenizing words joined by single delimiters gives back exactly those words, in order |
| Text.FieldsKeepEveryOtherCharacter | mysh.c:104-109 | the tokens concatenated are the line with every delimiter deleted: nothing else is lost or reordered |
| Tokenizer.Tokenize | mysh.c:101-112 | the filled slots of tokens[] are the first MAX_ARGS - 1 space-separated runs of the line, and the count stays below MAX_ARGS |
| Tokenizer.Tokens | mysh.c:101-112 | the token list of a line: the first MAX_ARGS - 1 space-separated runs |
| Tokenizer.TokensWellFormed | mysh.c:101-112 | at most MAX_ARGS - 1 tokens are kept, each non-empty and space-free |
| Tokenizer.TokensOfJoinedWords | mysh.c:101-112 | up to MAX_ARGS - 1 words joined by single spaces tokenize back to exactly those words |
| Tokenizer.TokensCapped | mysh.c:105 | beyond the cap, the kept tokens are the first MAX_ARGS - 1 runs |
| Tokenizer.TabIsNotSeparator | mysh.c:104 | only ' ' separates: `ls\t-l` is one token |
| Conditional.ShiftOutFirst | mysh.c:126-128 | after the in-place shift, the first count - 1 slots hold the former slots 1..count - 1 in order, and the slots from count - 1 on are untouched |
| Conditional.Resolve | mysh.c:114-139 | the conditional gate: reject a leading `and`/`or` when no command has been counted, skip on a failed `and` or successful `or`, otherwise pass the tokens with the conditional dropped |
| Conditional.ConditionalFirstRejected | mysh.c:114-119 | a leading `and`/`or` while no command has been counted is rejected, whatever the status |
| Conditional.ResolveOutcomes | mysh.c:121-139 | `and` after a failure and `or` after a success skip the line; otherwise a conditional drops exactly its first token, and a line without one passes whole |
| Redirection.ExtractRedirections | mysh.c:141-174 | the left-to-right scan of tokens[] gives the clean list and files of the extraction function, or the missing-operand error |
| Redirection.Extract | mysh.c:141-174 | the redirection scan as a function: the clean list and the last `<` and `>` files, or none when an operator has no operand |
| Redirection.ExtractConcat | mysh.c:145-173 | a well-formed prefix of the token list does not change how the rest is read; clean lists concatenate in order |
| Redirection.ExtractAppendArgument | mysh.c:169-172 | a non-operator token is appended to the clean list and changes no file |
| Redirection.ExtractAppendRedirect | mysh.c:147-168 | `< f` / `> f` records f for that operator, replacing an earlier file for it (the last one wins), and adds no argument |
| Redirection.ExtractDanglingOperator | mysh.c:149-165 | a trailing operator with no token after it is an error |
| Redirection.ExtractWithoutOperators | mysh.c:145-173 | without operators the clean list is the whole token list and no file is recorded |
| Redirection.CleanHasNoOperators | mysh.c:145-174 | the clean list holds no operator and is no longer than the token list |
| Wildcard.FirstIndex | mysh.c:480 | strchr: the index of the first occurrence, or none exactly when the character is absent |
| Wildcard.LastIndex | mysh.c:461 | strrchr: the index of the last occurrence, or none exactly when the character is absent |
| Wildcard.SplitPattern | mysh.c:459-495 | the split of a token into directory, prefix before the first '*' of the base and suffix after it; none when the base holds no '*' |
| Wildcard.EntryMatches | mysh.c:508-521 | an entry matches when it is not hidden, starts with the prefix and ends with the suffix |
| Wildcard.Selected | mysh.c:503-529 | the matching entries of a listing, in listing order, each with directory + "/" in front when the token had a '/' |
| Wildcard.BaseOfIsTail | mysh.c:461-477 | the base is the slash-free tail of the token; with a '/', the token is directory + "/" + base; without one the directory is "." |
| Wildcard.SplitPatternShape | mysh.c:459-495 | directory, '/', prefix, '*' and suffix put back together give the token; the prefix holds no '*' and neither part holds '/' |
| Wildcard.SplitPatternOfRebuild | mysh.c:459-495 | conversely, every such pattern is the split of the token it rebuilds: the split is unique |
| Wildcard.GlobNamesMatch | mysh.c:508-521 | every visible name of the form prefix + anything + suffix matches |
| Wildcard.OverlapAllowed | mysh.c:508-521 | prefix and suffix may overlap: `ab*ba` matches `aba` |
| Wildcard.SelectedAppend | mysh.c:505-529 | matches keep listing order: a listing read in two parts selects the first part's matches, then the second's |
| Wildcard.SelectedSound | mysh.c:505-529 | every selected name is a matching entry, with directory + "/" in front exactly when the token had a '/' |
| Wildcard.SelectedComplete | mysh.c:505-529 | every matching entry is selected |
| Wildcard.SelectedNone | mysh.c:505-529 | with no matching entry nothing is selected |
| Wildcard.SelectedAll | mysh.c:505-529 | when every entry matches, every entry is selected; without a directory part the selection is the listing itself, in order |
| Wildcard.LiteralWithoutStarInBase | mysh.c:480-485 | a token whose only '*' lies before its last '/' expands to itself |
| Wildcard.LiteralWithoutStar | mysh.c:453-457 | a token without '*' expands to itself |
| Wildcard.LiteralWhenNothingMatches | mysh.c:497-536 | an unopenable directory, or a listing without a match, gives back the token alone |
| Wildcard.Expand | mysh.c:450-537 | a token expands to at least one name, and to at most the limit when the limit is positive |
| Wildcard.StarSelectsAll | mysh.c:450-537 | a lone `*` over a listing of visible entries yields the listing, up to MAX_ARGS entries; an empty listing leaves `*` as typed |
| Wildcard.ScanListing | mysh.c:503-529 | the readdir loop keeps the first `limit` matches of the listing, rendered, in listing order |
| Wildcard.ExpandToken | mysh.c:450-537 | wildcard returns the expansion of the token: at least one result, and at most totalResults when that is positive |
| Wildcard.ExpansionsIdentity | mysh.c:178-198 | with no '*' in any argument, expansion leaves the argument list as it is |
| Wildcard.Expansions | mysh.c:178-198 | the uncapped in-order concatenation of the per-argument expansions |
| Wildcard.ArgExpansion | mysh.c:183-196 | each argument stands for at least one entry of finalArgs: its matches when it holds '*', else itself |
| Wildcard.ExpansionsNotShorter | mysh.c:181-197 | each argument stands for at least one, so expansion never shortens the list |
| Wildcard.ExpandArgs | mysh.c:178-198 | finalArgs is the in-order concatenation of the per-argument expansions, capped at MAX_ARGS - 1 entries |
| Wildcard.AppendCapped | mysh.c:188-191 | copying matches while fewer than MAX_ARGS - 1 are held gives the capped concatenation |
| Wildcard.ExpansionsAsWritten | mysh.c:178-198 | the expansion loop as written: matches copied only while fewer than MAX_ARGS - 1 are held, a plain argument appended with no check |
| Wildcard.FinalArgsOverflow | mysh.c:193-198 | as written, `echo * x` over at least 510 visible entries fills all MAX_ARGS slots of finalArgs before the terminating NULL; capped, it stops at MAX_ARGS - 1 |
| PathSearch.FirstExecutable | mysh.c:340-350 | the first candidate dir/cmd, in directory order, that the executability test accepts, or none |
| PathSearch.Resolve | mysh.c:340-350 | findPath's answer over /usr/local/bin, /usr/bin and /bin |
| PathSearch.FirstExecutableIsFirstHit | mysh.c:340-350 | the search fails exactly when no directory holds an executable command, and otherwise yields dir/cmd for the first directory that does |
| PathSearch.EarlierDirectoryWins | mysh.c:342-348 | an executable in /usr/local/bin shadows one in /bin |
| PathSearch.FindPath | mysh.c:340-350 | returns 0 with the first executable candidate, or -1 with the last candidate tried (/bin/cmd) in the buffer |
| Command.PrepareArgs | mysh.c:101-198 | tokenizing, the conditional, redirection and expansion stages on tokens[] give the line's prepared outcome |
| Command.Prepare | mysh.c:101-200 | where a line stops (no tokens, rejected, skipped, missing operand, no arguments) or the capped arguments and files it runs with |
| Command.Finish | mysh.c:141-200 | the part of Prepare after the conditional: redirections, then expansion capped at MAX_ARGS - 1 |
| Command.FinishArgs | mysh.c:141-198 | the redirection scan and the wildcard expansion on the first count slots of tokens[] give the line's outcome after the conditional: a missing operand, no arguments, or the capped expanded arguments with their files |
| Command.ReadyArgsBounded | mysh.c:178-200 | a command reaching dispatch has between 1 and MAX_ARGS - 1 arguments, so the empty-list check never fires |
| Command.PlainLineRunsItsTokens | mysh.c:101-198 | a line without conditional, operator or '*' runs its tokens as given, with no redirection |
| Command.RedirectedPlainCommand | mysh.c:141-176 | plain words followed by `< f` or `> f`: the operator and f leave the argument list, f is recorded for that operator only, and a pipeline stage (mysh.c:599-634) gets the words alone |
| Command.GetArgs | mysh.c:557-670 | getArgs yields the same argument list as executeCommands' stages, between 1 and MAX_ARGS - 1 entries, or nothing when a stage stops the line |
| Command.StageArgs | mysh.c:557-670 | the argument list getArgs hands a pipeline stage: Prepare's arguments with the files dropped, or none |
| Pipeline.LeadingSpaces | mysh.c:541-543 | the leading white-space run ends at the first non-white character |
| Pipeline.TrailingEnd | mysh.c:548-551 | everything from the cut on is white space, and the last kept character is not |
| Pipeline.Trimmed | mysh.c:539-555 | the string between the leading and trailing white space; empty when it is all white space |
| Pipeline.TrimmedShape | mysh.c:539-555 | trimming removes only white space, only from the two ends, and leaves no white space at either end |
| Pipeline.TrimmedOfPadded | mysh.c:539-555 | a word padded with white space on both sides trims to exactly the word |
| Pipeline.TrimmedIdempotent | mysh.c:539-555 | trimming twice is trimming once |
| Pipeline.Trim | mysh.c:539-555 | the two pointer walks of trim give the trimmed string, the empty string for an all-white one |
| Pipeline.Segment | mysh.c:355-356 | the n-th non-empty '\|' segment strtok hands out, or none |
| Pipeline.Stages | mysh.c:355-356 | the first two segments, trimmed, or none when either is missing |
| Pipeline.StagesOfSegments | mysh.c:355-356 | the two stages are the first two non-empty '\|' segments, trimmed; with fewer than two there are no stages |
| Pipeline.DoubledBarIsOneBar | mysh.c:355-356 | strtok skips empty segments: `a\|\|b` splits as `a\|b` |
| Pipeline.ExitByte | mysh.c:423 | WEXITSTATUS yields a byte, equal to the exit value when that is already a byte |
| Pipeline.ExitMinusOne | mysh.c:387 | a stage that exits with -1 is seen with status 255 |
| Pipeline.PipeOutcomeRange | mysh.c:420-442 | the pipeline status is 0, 1 or 2, and pipeCommand counts the line exactly when it is 0 |
| Pipeline.PipeOutcomeOfStages | mysh.c:420-442 | a failing first stage gives 1 whatever the second did; first 0 and second failing gives 2; both 0 gives 0 and counts once |
| Pipeline.ExitCodeWrapsToSuccess | mysh.c:423 | a stage exiting with 256 is read as a success |
| Pipeline.StagesResult | mysh.c:420-442 | status 1 when the first stage fails, else 2 when the second fails, else 0 with one more count |
| Pipeline.PipeOutcome | mysh.c:353-443 | pipeCommand's status and count: 1 for a missing stage, a failed pipe or first fork, 2 for a failed second fork, otherwise StagesResult of the two exit bytes |
| Pipeline.MissingStageFails | mysh.c:358-363 | a line with fewer than two segments fails with 1, counts nothing and does not depend on the pipe or fork results |
| Pipeline.TrimArgumentsAsWritten | mysh.c:355-358 | the two strtok results the code as written hands to trim, NULL included |
| Pipeline.NullReachesTrim | mysh.c:355-358 | as written, `ls \|` hands NULL to trim; with the check first it fails with 1 |
| Shell.Step | mysh.c:88-337 | one line: a comment changes nothing, a line with '\|' goes to the pipeline and is counted once more, any other line is prepared and dispatched |
| Shell.Dispatch | mysh.c:202-336 | the built-ins exit, die, cd, pwd and which, then an external command through fork |
| Shell.WhichStatus | mysh.c:251-283 | `which` with one argument succeeds on a built-in name or a name the search finds; otherwise it fails |
| Shell.PlanLaunch | mysh.c:287-321 | the child opens the input file, then the output file, then resolves a name without '/'; it fails on the first step that does not succeed |
| Shell.ChildStatus | mysh.c:322-331 | the status the parent reads: 1 for a failing child or a failed execv, else the low byte of the program's exit value |
| Shell.StepIgnoresComment | mysh.c:90-91 | a line starting with '#' changes neither variable |
| Shell.StepStoppedLine | mysh.c:101-176 | a line with no tokens, a rejected or skipped conditional, or only redirections changes nothing; a missing operand sets status 1 and counts nothing |
| Shell.StepConditional | mysh.c:114-139 | a leading conditional with no command counted, `and` after failure and `or` after success leave both variables unchanged |
| Shell.StepPipeline | mysh.c:94-99 | a line with '\|' takes the pipeline status (0, 1 or 2) and adds 2 to the count on success, 1 otherwise |
| Shell.PipelineBeforeConditional | mysh.c:94-99 | `and ls \| wc` on the first line is run as a pipeline, not rejected |
| Shell.DispatchTerminating | mysh.c:203-215 | `exit` ends the shell with 0 keeping the status; `die` records 1 and ends with 1; neither is counted |
| Shell.DispatchBuiltins | mysh.c:216-283 | cd, pwd and which count once, end with 0 or 1 and do not end the shell; cd and which with other than one argument fail |
| Shell.WhichStatusRule | mysh.c:251-283 | `which` of a built-in name succeeds without consulting the search; of another name it succeeds exactly when some search directory holds it |
| Shell.DispatchExternal | mysh.c:285-336 | a failed fork records 1 and counts nothing; otherwise the child's status is recorded and the line counted once |
| Shell.DispatchBounds | mysh.c:202-336 | running a command adds 0 or 1 to totalCommands and keeps a status in 0..255 |
| Shell.LaunchResolvesName | mysh.c:311-321 | a name without '/' runs from the first search directory holding it, with argv[0] replaced by that path; without one the child fails with 1 |
| Shell.LaunchNeedsFiles | mysh.c:289-310 | a redirection file that cannot be opened fails the child with 1 |
| Shell.StepBounds | mysh.c:88-337 | a line adds 0, 1 or 2 to totalCommands and keeps a status in 0..255 |
| Shell.RunChild | mysh.c:287-331 | the status the parent reads from the external command's child |
| Shell.Session.constructor | mysh.c:19-20 | both variables start at 0 |
| Shell.Session.ExecuteCommands | mysh.c:88-337 | the new status, count and exit request are the per-line step of the old ones |
| Shell.Session.RunCommand | mysh.c:202-336 | the built-in and external-command part of the step, on the session's fields |
| Shell.Session.PipeCommand | mysh.c:353-443 | the new status is the pipeline outcome and the count grows by what pipeCommand adds |

## Left out

- The interactive, batch and standard-input read loops of `main` (mysh.c:30-84). The model takes one line at a time.
- `fork`, `execv`, `dup2`, `open`, `pipe`, `waitpid` and `kill`. Their results enter as inputs; descriptor plumbing and the concurrency of the two pipeline stages are not modelled.
- The stages of a pipeline run in the children, which run getArgs and findPath (mysh.c:382-415); their exit values are inputs. What a stage does when getArgs returns without filling its list (undefined contents), or when its execv fails (the child runs on into the parent's code), is not modelled.
- A failed second fork leaves the first stage unwaited; the model records only the status 2.
- `opendir`/`readdir` and `access(X_OK)` become a listing function and an executability predicate. `chdir` and `getcwd` become success flags. The working directory itself is not tracked.
- All printed messages.
- Fixed-size buffers: `snprintf`/`strncpy` truncation at MAX_STR (mysh.c:345, 464-495, 525) and the BUFFER_SIZE read limit. Strings are unbounded.
- `totalCommands` is a C `int`. The model counts with an unbounded `nat` and ignores overflow.
- Conditional.ShiftOutFirst: the NULL stored into the freed slot (mysh.c:128) is not modelled. The count alone delimits the live tokens.
- Shell.ChildStatus: a child killed by a signal is not distinguished. WEXITSTATUS of its status is taken as the run function's value.
- Wildcard.ExpandArgs: models the corrected capacity check, not the overflow of the code as written (see Findings).
- Pipeline.PipeOutcome: models the corrected order (the NULL check before trim), not the crash of the code as written (see Findings).

## Findings

| source | as written | input that shows it | evidently intended | confidence | as-written member | corrected member |
|---|---|---|---|---|---|---|
| mysh.c:193-198 | a plain argument is appended to finalArgs with no `finalCount < MAX_ARGS - 1` check, then finalArgs[finalCount] = NULL; getArgs repeats the same append (mysh.c:651-656), and its copy loop (mysh.c:660-667) then moves 512 non-NULL entries into fArgs with no terminator | `echo * x` in a directory with at least 510 visible entries: finalCount reaches 512 and the NULL is written to finalArgs[512], one past the 512-slot array | both branches stop at MAX_ARGS - 1 arguments | not executed | Wildcard.FinalArgsOverflow | Wildcard.ExpandArgs |
| mysh.c:355-358 | both strtok results are passed to trim before the NULL check, and trim dereferences its argument | `ls \|`: the second strtok returns NULL, and trim(NULL) reads through a null pointer | check for a missing side first; status 1 | not executed | Pipeline.NullReachesTrim | Pipeline.MissingStageFails |
