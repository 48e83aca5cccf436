# dgx-serve, verified in Dafny

A model of the parts of dgx-serve that hold state, parse text or make promises about
whole runs, and proofs of those promises. `dafny verify dfyconfig.toml` checks all of it.
Each file is one module. Where the original works step by step (loops, objects whose
fields change), the model is a method or a class proved against a specification function,
and the properties are lemmas about that function.

## What is modelled

**The gate's translation** (gate/rackgate.py). `Messages` holds both wire formats and
`from_openai`; `Translator` is `StreamTranslator`, field by field, proved equal to a fold
of one `Step` per piece of the stream; `StreamClient` is a client that builds blocks from
events by index and breaks on anything out of the grammar. Over these: every stream, for
any chunks, is well formed (`StreamRuns`); no content is lost or moved between blocks and
tools (`StreamContent`); and the message a client assembles is `from_openai` of the reply
the chunks add up to, exactly when reasoning comes before content before tool calls and
the engine names its reasoning field one way (`StreamAgreement`); and a thinking block is
signed just before it stops, never elsewhere (`StreamShape`). `Conversation` is the messages of
`to_openai`: where tool results go, and what a reply reads as when a client sends it back. `Keys` is the cache of clients under rewrites that race with it.

**The restart supervisor** (py/keep.py). `Keep` states `decide` over traces of checks with
a ghost history of every restart: spacing, the daily cap, giving up once per outage, and
bounded response. `Crontab` is `with_block`, over whole texts.

**Recipes** (py/recipes.py). `Scanner` proves the index-jumping `scan` equal to an
automaton that reads one character at a time (part of sections 2.2 and 2.3 of the
POSIX.1-2017 Shell Command Language); `ScannerProps` says what the accepted words and line
numbers are, `ScannerWords` where one word ends, and `ScannerAccepts` which texts are accepted
and on which line any other is refused, all told of the text. `Closure` is `check_file` and the
depth-first `checked_closure`, with `Problems` as the object it is; `ClosureRules` says which
statements and files are clean. `Flags` is `flag`.

**The gateway config** (py/gateway.py). `Gateway` is every function on line lists, with
its loops. `GatewayItems` says how the list items of some lines change when lines are put in
or taken out, at any indentation; `GatewayConfig` what rack finds of a list, wherever it
is and ends and wherever the markers are; `GatewayEdits` and `GatewayAdopt` what `sync`,
`remove` and `adopt` do to the block, to every other line and to every other item;
`GatewayAgain` what a second `sync` does; `GatewayCases` three kinds of config at the edge;
`GatewayText` the form of the lines rack reads and what those it writes say.

**Downloads and the hub cache** (py/fetch.py, py/hfget.py). `Fetch` is `download` against
a server that answers anything (Range requests as in sections 14.2, 15.3.7 and 15.5.17 of
RFC 9110), over a disk with a destination and a part file; `HubCache` is `pull`'s pool of
workers as a state machine over all interleavings, with the links and the ref after it.

**Cluster plans** (py/serve.py). `ClusterPlan` builds the plan for any number of machines;
`ClusterOrder` proves its order, `ClusterSays` and `ClusterCommands` what each step asks for and
what each command says of its flags; `Executor` carries plans out against machines that fail
anywhere; `ClusterRuns` proves what no run can do.

**Fit and percentiles** (py/rackfit.py, py/fit.py, monitor/rackmon.py). `Fit` relates the
verdict to the longest window; `Quantile` shows `hist_quantile` to be the least inverse of
the histogram's cumulative count. Both use reals for floats.

Some promises hold only on a condition, which the model finds and proves exact:

- Streaming and not streaming agree if and only if the pieces come in order and the engine
  uses one reasoning field (`StreamAgreement.StreamAgrees`).
- A recipe's text is accepted if and only if it holds nothing a recipe must not contain where it
  stands (outside quotes a backtick, one of `; | & < >` or a parenthesis that opens no array;
  inside double quotes a backtick or `$(`) and its quotes and parentheses close; otherwise it is
  refused at the line of the first such character (`ScannerAccepts.AcceptedWhen`,
  `ScannerAccepts.RefusedAt`).
- A pull whose workers are all over succeeds if and only if no download raised and every blob
  checked against git matched (`HubCache.PullSucceedsWhen`); against an honest server any `retries`
  failures that can be retried are survived (`Fetch.RetriesLand`), and no download gives up on one
  sooner (`Fetch.RetriedEnough`).
- Two restarts are `min(gap_s, one day)` apart; a gap of more than a day is not kept, since
  the list it is counted from is pruned at a day (`Keep.GapBeyondADayFails`).
- `checked_closure` compares error counts and `Problems` drops repeats, so its answer means
  "no error that was not already recorded" (`Closure.CheckOn`): a second check of one file on
  the same `Problems` passes whatever the first found (`Closure.CheckTwice`), and a platform
  file checked after model.env passes if and only if every file it reaches that model.env does
  not is clean, so a bad model.env it sources is not held against it (`Closure.CheckAfterParent`).
- A download of an empty file with no part file fails for want of it, and a pull of one
  fails with it (`Fetch.EmptyFile`, `HubCache.EmptyFileFailsPull`).
- Short bodies that do not raise are retried without limit. A download that is still waiting
  after n replies has met at least (n - retries - size) / size of them that did not lengthen
  the part file (`Fetch.WaitingStalls`): with none it settles (`Fetch.DownloadSettles`), and
  with nothing else it waits for ever (`Fetch.ShortRepliesForever`).
- Against a server with fixed content, what lands is the whole of it if and only if the last
  body was not cut short. A size rules that out; with neither size nor hash the part that came
  is landed all the same (`Fetch.HonestLands`).
- Once keys.json has settled on a version that parses, requests answer as a fresh parse would,
  whatever came before, if and only if its stamp tells what it says; otherwise an answer can
  be stale for good (`Keys.FreshExactly`, `Keys.StaleForGood`).
- The longest window is complete (nothing longer fits) if and only if the engine loads
  weights as they are or there is no fixed cache (`Fit.LongestCompleteWhen`).
- A guard that refuses a cluster leaves the machines and serving.json untouched if and only if
  the plan neither replaces an engine, nor re-forms one after a boot, nor meets a recorded
  external engine, which it stops and forgets before any guard (`ClusterRuns.RefusalWhen`,
  `ClusterRuns.StoppedThenRefused`); serving.json alone is kept unless it does the last
  (`ClusterRuns.RecordKeptWhen`).
- Turning keep on and off gives a crontab back if and only if it was tidy, and what follows
  an unclosed begin marker is lost (`Crontab.OnThenOff`, `Crontab.UnclosedLosesRest`).
- A tool call sent back as history has its input back if and only if the input parsed, to
  something true or to `{}` (`Conversation.CallReadsBack`).
- `sync` lists the route under its name, beside every other managed item as it was, if and
  only if the route fits: no item before its place is held open to it (the last dash before it
  is less deep than the begin marker, and no line since has gone back to that dash), and the
  lines after it end it (`GatewayEdits.SyncFramed`). For a new name, exactly then a second
  identical `sync` changes nothing (`GatewayAgain.SyncNew`) and `remove` undoes the first
  (`GatewayEdits.RemoveUndoesSync`); where a new route does not fit, every further `sync` adds
  it once more and status never lists it (`GatewayCases.SyncGrows`,
  `GatewayCases.DeepMarkerGrows`). It always fits where the managed dashes are at the marker's
  indentation (`GatewayEdits.EvenFits`) and in a block rack has just made
  (`GatewayCases.BareCycle`).
- For a name already managed, a second `sync` can also be refused: putting the route in can end
  an item that took in hand-kept entries below the block, which are seen then. Which ones is told
  on the config before (`GatewayAgain.SeenAgain`, `GatewayAgain.SyncIdempotent`).
- rack finds exactly the items above and below the block if and only if no item above takes the
  block in and the last one in it takes in none below (`GatewayConfig.OutsideFound`); when one
  above does, adopting it takes the markers with it and fails (`GatewayAdopt.AdoptWhen`).
- A list written at column 0 is not seen, so its routes are shadowed and never refused
  (`GatewayCases.ColumnZero`, `GatewayCases.ColumnZeroShadowed`).

## Model

| member | source | states |
|---|---|---|
| Messages.FromOpenAi | gate/rackgate.py:300-323 | the block-by-block loop gives the message specified for a reply: reasoning, content, one block per tool call, stop reason and usage |
| Messages.MessageStops | gate/rackgate.py:286-323 | max_tokens exactly when the reply finished by length; the stop sequence exactly when neither by length nor by tool_calls and one asked for matched; tool_use when by tool_calls, or when tools were called and neither holds; else end_turn |
| Messages.MessageReads | gate/rackgate.py:296-323 | the message block by block, told of the reply alone: thinking, text, one tool block per call with its id or a new one, its name and its arguments parsed, {} or kept raw; and the two token counts |
| Conversation.ToOpenAi | gate/rackgate.py:221-257 | the loop over turns gives the system message, for a prompt given as a string or as blocks, and each turn's messages in order, a user turn's tool results before what it says |
| Conversation.PromptSays | gate/rackgate.py:224-239 | nothing is sent for an empty prompt; a string as it is, blocks with an empty line between their texts; an assistant turn without text has no content |
| Conversation.PartsSay | gate/rackgate.py:206-254 | a tool result answers its call, marked when it is an error; an image is its address or its data, of type png when none is given; a document counts if it is plain text |
| Conversation.UserSays | gate/rackgate.py:244-257 | a user turn is one message: a string, an empty line between its texts, exactly when it is all text |
| Conversation.JoinedBetween | gate/rackgate.py:202-257 | the separator stands between texts and nowhere else |
| Conversation.CallSays | gate/rackgate.py:232-234 | a call keeps its id or gets a new one, and its input is printed, {} when missing or empty |
| Conversation.PromptText | gate/rackgate.py:202-203 | the texts of a prompt's text blocks, in order |
| Conversation.TurnCalls | gate/rackgate.py:231-238 | an assistant turn's text is its text blocks joined, its calls its tool_use blocks in order |
| Conversation.TurnResults | gate/rackgate.py:241-243 | one tool message per tool_result block, in order |
| Conversation.SaidPieces | gate/rackgate.py:244-254 | text, image and plain-text document blocks become parts, in order; nothing else does |
| Conversation.AnswersFollowCalls | gate/rackgate.py:227-257 | for any conversation, the answers a user turn gives come right after the assistant message they answer |
| Conversation.AnswersKept | gate/rackgate.py:240-243 | the tool messages sent are all tool results of all user turns, once each, in order |
| Conversation.HistoryReadsBack | gate/rackgate.py:231-239 | a reply translated to Anthropic blocks and sent back as history is one assistant message with its content and its calls in order |
| Conversation.CallReadsBack | gate/rackgate.py:233-235 | a call comes back with its id and name, and with the input the engine gave exactly when that parsed to something true or to {} |
| Translator.StreamTranslator.constructor | gate/rackgate.py:329-337 | a new translator has no block open and nothing recorded |
| Translator.StreamTranslator.Start | gate/rackgate.py:339-344 | message_start alone, and the stream counts as started |
| Translator.StreamTranslator.Close | gate/rackgate.py:346-355 | the open block is stopped, a thinking block after its signature; nothing when none is open |
| Translator.StreamTranslator.Open | gate/rackgate.py:357-362 | closes what is open, then starts the next index |
| Translator.StreamTranslator.FeedCall | gate/rackgate.py:384-395 | a tool delta opens its index's block the first time and always goes to that block |
| Translator.StreamTranslator.FeedChoice | gate/rackgate.py:370-395 | a choice is its reasoning, content, tool deltas and finish, one step each |
| Translator.StreamTranslator.Feed | gate/rackgate.py:364-395 | a chunk is its usage and its choices, after message_start if it is the first |
| Translator.StreamTranslator.End | gate/rackgate.py:397-407 | closes, then message_delta with the stop reason and usage last recorded, then message_stop |
| Translator.Translate | gate/rackgate.py:687-690 | a whole stream driven through the object is the transcript the specification gives |
| Translator.RunAppend | gate/rackgate.py:364-395 | feeding is a fold: pieces fed in two goes give the events and the state of feeding them in one |
| Translator.DeltaOrder | gate/rackgate.py:370-384 | what one delta holds is acted on in the order reasoning, content, tool calls, every one of them |
| Translator.UnindexedIsFirst | gate/rackgate.py:385-385 | a tool delta without an index goes where those of index 0 go |
| StreamRuns.FedAllIsRun | gate/rackgate.py:364-395 | how pieces are cut into chunks and choices changes nothing but the first message_start |
| StreamClient.FinishedMeansWellFormed | gate/rackgate.py:339-407 | a client that ends unbroken was sent one message_start, blocks 0, 1, 2, ... each stopped once before the next, deltas of started blocks of their kind, message_delta and message_stop |
| StreamRuns.TranscriptWellFormed | gate/rackgate.py:339-407 | every stream, for any chunks, is in that grammar |
| StreamRuns.TranscriptRead | gate/rackgate.py:339-407 | what a client holds at the end of any stream: the pieces' blocks, the stop reason and the usage last recorded |
| StreamRuns.StepInStep | gate/rackgate.py:364-395 | every step keeps translator and client in step: index, open block, tool map |
| StreamRuns.RunTracks | gate/rackgate.py:384-392 | the tool map holds exactly the indices seen, one block each, and the open block is that of the last opener |
| StreamRuns.DeltasInOpenBlock | gate/rackgate.py:384-395 | every delta names the open block if and only if no tool gets arguments after another block opened |
| StreamShape.TranscriptSigned | gate/rackgate.py:346-395 | in every stream a block stop follows a signature exactly when it stops a thinking block, a signature is followed by that stop, and no delta is empty |
| StreamContent.ContentConserved | gate/rackgate.py:364-395 | under any interleaving: thinking is all reasoning sent, text all content sent, and one tool block per engine index holds exactly the arguments sent for it |
| StreamContent.RunSpoken | gate/rackgate.py:370-383 | the same of prose, for every prefix of a run |
| StreamContent.RunDelivered | gate/rackgate.py:384-392 | the same of tool arguments, for every prefix of a run |
| StreamAgreement.StreamAgrees | gate/rackgate.py:300-407 | the assembled message is from_openai of the added-up reply if and only if pieces are in order and one reasoning field is used |
| StreamAgreement.StopAndUsageAgree | gate/rackgate.py:318-407 | stop reason and token counts agree for every stream, in order or not |
| StreamAgreement.StreamStops | gate/rackgate.py:286-407 | what a client is told at the end of any stream, told of the chunks alone: the stop reason that the last finish sent means, with tools called or not, and the last usage |
| StreamAgreement.ReasoningAgrees | gate/rackgate.py:296-297 | reasoning summed delta by delta is the whole reply's reasoning if and only if the engine uses one field |
| StreamAgreement.OrderedSettled | gate/rackgate.py:364-395 | pieces in order leave at most one thinking block, one text block, then one block per tool in order of first delta |
| StreamAgreement.DisorderedNotCanonical | gate/rackgate.py:364-395 | any other order leaves blocks that from_openai never makes |
| Keys.KeyFile.Load | gate/rackgate.py:76-91 | a changed stamp replaces the clients by those of the text read, or keeps them when it does not parse |
| Keys.LoadSays | gate/rackgate.py:76-91 | under a new stamp the clients are those of the text, none for an empty one, and those it had when the text does not parse; under the stamp it had, nothing changes |
| Keys.KeyFile.Find | gate/rackgate.py:93-98 | a key's client is looked up by its hash after a load; an empty key loads nothing |
| Keys.LastEntryWins | gate/rackgate.py:85-88 | the last usable entry of a hash says which client it has: its name, and the models it lists, or all when it lists none |
| Keys.NoEntryNoClient | gate/rackgate.py:85-88 | a hash that no usable entry carries has none |
| Keys.CacheFollows | gate/rackgate.py:76-91 | over any requests, a cache that has seen the file holds the stamp of a version seen and the clients read with it, if they parsed |
| Keys.SettledIsFresh | gate/rackgate.py:76-98 | with a fresh stamp per rewrite, once the file has settled on a version that is there and parses every request answers as a fresh parse would |
| Keys.UnparseableKeeps | gate/rackgate.py:89-91 | a version that does not parse keeps the clients that worked |
| Keys.FreshExactly | gate/rackgate.py:76-98 | for any versions, the file missing among them: that holds whatever came before if and only if all that can be read or kept under the last version's stamp says what it says |
| Keys.StaleForGood | gate/rackgate.py:78-83 | requests after a settled one change nothing, however many, so a stale answer stays |
| Keys.RepeatedStampStale | gate/rackgate.py:78-83 | for any two texts that list different clients: the second written with the first one's stamp is never read, however many requests follow |
| Keep.DecideRestarts | py/keep.py:37-64 | a check prunes restarts older than a day and adds its own, nothing else |
| Keep.RecordIsRecentHistory | py/keep.py:38-64 | the pruned list is always what is left of the whole run's restarts |
| Keep.RestartMeans | py/keep.py:54-62 | a restart happens only for an engine recorded, not busy and not whole, under the cap and after the gap, counted on the true history of the last 86400 seconds |
| Keep.RecentMembers | py/keep.py:38-38 | what is kept of the restarts is exactly those less than 86400 seconds old |
| Keep.GiveUpMeans | py/keep.py:54-61 | giving up happens only for such an engine, with the cap spent and after the gap, counted on the true history |
| Keep.RestartsWait | py/keep.py:49-63 | between any two restarts of a run lies the grace that the later one waits, grace_s or lost_grace_s |
| Keep.BusyUnseen | py/keep.py:41-42 | a check made while rack is at work does nothing and leaves no trace: the next decides as if it had not been made |
| Keep.RestartsSpaced | py/keep.py:55-57 | any two restarts of any run are min(gap_s, a day) apart |
| Keep.GapBeyondADayFails | py/keep.py:38-57 | every gap longer than a day fails on a run of two checks |
| Keep.DailyCap | py/keep.py:58-62 | no window of a day, wherever it starts, holds more than max_per_day restarts |
| Keep.GivesUpOnce | py/keep.py:58-61 | between two give-ups some check found the engine whole while not busy, nothing serving, or another recipe |
| Keep.OutageRecord | py/keep.py:47-64 | until something is done in an outage the record is the pruned restarts, the recipe and the time of the first bad check |
| Keep.FirstRestart | py/keep.py:47-64 | the first thing done in an outage is done at exactly the first check that is due, grace_s after the first bad one (lost_grace_s when a share is lost) and gap_s after the last restart: a restart, or giving up when the cap is spent |
| Keep.RestartWithin | py/keep.py:47-64 | in an outage checked at most d apart that lasts past the wait of any of its checks, some check restarts within that wait and d |
| Keep.BoundedResponse | py/keep.py:47-64 | over whole runs: a restart comes by the first bad check plus the longest wait of its checks plus d; nothing is done before, and the restart itself not before grace_s, or lost_grace_s when a share is lost |
| Crontab.OutsideLines | py/keep.py:69-78 | the loop with the inside flag keeps the lines outside every block |
| Crontab.DropBlanks | py/keep.py:79-80 | the loop at the end drops trailing blank lines, and only those |
| Crontab.WithBlock | py/keep.py:67-83 | with_block gives the user's own lines and the block |
| Crontab.SurvivesWhen | py/keep.py:70-78 | a line survives exactly when it is no marker and no begin marker above it is still open |
| Crontab.BlockStands | py/keep.py:67-83 | the line that is set stands between the two markers at the end, after the user's lines and one empty line |
| Crontab.LineEnds | py/keep.py:71-71 | a line ends at a carriage return, and at one with a newline as at one end |
| Crontab.BreaksAre | py/keep.py:71-71 | the characters a line ends at |
| Crontab.OwnKept | py/keep.py:67-83 | setting the block keeps the user's own lines, trailing blanks aside |
| Crontab.LastSettingWins | py/keep.py:67-83 | setting it again, to another line or to none, is as if it had not been set before |
| Crontab.OnThenOff | py/keep.py:67-83 | on and off gives the text back if and only if it was whole lines, no marker and no blank line last |
| Crontab.UnclosedLosesRest | py/keep.py:70-78 | lines after a begin marker that no end marker closes are lost |
| Scanner.Find | py/recipes.py:106-113 | str.find of one character |
| Scanner.ScanDouble | py/recipes.py:114-127 | the loop over a double-quoted string ends where the automaton leaves it, or with the error it gives |
| Scanner.CountNewlines | py/recipes.py:110-126 | text.count of newlines, which moves the line number over a quoted string |
| Scanner.Scan | py/recipes.py:65-160 | the index-jumping scanner accepts exactly what the automaton accepts, with the same statements and lines, and refuses the rest at the same line |
| Scanner.Close | py/recipes.py:157-160 | what the end of the text does outside quotes |
| Scanner.RunAppend | py/recipes.py:65-160 | the automaton reads a text in two goes as in one |
| Scanner.RejectedPrefix | py/recipes.py:65-160 | once a prefix is refused, so is every text it begins, at that line |
| ScannerAccepts.AcceptedWhen | py/recipes.py:65-160 | a text is accepted if and only if no character of it is one a recipe must not contain where it stands, and its quotes and parentheses close; told of the text, without the scanner |
| ScannerAccepts.RefusedAt | py/recipes.py:114-140 | a text with such a character is refused at the line of the first |
| ScannerAccepts.UnbrokenEnds | py/recipes.py:106-160 | without one: refused at the line an open quote begins on, at line 0 for an open array, else accepted |
| ScannerAccepts.AssignForm | py/recipes.py:131-131 | a word assigns exactly when a name and = or += start it, and opens an array exactly when that is all of it |
| ScannerProps.WordsAreKept | py/recipes.py:65-160 | the words of all statements, concatenated, are the text less unquoted blanks, newlines, comments and backslash-newlines |
| ScannerWords.WordsCut | py/recipes.py:80-160 | the words are cut exactly where the text breaks: no word holds a blank outside quotes, and two words have a blank, a newline or a parenthesis between them |
| ScannerProps.ScansByLogicalLine | py/recipes.py:65-160 | from the start of a logical line, the rest scans as it would alone, moved down |
| ScannerProps.StatementsAreLogicalLines | py/recipes.py:80-160 | each statement is one logical line, numbered 1 plus the newlines before it, and scans alone to just that statement |
| Closure.Problems.Add | py/recipes.py:51-53 | an item is recorded once |
| Closure.CheckStmt | py/recipes.py:191-224 | one statement adds exactly the findings and the sources specified for it |
| Closure.CheckFile | py/recipes.py:178-224 | the same of a file, statement by statement |
| Closure.Search.ClosedIsReachable | py/recipes.py:446-458 | a set of reachable files that is closed under sourcing is everything reachable |
| Closure.SameCount | py/recipes.py:452-458 | comparing error counts tells exactly whether every error found was already recorded |
| Closure.CheckedClosure | py/recipes.py:446-458 | the depth-first search, over cyclic graphs too, ends; visits what the file reaches; and is safe exactly when no error is new |
| Closure.CheckOn | py/recipes.py:446-458 | on given Problems: safe if and only if every error in every reached file was recorded before; and records exactly their findings |
| Closure.CheckFresh | py/recipes.py:446-458 | on fresh Problems: safe if and only if every file reachable through accepted source lines exists and has no error |
| Closure.CheckTwice | py/recipes.py:47-62 | a second check of one file on the same Problems passes whatever the first found |
| Closure.CheckAfter | py/recipes.py:466-478 | a file checked on the Problems another was checked on passes if and only if every error it reaches is one the other reaches |
| Closure.CheckAfterParent | py/recipes.py:466-478 | as a platform's file after model.env: it passes if and only if every file it reaches that model.env does not is clean |
| Closure.CleanFileAllowed | py/recipes.py:178-224 | a file without errors can be read, scans, and holds only assignments and sources a recipe may hold |
| ClosureRules.CleanWhen | py/recipes.py:178-224 | a file is clean if and only if it can be read, its text is one that scans, every statement is fine, and every file it sources is there |
| ClosureRules.StatementJudged | py/recipes.py:191-224 | a statement draws an error if and only if it is not fine: not a source of one .env file of its own folder or under recipes/ without "..", not an array, not assignments alone; at most one finding, on its own line |
| ClosureRules.SourcesWhere | py/recipes.py:193-205 | where a fine source leads; every other statement sources nothing |
| ClosureRules.ParentWhere | py/recipes.py:169-175 | recipes/ENTRY leads into one's own recipes when they have that entry, else into the checkout |
| ClosureRules.Unquoted | py/recipes.py:163-166 | a word loses the quotes around it when they are the same, and no others |
| ClosureRules.JoinedPath | py/recipes.py:203-203 | a path joined to a folder, with one slash between |
| ClosureRules.FoldersAre | py/recipes.py:446-458 | the files of a flat recipe are read in the recipe's folder, others in their own |
| ClosureRules.WarnedWhen | py/recipes.py:215-218 | SERVE_ARGS as an array in a model.env draws a warning, and nothing else draws one |
| ClosureRules.BaseIs | py/recipes.py:216-216 | a file's own name is what follows the last slash of its path |
| Flags.Flag | py/recipes.py:298-309 | the loop over arguments and names keeps what the last of them said |
| Flags.LastOneWins | py/recipes.py:298-309 | the last argument that sets one of the names says its value |
| Flags.SaysWhat | py/recipes.py:301-308 | what an argument says: what follows the equals sign; or the next argument, unless there is none or it begins with a dash |
| Flags.AbsentWhen | py/recipes.py:301-309 | with no such argument the flag is absent |
| Flags.SetsSays | py/recipes.py:302-308 | an argument says something exactly when it is one of the names or starts with one and an equals sign |
| Flags.EqualsAt | py/recipes.py:307-308 | an argument written with an equals sign is the name, the sign and its value |
| Flags.StrippedSaysNothing | py/serve.py:166-183 | once the launcher has stripped its own flags, no argument says anything of them |
| Gateway.ItemEnd | py/gateway.py:90-102 | the inner loop of items finds where an item ends, by indentation |
| Gateway.FindItems | py/gateway.py:84-103 | items gives every list item of the range with its lines |
| Gateway.FindModelList | py/gateway.py:55-59 | the first top-level model_list line |
| Gateway.FindSectionEnd | py/gateway.py:106-115 | the line after model_list's last item |
| Gateway.FindItemIndent | py/gateway.py:62-70 | the indentation of the list, or two spaces |
| Gateway.FindOutside | py/gateway.py:128-134 | the list items outside the block |
| Gateway.MakeBlock | py/gateway.py:118-125 | the block, made when there is none, refused when the markers are damaged |
| Gateway.SyncConfig | py/gateway.py:153-170 | sync, step by step, is the specified edit or error |
| Gateway.RemoveFromConfig | py/gateway.py:173-183 | remove, likewise |
| Gateway.AdoptInConfig | py/gateway.py:186-197 | adopt, likewise |
| GatewayText.ItemWhen | py/gateway.py:30-30 | a line is a list item of a name exactly when it has the form of one, told by its pieces |
| GatewayText.FormItem | py/gateway.py:30-30 | the spaces before its dash are its indentation |
| GatewayText.ListWhen | py/gateway.py:55-59 | a line opens the list exactly when it is the key at column 0 with nothing but a comment after it |
| GatewayText.LeavesWhen | py/gateway.py:106-115 | the list goes on over empty and indented lines and comments, and ends at any other |
| GatewayText.IndentWhere | py/gateway.py:62-70 | routes are indented as the first item before the list ends, by two spaces when there is none |
| GatewayText.RouteSays | py/gateway.py:137-142 | each field of a rendered route reads back from its own line, deeper than the dash: the model, its address and the key |
| Text.SpacesAre | py/gateway.py:30-30 | white space, by code points |
| GatewayItems.ItemsSpliced | py/gateway.py:84-103 | lines that end what is open before them join their items to those before |
| GatewayItems.ItemsGrown | py/gateway.py:84-103 | lines that do not first lengthen the last item, by what is deeper than its dash |
| GatewayItems.OpenMeans | py/gateway.py:90-102 | an item is open exactly when no line after its first is indented as little as its dash |
| GatewayItems.ItemsCut | py/gateway.py:84-103 | cutting before an item leaves the items before it and starts with it |
| GatewayItems.EntryFits | py/gateway.py:84-103 | an entry put between lines is listed between theirs, which stay as they are, if and only if no item before it is held open to it and the lines after it end it |
| GatewayItems.ListedReplaced | py/gateway.py:84-103 | an entry put in an item's place changes that item only, if and only if it fits there |
| GatewayItems.ListedDeleted | py/gateway.py:84-103 | deleting an item's lines deletes that item only, at any indentation |
| GatewayItems.ListedAdded | py/gateway.py:84-103 | an entry put after lines comes last and changes none, if and only if no item is held open to it |
| GatewayItems.ListedSwallowed | py/gateway.py:84-103 | when one is, that item takes the whole entry in and stays open |
| GatewayConfig.MarkedBlock | py/gateway.py:73-81 | the block is found at the markers, and its lines are those between |
| GatewayConfig.PartsOf | py/gateway.py:73-81 | every config whose markers are sound has the parts the promises are stated over |
| GatewayConfig.OutsideFound | py/gateway.py:106-134 | outside gives exactly the items above and below the block as far as the list goes, wherever model_list is and ends and however its dashes are indented, if and only if no item above takes the block in and the last one in it takes in none below |
| GatewayConfig.OutsideItems | py/gateway.py:106-134 | when none above takes the block in, it gives the items above, and those below past what the last item of the block takes in |
| GatewayConfig.HandNames | py/gateway.py:106-150 | wherever the markers stand, the names of outside are in order those of the items above, and of those below past what an item takes in that began before them |
| GatewayConfig.RenderEntry | py/gateway.py:137-142 | a rendered route is one list item that ITEM reads back under its name, and no line of it is a marker, or, indented, ends the list |
| GatewayEdits.SyncGood | py/gateway.py:153-170 | whatever the list holds, wherever it is, and whatever the name: sync refuses a name kept by hand; otherwise only the block changes, by the route replaced or added last |
| GatewayEdits.SyncFramed | py/gateway.py:145-170 | after sync every line outside the block is as it was; the other managed items are verbatim with the route beside them, and status lists a new name, if and only if the route fits; the hand-kept names are as before where no item takes one in across a marker and the list ends where it did, as it does for an indented block |
| GatewayEdits.EvenFits | py/gateway.py:62-70 | a route fits in any block whose dashes are all at its indentation |
| GatewayEdits.UpdatedChanges | py/gateway.py:160-170 | sync reports a change exactly when the route was not already what it should be |
| GatewayEdits.StatusGood | py/gateway.py:145-150 | status lists the managed names, and the hand-kept ones that rack sees, of any list |
| GatewayEdits.RemoveGood | py/gateway.py:173-183 | remove takes out the first managed item of a name, or changes nothing, and the listing follows, at any indentation; hand-kept lines are never touched |
| GatewayEdits.RemoveUndoesSync | py/gateway.py:153-183 | for a name neither managed nor by hand, remove after sync gives back exactly the lines if and only if no managed item was held open to the route |
| GatewayAgain.SyncIdempotent | py/gateway.py:153-170 | a second identical sync changes nothing if and only if the route fitted (or was taken in by the item before, with the same route next under its name) and no item outside the block that is seen then has its name, all told on the config before the first |
| GatewayAgain.SeenAgain | py/gateway.py:128-170 | the items outside the block that are seen after any sync, and what status lists by hand, told on the config before: an item below is seen unless what is open at the end marker then takes it in |
| GatewayAgain.NewUnseen | py/gateway.py:128-170 | a route added under a new name never uncovers an entry of that name |
| GatewayAgain.SyncNew | py/gateway.py:153-170 | for a new name, a second identical sync changes nothing if and only if no managed item is held open to the route |
| GatewayAgain.StillUnwritten | py/gateway.py:153-170 | a synced name has not come to be seen by hand if it is new, if no entry outside has it, or if no item takes one in across a marker and the list goes on as before |
| GatewayAdopt.AdoptWhen | py/gateway.py:186-197 | on any config with sound markers and a list: the first hand-kept item of a name is moved to just before the end marker; there is none; or it takes markers in, and adopt fails for their loss |
| GatewayAdopt.AdoptGood | py/gateway.py:186-197 | where no item takes one in across a marker, it is the first of that name above or below the block, and is moved |
| GatewayAdopt.AdoptPermutes | py/gateway.py:186-197 | on any config whatever, an adopt that goes through permutes the lines: none lost, none made |
| GatewayAdopt.AdoptOnlyMoves | py/gateway.py:145-197 | after any adopt that goes through the lines are permuted and the entry stands verbatim before the end marker; the managed items are as before, with it last, if and only if none is held open to it; status follows; where no item takes one in across a marker every other hand-kept item keeps its lines and order |
| GatewayCases.SyncGrows | py/gateway.py:94-170 | where the last managed item is held open to a new name's route, every identical sync adds the route once more, for ever, and status never lists its name |
| GatewayCases.DeepMarkerGrows | py/gateway.py:94-170 | a config sound but for a begin marker deeper than the route before it is such a one |
| GatewayCases.DeeperSwallowed | py/gateway.py:94-99 | a route indented less than the item after it takes that item in |
| GatewayCases.ColumnZero | py/gateway.py:106-134 | a line at column 0 before any item: outside finds nothing |
| GatewayCases.ColumnZeroShadowed | py/gateway.py:106-170 | such a line above the block hides every entry after it: sync is never refused for one |
| GatewayCases.BareEnsures | py/gateway.py:118-125 | on any config without markers ensure_block adds an empty block first in the list and changes no other line |
| GatewayCases.BareMarkers | py/gateway.py:28-125 | the two markers it gets are indented as the list's first item |
| GatewayCases.BareStatus | py/gateway.py:145-183 | without markers status says nothing is managed and lists every item as written by hand, and remove changes nothing |
| GatewayCases.Refusals | py/gateway.py:73-197 | damaged markers are refused by every command, a config without the list by all that look for one |
| GatewayCases.BlockWhen | py/gateway.py:73-81 | the markers are sound exactly when the config has a part above, between and below them, and absent when no line is one |
| GatewayCases.BareCycle | py/gateway.py:118-183 | on any config without markers: sync, an identical sync that changes nothing, and a remove that gives back the lines of ensure_block |
| Fetch.Disk.Write | py/fetch.py:89-98 | chunks are appended to the part file until an empty read |
| Fetch.Disk.Land | py/fetch.py:116-124 | after the loop: size and hash are checked before the part file is renamed over dest |
| Fetch.Disk.Request | py/fetch.py:67-115 | one request: what it leads to, and the part file it leaves, for every answer |
| Fetch.Disk.Download | py/fetch.py:55-124 | the retry loop, over any list of replies, ends as specified with the files specified |
| Fetch.OnlyVerifiedLands | py/fetch.py:55-124 | against any server: a return means dest has the hash and size asked for; a raise leaves dest as it was |
| Fetch.LoopKeepsPrefix | py/fetch.py:70-115 | against a server with fixed content the part file stays a prefix of it |
| Fetch.HonestLands | py/fetch.py:66-124 | against such a server, with or without a size: what lands is the whole content if and only if the last body was not cut short, no check fails otherwise, a job with a size is never cut short; only a file of size 0 without a part file fails for want of it |
| Fetch.EmptyFile | py/fetch.py:71-116 | a file of size 0 lands only from an empty part file that is already there; without one the download raises, asking nothing |
| Fetch.FailuresAbsorbed | py/fetch.py:103-113 | at most retries raised failures are absorbed |
| Fetch.RetriedEnough | py/fetch.py:99-124 | every failure, against any server: a gated or missing file ends the download at once, and a network failure or another HTTP error only after it was retried retries times |
| Fetch.RetriesLand | py/fetch.py:71-124 | any up to retries failures of any kind that can be retried, and then a reply that completes the content, land it |
| Fetch.BytesKept | py/fetch.py:86-113 | without a server that starts over, what a download that fell short has brought is in the part file, all of it |
| Fetch.OversizeDropped | py/fetch.py:65-70 | a part file longer than the size is dropped first |
| Fetch.NothingAsked | py/fetch.py:50-56 | nothing is asked for a file that is there with its hash, nor offline; without a hash nothing counts as there |
| Fetch.WaitingStalls | py/fetch.py:65-115 | a download still waiting after n replies has met a short body that did not lengthen the part file for every size replies beyond retries + size |
| Fetch.DownloadSettles | py/fetch.py:65-115 | with none of those, a download settles within retries + size + 1 replies |
| Fetch.ShortRepliesForever | py/fetch.py:99-114 | without it, short replies are retried for ever, whatever retries is |
| HubCache.DistinctBlobs | py/hfget.py:214-218 | one download per blob; a file without a hash stops the pull |
| HubCache.FirstOfIs | py/hfget.py:214-218 | a blob is fetched as the first of the files that share it |
| HubCache.LinkFile | py/hfget.py:163-176 | a link to the blob already there stays; anything else gives way to one, or to a copy where links cannot be made |
| HubCache.LinkAll | py/hfget.py:229-230 | the loop of link_file over the chosen files gives the links specified |
| HubCache.LinkKinds | py/hfget.py:163-176 | what each chosen path is afterwards: a link to its blob, or a copy where links cannot be made and none was right before |
| HubCache.NextInv | py/hfget.py:150-160 | every step of every worker keeps the pool's invariant |
| HubCache.PullIsSafe | py/hfget.py:150-234 | in every interleaving: each blob is fetched at most once, success means every chosen path reads bytes of its listed hash and the ref names the commit, any failure means no new link and no ref, and no blob is lost |
| HubCache.PullSucceedsWhen | py/hfget.py:150-228 | a pull whose workers are all over succeeds if and only if none of their steps failed |
| HubCache.SomeStep | py/hfget.py:219-222 | workers that are not all over can always go on |
| HubCache.FetchLands | py/hfget.py:150-157 | a download that meets up to retries failures and then the rest of the content puts it in the cache |
| HubCache.PartsKept | py/hfget.py:150-160 | a download resumes the part file of its blob as it found it, leaves what it brought, and touches no other; offline it changes nothing and fails |
| HubCache.EmptyFileFailsPull | py/hfget.py:150-160 | a pull of an empty file that is not cached fails, whatever the server does |
| ClusterPlan.StripOwned | py/serve.py:170-183 | the loop with its skip flag removes the launcher's flags and the values of those written apart |
| ClusterPlan.NoneOwned | py/serve.py:170-183 | no owned flag is left |
| ClusterPlan.OthersKept | py/serve.py:170-183 | arguments that hold none are kept as they are |
| ClusterPlan.FlagRemoved | py/serve.py:170-183 | a flag and its value go and nothing around them does |
| ClusterPlan.GuardSteps | py/serve.py:366-376 | one free step per machine, after the removal of rack's own engine when it is replaced |
| ClusterSays.GuardsSay | py/serve.py:366-376 | on any plan: every machine has one guard, in order, whose containers are serve_solo, serve_node and every foreign one and nothing else, with the port exactly where rack itself runs; and rack's own are removed first exactly when it replaces or re-forms |
| ClusterPlan.CheckNodes | py/serve.py:465-472 | the first machine without a fabric address or of another platform refuses the plan |
| ClusterSays.RefusedWhen | py/serve.py:465-527 | a plan is made if and only if every machine has a fabric address, no worker is of another platform and every mod is there; otherwise it names the first at fault |
| ClusterPlan.ModStepsOf | py/serve.py:525-531 | every mod on every machine, or the first that is missing |
| ClusterPlan.ContainerSteps | py/serve.py:497-520 | the loop that starts the containers, rank by rank |
| ClusterPlan.LaunchSteps | py/serve.py:534-545 | the loop that launches the ranks, workers first |
| ClusterPlan.PlanCluster | py/serve.py:462-548 | the whole plan, part by part, or the reason it is refused |
| ClusterPlan.StopExternalFirst | py/serve.py:262-270 | an external engine is dealt with after the first up-already step, else first |
| ClusterPlan.PlanUp | py/serve.py:236-252 | the plan with the external engine first and the record last |
| ClusterSays.SharedSays | py/serve.py:490-495 | one image and one set of weights, the job's, on every machine; page caches dropped on each machine of a DGX rack and no other |
| ClusterSays.WatchSays | py/serve.py:435-533 | the head's image is asked if it spans machines; every machine of a DGX rack gets the memory watch, if there is one, and no other does |
| ClusterSays.ModsSay | py/serve.py:525-531 | every mod is applied on every machine, and nothing else is |
| ClusterSays.EndsSay | py/serve.py:475-584 | how a plan opens in each mode, the boot unit written or taken away by whether there is linger, and the wait for the head on the job's port |
| ClusterCommands.StartsSay | py/serve.py:330-520 | each machine's container start, flag by flag: name, labels, memory cap, log, mounts, its own address, interfaces and adapters, the recipe's environment; and the key's file on the head alone |
| ClusterCommands.FoldersSay | py/serve.py:498-499 | each machine's cache folders are made, those its container mounts |
| ClusterCommands.CommandSays | py/serve.py:535-539 | each rank's command as rack itself reads flags, whatever the recipe's arguments say: cluster size, its rank, the head's address and port; headless, or the job's host, port and name |
| ClusterCommands.OwnedAre | py/serve.py:166-183 | no argument that gives one of the launcher's eight flags is left, nor the update check |
| ClusterCommands.DecimalWrites | py/serve.py:536-538 | numbers are written in decimal digits |
| ClusterOrder.UpOrdered | py/serve.py:236-548 | for any machines and mode: up-already, external engine, every guard, every container, every launch, the wait; and the record is the last step and the only one |
| ClusterOrder.OncePerNode | py/serve.py:366-545 | each machine has one guard, one container start and one launch whose failure stops the plan; launches run from the last rank down to the head |
| ClusterOrder.LaunchRunsItsScript | py/serve.py:534-545 | a rank's launch runs, detached in its container, the script of its own command, written just before on the same machine |
| ClusterOrder.FlagsOnce | py/serve.py:535-539 | rank 0's command gives --host, --port and --served-model-name once each, other ranks none, and no command any other owned flag, alone or joined to a value, whatever the recipe's arguments say |
| Executor.Executor.Do | py/serve.py:901-937 | one step goes through unless it fails and may not; only a record or an external engine stopped changes serving.json |
| Executor.Executor.Execute | py/serve.py:889-899 | steps are carried out in order until one stops the plan, and an up-already step that finds its engine runs its own steps first |
| Executor.FoundUp | py/serve.py:907-922 | an engine that answers stops the plan there: the steps held for that run, and the plan is done exactly when all of them go through |
| ClusterRuns.GuardedStarts | py/serve.py:479-548 | in every run: no container is started and no rank launched before every machine's guard passed, each asking for rack's own containers, every foreign one and, where rack runs, the port; no rank before every container started, no wait before every launch |
| ClusterRuns.EveryGuardPassed | py/serve.py:373-548 | for each machine, the guard that asks so and passed |
| ClusterRuns.RecordedLast | py/serve.py:249-251 | serving.json names the recipe if and only if every step of the plan went through; otherwise it says what it said, or nothing once an external engine was stopped |
| ClusterRuns.RefusedStartsNothing | py/serve.py:939-960 | a run that a guard refused started no container, launched no rank and recorded nothing |
| ClusterRuns.RefusalWhen | py/serve.py:262-376 | such a run changed no machine and left serving.json alone if and only if the plan neither replaces an engine, nor re-forms one, nor meets a recorded external engine |
| ClusterRuns.StoppedThenRefused | py/serve.py:924-960 | every plan that meets a recorded external engine has a run that stops it and removes serving.json before a guard refuses |
| ClusterRuns.RecordKeptWhen | py/serve.py:924-937 | a refused run leaves serving.json as it was, whatever it met, if and only if there is no such engine |
| Fit.WithinRoom | py/rackfit.py:39-44 | a window is within max_context exactly when its cache fits the room left |
| Fit.FitsWithin | py/fit.py:109-116 | a window fits exactly when its cache fits the room left and what the weight factor adds to the fixed cache |
| Fit.VerdictAgrees | py/rackfit.py:39-53 | every window up to max_context fits, on every engine; exactly the windows in that slack fit beyond it |
| Fit.FitsInNumbers | py/rackfit.py:14-53 | a model fits if and only if its loaded weights and its cache (a tenth of the weights when unknown) leave each machine the gigabytes its platform and engine need |
| Fit.LongestInNumbers | py/rackfit.py:14-44 | and a window is within max_context if and only if its cache does, beside the weights and the fixed cache |
| Fit.LongestCompleteWhen | py/fit.py:113-118 | that converse holds on every rack if and only if the factor is 1 or the fixed cache is 0 |
| Fit.NoRoomIsZero | py/rackfit.py:41-44 | with no room the longest window is 0 |
| Fit.MoreNodesFit | py/rackfit.py:23-36 | what fits on some machines fits on more of them |
| Fit.Assess | py/fit.py:109-123 | one row for one machine and one for the rack, in order, windows capped by the model's own |
| Fit.RowSays | py/fit.py:113-123 | a row's window is the longest that fits, capped by the model's own when that is known; a repo without a recipe is asked about at 4096 |
| Fit.RowAgrees | py/fit.py:116-122 | within a row, every window up to its longest fits, and the one asked about is said to fit if it is no longer |
| Quantile.HistQuantile | monitor/rackmon.py:319-339 | the loop gives where the rank falls in the first bucket that reaches it, the last bound if none does, and None exactly when nothing was counted |
| Quantile.AtReads | monitor/rackmon.py:330-338 | what is read off that bucket: its bound where its count does not rise, the bound below where it has none, else the point on the line from its lower corner to its upper |
| Quantile.InBucket | monitor/rackmon.py:329-338 | the result lies in the bucket where the count first reaches the rank, for any window, restarts of the engine included |
| Quantile.AtMostLargest | monitor/rackmon.py:334-338 | it never exceeds the largest finite bound, for any window |
| Quantile.LargestIs | monitor/rackmon.py:334-338 | that bound is one of them and none is larger |
| Quantile.AtMonotone | monitor/rackmon.py:329-338 | it does not fall as the rank rises, for any window |
| Quantile.QuantileIsLeast | monitor/rackmon.py:329-338 | it is the least x with the rank at or under it, by the histogram's own cumulative count read along straight lines |
| Quantile.WindowCumulative | monitor/rackmon.py:325-325 | between two scrapes of an engine that kept counting, the window's counts are cumulative |
| Quantile.WindowCounts | monitor/rackmon.py:325-325 | each bucket of the window counts what it gained, all of it when it was not there before |
| Quantile.Engine.Append | monitor/rackmon.py:481-505 | the history keeps the last 48 samples |
| Quantile.KeepsTheLast | monitor/rackmon.py:481-505 | after any run of samples it is the last 48 of them |
| Quantile.Engine.Since | monitor/rackmon.py:523-534 | the pair that SinceMeans describes, found by the loop |
| Quantile.SinceMeans | monitor/rackmon.py:523-534 | the oldest sample at most `seconds` and a half before the last, and the last; None exactly when no sample that old precedes the last in time |
| Quantile.Percentiles | monitor/rackmon.py:551-555 | p50 is the quantile of half the window's requests and p95 of 0.95 of them, each unknown exactly when nothing was counted; p50 at most p95 at most the largest finite bound |
| Quantile.Engine.TtftPercentiles | monitor/rackmon.py:549-555 | the same of the last minute's window on any history an engine has kept, and neither when there is none |

## Left out

- FromOpenAi: an id minted from a fresh UUID is one opaque value, so that two minted ids differ is not stated.
- StreamAgrees: a chunk's choices (normally one) are pooled in the reply they add up to, and calls stand in order of first delta; identity of the message and the model name are not compared.
- ToOpenAi: the rest of the request (limits, tools, tool_choice, thinking switch, stream flags) is a field-by-field copy.
- Find: hashing is an uninterpreted function, the lock is the order of requests, and fnmatch on a client's models is not modelled.
- RestartsSpaced: loss or corruption of keep.json and clocks that step back are excluded, as are times of 0 or less.
- Scan: an error keeps its line; its wording is left out. An open array reports line 0.
- CheckStmt: the identifier patterns also match before one trailing newline in Python; names with newlines cannot reach them.
- CheckOn: the file system is one snapshot per check.
- SyncConfig: files are line lists; reading, the .bak copy and the rename are left out, and rendered values hold no newline.
- AdoptInConfig: the block lost while its own entry is cut out is a TypeError in the original and an error value here.
- SyncFramed: the name is one ITEM reads back whole, as for everything said of listings after a sync (`SyncGood` is for any name).
- Download: progress callbacks, sleeps between tries and the bytes of HTTP are left out; a reply is what it does.
- PullIsSafe: which files are chosen, the disk-space check, the dry run and progress are left out; a blob's listed hashes agree wherever it is listed.
- PlanCluster: texts shown to the user, labels of what a step is for and shell quoting are left out (a script is the command it runs), and a mod's name is given, not cut from its path.
- Execute: what a step does on a machine is whether it goes through; a wait the user detaches from counts as not going through.
- Assess: rounding for display is left out; floats are reals.
- HistQuantile: takes the buckets in the order of their sorted keys; floats are reals and rounding is left out.
- Plans for one machine, native engines and external engines (py/serve.py): the same guard, start, wait and record, without the order across machines.
- Routes, HTTP servers, SSE framing, authentication headers (gate/rackgate.py): glue over what is modelled.
- describe, semantic and pull_spec (py/recipes.py), kv_cache and active_params (py/fit.py): field-by-field tables.
- The rest of the monitor (monitor/rackmon.py): text scraping of counters, rates and other averages of the same window.
- lost_shares, start_monitors and check (py/keep.py): what they observe is the input of a check.
