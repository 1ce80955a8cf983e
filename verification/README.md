# A model of pg_proto_fuzz

pg_proto_fuzz sends the same random sequence of Postgres frontend messages to two
servers, compares what they send back, and shrinks a sequence on which they differ.
This project models the four parts that make up that loop and proves what each
guarantees and what they guarantee together.

| file | what it holds |
|---|---|
| `Protocol.dfy`, `Ops.dfy`, `Wrappers.dfy` | messages and ops |
| `Bytes.dfy`, `Mock.dfy` | big-endian fields, bind parameters, the backend message builders |
| `Runner.dfy`, `RunnerTheorems.dfy` | connections, flushing, setup, collecting; what a run records |
| `WireTheorems.dfy` | messages read back, chunks, when setup and a run succeed and how they fail |
| `Comparator.dfy` | normalization and the first mismatch |
| `Shrinker.dfy` | the six passes and the fixed-point loop |
| `ShrinkerTheorems.dfy`, `ShrinkerEmbedding.dfy`, `ShrinkerSearch.dfy`, `ShrinkerBounds.dfy` | minimality, simulation, binary search, cost |
| `ShrinkerSmallest.dfy`, `Examples.dfy`, `TerseServers.dfy` | when the result is the smallest reproducing case, and servers with which it is not |
| `Templates.dfy`, `Generator.dfy`, `GeneratorTheorems.dfy`, `GeneratorLanguage.dfy` | templates, the two strategies, their output for all draws, and exactly what can be generated |
| `EndToEnd.dfy` | one iteration: run, compare, shrink, report |
| `OrderlyServers.dfy` | what holds beyond that of servers with exactly one ReadyForQuery per Sync and Query |
| `WorkerPool.dfy`, `Fuzzer.dfy` | permits, tasks and counters as a step system; the whole program |

## How the system is modelled

- **Servers.** A server is a pair of functions of the chunks flushed to it so far: whether
  the latest flush succeeds, and which messages it has sent by the time it falls silent or
  closes. A connection holds the unflushed write buffer, the flushed chunks and a read
  position. A flush that fails sends nothing.
- **Runs.** Each run of the `DualRunner` opens fresh connections; the servers it meets may
  depend on the number of the run in any way. The shrinker therefore sees an *oracle*, a
  function of run number and candidate. Results for "any oracle" cover servers that change
  their answers from run to run, and runs of other tasks in between. A *steady* oracle or
  runner is one whose outcome does not depend on the run number.
- **Methods and functions.** Every loop of the source that updates state is a method over
  the same state, and its contract equates the result and the run counter (or the draws
  used) with a function; the lemmas are about these functions. Iterator chains, such as
  the filters over templates, are functions.
- **Draws.** A random source is any infinite sequence of numbers; a probability becomes a
  threshold in percent. Claims hold for all sources.
- **Concurrency.** The spawn loop and its tasks are a step system: acquiring a permit,
  spawning, and each atomic operation of a task are one step; a task may panic at any step
  before it counts itself done. Claims hold for all schedules.

Named assumptions on servers, used only where stated: `Causal` (what was sent is not taken
back), `Prompt` (a ReadyForQuery for each Sync and Query by the time it falls silent, as
src/runner.rs:93 expects), `Reliable` (flushes succeed); together `WellBehaved`. `Orderly`
servers are reliable, send exactly one ReadyForQuery for each, and send no less when more
has been sent to them, in whatever flushes.

Where code and documentation differ the model follows the code:

- README.md:92-96 lists five passes in another order; the code has six, among them the
  window search, in the order of src/shrinker.rs:291-314.
- README.md:16 promises the smallest reproducing case. That fails in two ways, each with
  servers that show it and an exact condition. A result can have a smaller case inside it
  (`SmallestCanBeMissed`): this never happens exactly if every reproducing sequence with a
  smaller case inside it also has one a single step away (`MinimalInsideIff`);
  `GlobalMinimality` and `MinimalAmongDerived` give oracles for which it never happens. And
  the input can have a smaller case elsewhere, which trimming cuts off
  (`SmallestCanBeCutOff`): for an oracle that appending ops does not turn off, the result is
  always shortest exactly if all reproducing sequences without a reproducing neighbour are
  of one length (`AlwaysShortestIff`, for servers `OrderlyServers.ShortestIff`).
  `FindsShortestIff` says exactly when the window search alone finds the shortest window.
- src/template.rs:3-4 says the generator may violate a template's path on purpose. It never
  does: `GeneratedSequence` shows that all SQL stays on its path.
- src/generator.rs:57 says a random sequence always ends with Sync. One is appended only if
  there is no Sync or Query; what holds is that there is one somewhere.
- src/runner.rs:93 says each Sync and Query produces exactly one ReadyForQuery; nothing in
  the code relies on it for safety, and only the results that name `WellBehaved` or `Orderly`
  use it.

## Model

| member | source | states |
|---|---|---|
| ShrinkerTheorems.FixedPointMinimality | src/shrinker.rs:280-322 | For a steady oracle and a reproducing input the result reproduces, no proper prefix, proper suffix, probed window, single deletion or single simplification of it does, and shrinking it again returns it |
| ShrinkerTheorems.FixedIff | src/shrinker.rs:280-322 | For a steady oracle shrinking leaves a sequence alone exactly if none of those neighbours reproduces |
| ShrinkerTheorems.LocallyMinimal | src/shrinker.rs:288-319 | For any oracle, even one that changes its answers, every neighbour of the result was refused in some run of the shrink |
| ShrinkerTheorems.LastRound | src/shrinker.rs:288-319 | The loop ends with a whole round of passes over the result itself in which none gets anywhere |
| ShrinkerTheorems.RoundInOrder | src/shrinker.rs:289-314 | A round is suffix trim, prefix trim, single deletion, windows, names and SQL, in this order, each on what the one before left |
| ShrinkerTheorems.IdleRoundRefuses | src/shrinker.rs:291-318 | A round without progress has tried and refused every neighbour |
| ShrinkerTheorems.ResultWasAccepted | src/shrinker.rs:280-322 | For any oracle the result is the input or was accepted in some run, is not empty if the input was not, and is no larger |
| ShrinkerTheorems.SuffixTrimIsAggressive | src/shrinker.rs:75-88 | What suffix trimming returns was accepted and every shorter prefix was refused |
| ShrinkerTheorems.PrefixTrimIsAggressive | src/shrinker.rs:90-103 | What prefix trimming returns was accepted and every shorter suffix was refused |
| ShrinkerTheorems.SingleDeletionTakesFirst | src/shrinker.rs:105-119 | Single deletion removes the first op whose removal is accepted |
| ShrinkerTheorems.GreedyDecides | src/shrinker.rs:163-258 | A rewriting pass goes from left to right: each op was tried rewritten, with the ops before it as decided and those after it as they were, and is rewritten if that was accepted and left if it was refused |
| ShrinkerEmbedding.GlobalMinimality | src/shrinker.rs:280-322 | For a steady oracle that stays true when ops are added, no proper sub-sequence of the result, contiguous or not, reproduces |
| ShrinkerEmbedding.MinimalAmongDerived | src/shrinker.rs:280-322 | If the oracle also stays true when simplifications are undone, nothing derivable from the result other than itself reproduces |
| ShrinkerSmallest.MinimalInsideIff | src/shrinker.rs:280-322 | For a steady oracle no result has another reproducing case inside it, however derived, exactly if every reproducing sequence with one inside it has one next to it |
| ShrinkerSmallest.AlwaysShortestIff | README.md:16 | For a steady oracle that appending ops does not turn off, the result is always a shortest reproducing case of all that can be derived from the input exactly if all reproducing sequences with no reproducing neighbour are of one length |
| ShrinkerSmallest.OneLengthIsShortest | README.md:16 | That condition is enough for any steady oracle |
| ShrinkerSmallest.AlwaysShortestIffIrreducible | README.md:16 | If adding ops and undoing simplifications does not turn the oracle off, the same with sequences from which no single op can be deleted |
| ShrinkerSmallest.StuckPrefixWins | src/shrinker.rs:75-88 | Why: a reproducing sequence with no reproducing neighbour is all that is left of any sequence that starts with it, whatever smaller case follows |
| Examples.SmallestCanBeMissed | README.md:16 | Counterexample: two orderly deterministic servers and four ops that shrinking leaves alone though two of them diverge in the same class; neither condition holds of them |
| Examples.SmallestCanBeCutOff | README.md:16 | The other way of failing: two orderly deterministic servers and three ops of which shrinking keeps the first two, though the last alone diverges in the same class |
| TerseServers.OneLengthIsNotNeeded | README.md:16 | The condition of AlwaysShortestIff is not necessary for every pair of deterministic servers: two that answer only when sent one Sync or just two Flushes always get shortest results without it |
| TerseServers.TerseDivergesIff | src/shrinker.rs:50-69 | These two diverge exactly on the sequences of which just that is sent |
| Examples.EvenSyncRunner | src/runner.rs:201-214 | Builds a runner for these two servers |
| Examples.CutOffRunner | src/runner.rs:201-214 | Builds a runner for the servers of the second counterexample |
| TerseServers.TerseRunner | src/runner.rs:201-214 | Builds a runner for the servers that answer only so |
| Examples.DivergesIff | src/shrinker.rs:50-69 | Two servers that answer each request with a status diverge exactly on the sequences on which one fails, always in the class of two ReadyForQuery |
| Examples.FaultOracle | src/shrinker.rs:50-69 | So any condition on what was sent through some request is the oracle of two deterministic servers |
| Examples.StatusReplies | src/runner.rs:88-162 | What is recorded of such a server is one status for each request, in order, computed from all it was sent through that request |
| Examples.StatusServersAreOrderly | src/runner.rs:93-97 | Servers that meet the expectation of the runner exactly exist |
| ShrinkerEmbedding.EmbeddedInDeletion | src/shrinker.rs:106-119 | A shorter sub-sequence of a sequence is a sub-sequence of one of its single deletions |
| ShrinkerEmbedding.ResultDerived | src/shrinker.rs:280-322 | For any oracle there is a strictly increasing index map from the result into the input under which each op keeps its constructor, row limit, parameters and data, and either all its names or none, and its SQL with the parameter types or plain SQL without any |
| ShrinkerEmbedding.RewritesAreOrderly | src/shrinker.rs:185-272 | The two rewrites leave nothing further to rewrite, change what they apply to, commute, and keep what the other has done |
| ShrinkerEmbedding.NamesAreDropped | src/shrinker.rs:185-235 | Dropping names applies exactly to an op with a name; it drops all of them and keeps the constructor and everything else |
| ShrinkerEmbedding.SqlIsReplaced | src/shrinker.rs:260-272 | Replacing SQL applies exactly to a Query or Parse whose SQL is not plain; it puts plain SQL and no parameter types and keeps the constructor and the name |
| ShrinkerEmbedding.SimplerFormIff | src/shrinker.rs:185-272 | These field-wise relations are exactly what the two rewrites, one or both, lead to |
| ShrinkerSearch.FindsShortestIff | src/shrinker.rs:121-160 | The window search returns the shortest reproducing proper window exactly when there are more than two ops and every longer length it probes on the way there has one too; it is then the leftmost |
| ShrinkerSearch.FindsShortestWhenClosed | src/shrinker.rs:121-160 | For an oracle closed under widening a window the search returns the leftmost shortest reproducing proper window |
| ShrinkerSearch.FindsAProperWindow | src/shrinker.rs:121-160 | For any oracle a window found is proper, not empty, contiguous and was accepted |
| ShrinkerTheorems.FindsNothing | src/shrinker.rs:136-159 | For any oracle, when nothing is found every window of every length on the upward path was refused |
| ShrinkerTheorems.LongestIsProbed | src/shrinker.rs:136-159 | Length n-1 is always on that upward path |
| ShrinkerBounds.ShrinkingIsBounded | src/shrinker.rs:288-319 | For any oracle: at most 3n rounds, and at most 3n times the budget of one round in runs |
| ShrinkerBounds.RoundBudgetIs | src/shrinker.rs:81-157 | The budget of a round on n > 2 ops is (n-1) + (n-1) + n + n*(floor(log2(n-1))+1) + 2n |
| ShrinkerBounds.RoundCost | src/shrinker.rs:291-314 | A round takes no more runs than its budget, whatever the oracle answers |
| ShrinkerBounds.BitsIsLogarithm | src/shrinker.rs:136-157 | The number of probed lengths is bounded by floor(log2)+1 |
| Shrinker.PassIsSmaller | src/shrinker.rs:75-272 | Any pass that returns something returns something smaller (length plus ops with a name plus ops with SQL to simplify) and not empty |
| Shrinker.RoundIsSmaller | src/shrinker.rs:288-319 | A round with progress makes the sequence smaller for any oracle, so the loop ends; without progress it leaves it alone |
| Shrinker.SameClassIff | src/shrinker.rs:6-48 | Two divergences are in the same class exactly if both sides have the same message constructor |
| Shrinker.ClassIs | src/shrinker.rs:6-48 | A class names the constructor on either side, the expected one first, and the end of a stream as such |
| Shrinker.Reproduces | src/shrinker.rs:50-69 | Answers as the oracle does, refuses the empty candidate without a run, and counts one run otherwise |
| Shrinker.TrimSuffix | src/shrinker.rs:75-88 | Returns the first accepted candidate among the proper prefixes, shortest first, and the number of runs that took |
| Shrinker.TrimPrefix | src/shrinker.rs:90-103 | The same over the proper suffixes, shortest first |
| Shrinker.DeleteOne | src/shrinker.rs:105-119 | The same over the single deletions, leftmost first |
| Shrinker.FindWindow | src/shrinker.rs:138-147 | The leftmost accepted window of one length |
| Shrinker.ShortestWindow | src/shrinker.rs:121-160 | Computes the binary search over window lengths, with bounds in range throughout |
| Shrinker.SimplifyAllNames | src/shrinker.rs:162-183 | Computes the left-to-right greedy name rewrite |
| Shrinker.SimplifyAllSql | src/shrinker.rs:237-258 | Computes the left-to-right greedy SQL rewrite |
| Shrinker.ShrinkRound | src/shrinker.rs:289-314 | One round: six passes, each on what the one before it left |
| Shrinker.Shrink | src/shrinker.rs:280-322 | Returns the fixed point of the rounds for the class of the given divergence, and the run counter reached |
| RunnerTheorems.CollectorSpec | src/runner.rs:121-162 | What is collected is a prefix of the stream plus at most one terminal event at its end; it stops at the shortest prefix with the expected ReadyForQuery count; no timeout is recorded when none is expected |
| RunnerTheorems.FlushDiscipline | src/runner.rs:93-115 | After all flushes succeed exactly the ops through the last flush trigger (all, if none) have been sent, the rest is pending, and the requests sent are as many as are waited for |
| RunnerTheorems.SentThenPending | src/runner.rs:99-107 | At every point of the sending loop sent data followed by pending data is the encoding of the ops so far |
| RunnerTheorems.TailIsInvisible | src/runner.rs:99-118 | Ops after the last flush trigger do not change what is collected |
| RunnerTheorems.SetupIsolation | src/runner.rs:164-190 | After k setup statements a causal server is collected from just past its k-th ReadyForQuery |
| RunnerTheorems.RunIsIsolated | src/runner.rs:216-236 | A run of two causal servers fails or returns, for each side, exactly the collection past its setup replies |
| RunnerTheorems.RepliesAreComplete | src/runner.rs:88-162 | For a sequence with a Sync or Query each normalized stream ends at its first terminal event or with its last awaited ReadyForQuery |
| RunnerTheorems.CompleteIsPrefixFree | src/runner.rs:121-162 | No such stream is a proper prefix of another |
| RunnerTheorems.NoEndOfStream | src/comparator.rs:207-251 | In any run of a sequence with a Sync or Query a divergence has a message on both sides |
| RunnerTheorems.EndOfStreamIff | src/runner.rs:131-133 | An end-of-stream divergence is possible exactly for sequences without Sync and Query |
| RunnerTheorems.EncodingIsFaithful | src/runner.rs:23-84 | Two ops are put on the wire alike exactly if they agree up to how a parameter's bytes came about |
| WireTheorems.OpReadsBack | src/runner.rs:23-84 | Reading an op's message by its own constructor gives back the op: constructor, names, SQL, parameter types, row limit, data; for a Bind the formats and the values the parameters stand for |
| WireTheorems.SentReadsBack | src/runner.rs:93-115 | What a server reads of a sequence are the ops through the last flush trigger, in order and in full |
| WireTheorems.SplitIs | src/op.rs:239-248 | Cutting the messages after each Sync, Query, Flush, CopyDone and CopyFail loses nothing, and no chunk has one of them before its end |
| WireTheorems.TransmitsChunks | src/runner.rs:99-117 | A sequence is sent as these chunks, each flushed once, or in one if there is none; it fails exactly if a flush fails, with the error of the first |
| WireTheorems.SetupIs | src/runner.rs:164-190 | Setting up a causal server succeeds exactly if each query gets across and brings the ReadyForQuery count up in time; it fails with the flush error, the receive error or the timeout of the first that does not |
| WireTheorems.RunIs | src/runner.rs:216-236 | A run of causal servers succeeds exactly if both connect and can be set up, and then has for each side what it collects past setup, or its first flush error; otherwise it fails with the first error, connecting before setting up and the oracle before the target |
| Runner.CollectResponses | src/runner.rs:121-162 | Returns the collection of the stream from the current position |
| Runner.RunSequence | src/runner.rs:86-119 | Sends all ops with a flush after each trigger (or one at the end), then collects; a failed flush is the only event |
| Runner.Drain | src/runner.rs:174-187 | Drains to the next ReadyForQuery, or reports the receive error or a timeout naming the statement |
| Runner.RunSetupStmt | src/runner.rs:171-188 | One setup statement: query, flush, drain |
| Runner.RunSetup | src/runner.rs:164-190 | Computes the state after all setup statements, or the first error |
| Runner.DualRunner.Run | src/runner.rs:216-236 | Connects to both servers, sets both up, and returns both streams, or the first error |
| Runner.Connection.Queue | src/runner.rs:23-84 | Appends a message to the pending data and sends nothing |
| Runner.Connection.Flush | src/runner.rs:99-115 | Moves pending data to sent data, or fails and leaves both alone |
| Runner.Connection.Recv | src/runner.rs:136-158 | Yields the next message of the stream, or how it ends |
| Comparator.CompareIsExact | src/comparator.rs:207-251 | No divergence exactly if the filtered streams are equal; otherwise the index ends their longest common prefix and the sides differ there |
| Comparator.CompareIsSymmetric | src/comparator.rs:207-251 | Exchanging the streams exchanges expected and actual and nothing else |
| Comparator.SkippedMessagesDoNotMatter | src/comparator.rs:184-205 | Inserting or deleting skipped messages anywhere in either stream changes nothing |
| Comparator.NoDivergenceIff | src/comparator.rs:106-251 | No divergence is reported exactly if the unskipped events are alike one by one, that is equal up to severities and to absent entries of column descriptions, type lists and format lists |
| Comparator.NormalizationIsExact | src/comparator.rs:106-200 | Normalizing drops exactly the skipped events and identifies exactly the alike ones |
| Comparator.NormalizedShows | src/comparator.rs:106-200 | What is compared of an event has its constructor and its fields: code, message, tag, status, data, values, formats, and for lists each entry or its default |
| Comparator.DivergenceShowsEvents | src/comparator.rs:207-251 | A divergence is at the first position where the visible events are not alike, and its expected and actual show in these fields the events of the two streams there, or their end |
| Comparator.Compare | src/comparator.rs:207-251 | The index loop computes that first mismatch; the case of two missing messages is never reached |
| Comparator.NormalizeStream | src/comparator.rs:193-205 | Computes the filtered, normalized stream |
| Comparator.Normalize | src/comparator.rs:106-191 | Normalizes one message, with the column loops; absent entries become empty or zero |
| Comparator.CollectOrZero | src/comparator.rs:144-170 | Collects a list in order; absent entries become zero |
| EndToEnd.ReportIsObserved | src/main.rs:196-223 | Against any servers: a failed first run is reported as its error, one without a difference as a match, any other as the divergence it shows; shrunk exactly if the last run diverges, on a sequence derived from the original that diverged in its class and of which nothing one step smaller did so in every run |
| EndToEnd.RunsAreBounded | src/main.rs:196-218 | Against any servers an iteration on n ops takes at most 2 + 3n times the budget of a round in runs |
| EndToEnd.ShrunkReportReproduces | src/main.rs:196-218 | With deterministic servers a divergence is always reported shrunk: the second run diverges in the original class, on the shrunk ops |
| EndToEnd.ReportIsMinimal | src/shrinker.rs:50-69 | No proper prefix or suffix, probed window, single deletion or single simplification of the reported sequence diverges in its class |
| EndToEnd.NoUnflushedTail | src/shrinker.rs:75-88 | A shrunk sequence ends in an op that triggers a flush or contains none |
| EndToEnd.BlindTailIsInvisible | src/runner.rs:93-97 | For a well-behaved server ops after the last Sync or Query do not change what is collected |
| EndToEnd.FirstMismatchStays | src/runner.rs:121-162 | However a sequence with a Sync or Query that diverges on two well-behaved servers goes on, its first mismatch stays the same |
| EndToEnd.NoBlindTail | src/shrinker.rs:75-88 | With well-behaved deterministic servers a shrunk sequence that holds a Sync or Query ends in one |
| EndToEnd.AgreeUntilLastOp | src/shrinker.rs:75-88 | With well-behaved deterministic servers nothing differs at all, in any class, on a proper prefix of a shrunk sequence that holds a Sync or Query |
| EndToEnd.NoWindowReproduces | src/shrinker.rs:121-160 | With well-behaved deterministic servers no proper window of a shrunk sequence diverges in its class if the window holds a Sync or Query, whichever lengths the search probed |
| EndToEnd.ReportsAreShortestIff | README.md:16 | With well-behaved deterministic servers, which may send more ReadyForQuery than asked for, and a class that shows only on sequences with a Sync or Query: results are always shortest exactly if all its sequences with no neighbour in it are of one length |
| OrderlyServers.MessageMismatchStays | src/runner.rs:93-162 | With one ReadyForQuery per Sync and Query the first mismatch of any sequence stays the same however it goes on, if both servers have sent a message there |
| OrderlyServers.ShortestIff | README.md:16 | With two such deterministic servers and any class but EndOfStream and Disconnected, results are always shortest exactly if all sequences of the class with no neighbour in it are of one length |
| OrderlyServers.NoProperWindow | src/shrinker.rs:121-160 | With such servers and such a class no proper window of a shrunk sequence diverges in its class, with or without a Sync or Query |
| OrderlyServers.NoEarlierMismatch | src/shrinker.rs:75-88 | With such servers no proper prefix of a shrunk sequence shows different messages |
| OrderlyServers.OrderlyIsWellBehaved | src/runner.rs:93-97 | A server with exactly one ReadyForQuery per Sync and Query is well-behaved |
| EndToEnd.DivergenceHasBothSides | src/shrinker.rs:22-25 | In any run, a divergence of a sequence with a Sync or Query has a message on both sides and a class without EndOfStream |
| EndToEnd.ReportHasBothSides | src/shrinker.rs:22-25 | Against any servers the divergence reported for a sequence with a Sync or Query has a message on both sides and a class without EndOfStream; so does the shrunk one if it still has a Sync or Query, and with deterministic servers in any case |
| EndToEnd.Investigate | src/main.rs:196-223 | One iteration computes the report, and the run counter it leaves: run, compare, shrink, run again, compare again |
| EndToEnd.RunAndCompare | src/main.rs:196-198 | One counted run of both servers and the comparison of what they sent |
| EndToEnd.UnchangingServersAreSteady | src/runner.rs:216-236 | A runner whose factories always connect to the same servers is deterministic |
| GeneratorTheorems.GeneratedSequence | src/generator.rs:28-38 | Every generated sequence, for all draws and profiles, has a Sync or Query, 1 to 31 ops, only SQL of enabled templates meant for the path it is used on, Binds with as many parameters as an enabled extended-path template takes, row limits up to 9, and no COPY data or abort unless simple COPY is enabled |
| GeneratorTheorems.GeneratedCopyIsOrdered | src/generator.rs:111-211 | In every generated sequence each COPY data or abort follows a FROM STDIN query with only COPY data and random ops in between and no abort among them, and there are never more aborts than FROM STDIN queries |
| GeneratorLanguage.CanGenerateIff | src/generator.rs:28-222 | A sequence can be generated exactly if it is 1 to 30 random ops, or the ops of 2 to 26 steps of the state machine, with a Sync appended exactly if there is no Sync or Query |
| GeneratorLanguage.OpCanBeDrawn | src/generator.rs:246-316 | Every op that the templates allow can be drawn: all names, every suitable SQL, every list of parameters of a suitable length, every row limit up to 9 |
| GeneratorLanguage.StepCanBeDrawn | src/generator.rs:118-210 | Every step that the state machine allows can be drawn |
| GeneratorTheorems.WalkIsLawful | src/generator.rs:111-211 | Whatever is drawn, every step of the grammar strategy obeys the state machine |
| GeneratorTheorems.NoCopyInNoCopyBody | src/generator.rs:127-132 | Without a simple COPY-in template there is no COPY data and no abort |
| GeneratorTheorems.RandomOpIsPlain | src/generator.rs:68-94 | A random or leaked op never sends COPY data or aborts, and uses only enabled SQL |
| Generator.GeometricCounts | src/generator.rs:229-236 | The geometric draw is the number of failures before the first success or the largest value below the maximum, and takes a draw for each of them and for the success |
| Generator.TemplateIsFitting | src/generator.rs:246-265 | The template drawn is enabled, and suits the path asked for if any does |
| GeneratorTheorems.FittingIsOnPath | src/generator.rs:281-316 | With a template for any path enabled no simple query uses SQL meant for the extended path, nor the other way round |
| GeneratorTheorems.ParseIsFrom | src/generator.rs:281-288 | A random Parse takes its SQL from an enabled template that suits the extended path if any does |
| GeneratorTheorems.QueryIsFrom | src/generator.rs:311-316 | A random Query takes its SQL from one that suits the simple path if any does |
| GeneratorTheorems.ParamsAre | src/generator.rs:267-279 | As many parameters as asked for, each NULL, an integer from -100 to 99, v and one or two digits, or up to seven equal bytes |
| GeneratorTheorems.BindIsFrom | src/generator.rs:290-298 | A random Bind has exactly the parameters an enabled template that suits the extended path takes |
| GeneratorTheorems.ExecuteIsFrom | src/generator.rs:300-309 | A random Execute has no row limit in four of five draws and one from 1 to 9 otherwise |
| GeneratorTheorems.IdleStepIs | src/generator.rs:126-156 | From the idle state a step sends the first FROM STDIN template and goes to COPY-in, sends a Query and stays, or sends a Parse and goes to the extended path |
| GeneratorTheorems.ExtendedStepIs | src/generator.rs:157-183 | An extended-path step sends any random op but Parse and CopyDone, and goes idle exactly on Sync |
| GeneratorTheorems.GrammarStepIs | src/generator.rs:118-210 | A step is a leaked random op that keeps the state, or one of these; in COPY-in it sends one line and stays, or CopyDone, an abort or Sync and goes idle |
| GeneratorTheorems.GrammarIs | src/generator.rs:111-222 | The grammar strategy yields 2 to 27 ops with a Sync or Query among them |
| GeneratorTheorems.RandomIs | src/generator.rs:49-66 | The random strategy yields 1 to 31 ops with a Sync or Query among them and no COPY data or abort |
| Generator.Geometric | src/generator.rs:229-236 | Counts failures until the first success or the cap, which takes no draw |
| Generator.GenerateRandom | src/generator.rs:49-66 | Computes the random strategy's sequence and the draws it takes |
| Generator.GenerateGrammar | src/generator.rs:111-222 | Computes the grammar strategy's sequence and the draws it takes |
| Templates.NeverEmpty | src/template.rs:32-40 | Every profile enables a template, so drawing one cannot fail |
| Templates.CopyInIff | src/template.rs:108-137 | The generator can start COPY-in exactly when the profile enables the copy tag |
| Templates.EnabledAmongIs | src/template.rs:177-183 | A template is enabled exactly if all tags it needs are |
| Templates.EnabledInOrder | src/template.rs:177-183 | The enabled templates come in their order, each as often as it is listed |
| Templates.DistinctSpec | src/template.rs:185-196 | Deduplicated setup SQL has nothing twice, lacks nothing, adds nothing, and keeps first occurrences in order |
| Templates.AddSetup | src/template.rs:189-194 | The inner loop: appends what one template needs and was not there |
| Templates.SetupOf | src/template.rs:185-197 | The outer loop over the templates |
| Templates.SetupSql | src/template.rs:185-197 | Computes the deduplicated setup SQL of the enabled templates |
| WorkerPool.InvAlways | src/main.rs:174-238 | After every schedule: free permits, live tasks and the spawn loop's permit add up to the workers; each spawned iteration is live, has left or has panicked; divergence numbers are 1..k, each once |
| WorkerPool.FinalState | src/main.rs:240-257 | At exit every iteration has finished or panicked; without panics all are done, exactly the diverging ones are numbered, and the exit code is 1 iff there is one |
| WorkerPool.ScheduleDoesNotMatter | src/main.rs:181-257 | With deterministic verdicts two complete panic-free runs agree on verdicts, count and exit code, whatever the schedule and the number of workers |
| WorkerPool.SchedulesAreShort | src/main.rs:183-245 | No run takes more than 8 * iterations + 1 steps |
| WorkerPool.NoDeadlock | src/main.rs:187-245 | A state that has not exited can move if there is a worker or nothing to do |
| WorkerPool.CanFinish | src/main.rs:183-257 | With a worker, or nothing to do, every schedule can be carried on to the exit |
| WorkerPool.ExitsIff | src/main.rs:177-257 | The program can come to its exit exactly if it has a worker or no iterations |
| Fuzzer.ProgramResult | src/main.rs:174-257 | For any servers, seed and profile: in a panic-free complete run each iteration is judged by some run of its own generated sequence as failed, as diverging if the normalized streams differ, or as the same; the exit code is 1 iff one diverges |
| Fuzzer.ExitCodeTells | src/main.rs:240-257 | With deterministic servers the exit code is 1 exactly if for some iteration the run of its sequence succeeds with unequal normalized streams |
| Fuzzer.ResultDependsOnSeed | src/main.rs:183-257 | With deterministic servers the outcome depends on seed, profile and iterations only |
| Fuzzer.GeneratedReport | src/main.rs:196-218 | Against any servers a divergence is reported of a generated sequence exactly if the normalized streams of its first run differ, with a message on both sides; with deterministic servers the report is shrunk, in the same class, with both sides |
| Fuzzer.GeneratedRunsAreBounded | src/main.rs:196-218 | Against any servers one iteration on a generated sequence takes at most 28646 runs |
| Fuzzer.GenerateAll | src/main.rs:183-185 | Draws the sequences one after the other: the i-th is that of the i-th iteration, however many follow |
| Fuzzer.NewRunner | src/main.rs:166-172 | Builds the runner with the setup SQL of the profile |
| Fuzzer.SetupServesTemplates | src/main.rs:166-172 | Its setup is exactly what the templates of the profile need, each statement once |
| Mock.UniquelyDecodable | src/mock.rs:100-298 | Within the length limits and without NUL in strings a concatenation of built messages determines the messages, NULL and empty columns included |
| Mock.FirstMessageIsUnique | src/mock.rs:100-298 | The builders form a prefix-free code: the first message of a stream and what follows it are determined |
| Mock.MessageReadsBack | src/mock.rs:100-292 | A client that reads the type byte, the length and the fields by their formats reads back each message that was built, in front of whatever follows |
| Mock.PayloadSays | src/mock.rs:100-292 | The payload read by the formats gives the fields of the message: error fields by their kinds, columns with their fixed entries, NULL and empty values |
| Mock.StreamReadsBack | src/mock.rs:294-298 | A client reads a concatenation back message by message |
| Mock.DataRow | src/mock.rs:198-220 | Builds the count, the nullable columns and the frame |
| Mock.RowDescription | src/mock.rs:222-249 | Builds the column entries with their fixed fields |
| Mock.ParameterDescription | src/mock.rs:251-263 | Builds the list of type OIDs |
| Mock.CopyInResponse | src/mock.rs:265-278 | Builds the overall and per-column formats |
| Mock.CopyOutResponse | src/mock.rs:280-285 | The same bytes with another type byte |
| Mock.ReadyForQuery | src/mock.rs:103-108 | Builds the frame around the status byte |
| Mock.Bare | src/mock.rs:110-150 | Builds the messages without a payload |
| Mock.CommandComplete | src/mock.rs:153-160 | Builds the frame around the NUL-terminated tag |
| Mock.CopyData | src/mock.rs:287-292 | Builds the frame around the data |
| Mock.ErrorResponse | src/mock.rs:162-189 | Builds the severity, code and message fields |
| Mock.NoticeResponse | src/mock.rs:191-196 | The same bytes with another type byte |
| Bytes.ParamsUniquelyDecodable | src/op.rs:92-108 | A list of encoded parameters determines the list of NULL and byte-string values |
| Bytes.ReadFieldsBack | src/op.rs:92-108 | Reading a run of nullable fields undoes writing it |
| Bytes.EncodeParam | src/op.rs:92-108 | Appends the nullable field of the parameter's value, for every length |
| Bytes.LengthBits | src/op.rs:100-106 | Casting a length to i32 does not change the four bytes written |
| Bytes.I32ReadsBack | src/op.rs:92-101 | An integer parameter is four bytes that read back as its value, and the length of NULL reads as -1 |
| Bytes.NetworkOrder | src/mock.rs:100-292 | Numbers are written with the most significant byte first |

## Left out

- TCP, TLS and authentication (src/connection.rs): plumbing over libraries that are not part of this model.
- The bytes of frontend messages: the wire-protocol library that writes them is not part of this model, so a write buffer holds messages, not bytes, and bind parameters are encoded separately.
- Decoding of backend messages: messages arrive decoded, with accessor results that may be absent.
- Clocks: a timeout is the stream falling silent.
- Partial flushes: a flush that fails is taken to have sent nothing.
- An endless stream of messages: a server's stream is finite, so a server that never stops sending is not modelled.
- SQL and server semantics: servers are arbitrary functions, plus the named assumptions.
- Probabilities: claims hold for all draws instead.
- The profile presets, command line, logging, progress output and text rendering: presentation; a profile is any set of tags.
- The in-memory stream of src/mock.rs: only its message builders are modelled.
- Runs inside the worker pool: the pool records how the first run of an iteration turns out; shrinking and the second run are one step there and are modelled in EndToEnd.dfy.
- AlwaysShortestIff: for an oracle that appending ops can turn off only one direction is stated (OneLengthIsShortest), because the other is false there (TerseServers.OneLengthIsNotNeeded): two such sequences need not occur together in an input that reproduces.
- NoBlindTail: assumes the runner's expectation of one ReadyForQuery per Sync and Query, which a server that ignores Sync during COPY does not meet.
