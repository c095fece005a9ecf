# A verified model of conv_event

conv_event is a C++ framework for servers over epoll, with its own JSON library. This project models its
five hardest parts in Dafny and proves what they are for. Code that changes things step by step is
modelled as classes and methods with loops, each proved against a function that says what it computes;
code that several threads run at once is modelled as a state machine, one step for each access to
something shared, with statements over every run of it.

**JSON** (`json_*.dfy`). `JsonParser` is the parser of `json.h`, a cursor that moves over a text up to
its terminating NUL. `JsonGrammar` says on the unread text what each of its methods returns,
`JsonSyntax` is a grammar with a text and a meaning for every parse tree, and the two are proved to be
the same: a text is loaded exactly when it starts with an object of the grammar. Integers that an int32
can hold are read digit by digit; for any other number `strtod` may be any function of the characters a
number can have in it, and what is proved holds for all of them. `JsonRfc` has the RFC's own tables of
digits, escapes and blanks and says which texts of RFC 8259 are read as the RFC means them;
`JsonPrinted` says which documents are printed as such texts, and `JsonFailures` what is answered to
texts that are none. `JsonPrinter` has the two printers. A document is written as a tree whose objects
list their members in the order in which the map happens to be walked, so that a statement about every
document is one about every iteration order. Loading what was dumped gives the document back exactly
when none of its strings holds a quote or a backslash, none of its keys a quote or a NUL, and no member
of the top object is an empty array; pretty printing keeps the meaning of such a document exactly when,
besides, no bracket and no comma stands inside a string or key.

**Connections.** `Reactors` is the whole of `conv_multi` with worker pools and one-shot events: an
acceptor, any number of event loops and workers, tables, close queues, and one pool of connection
objects; `ReactorResults` is what holds in every state they can reach. Every open descriptor is in
exactly one place, a connection in the hands of a worker is in nobody else's, and no loop or worker ever
finds a table entry missing that it is about to use. `ReactorMoves` says for each step which descriptor
it moves and to which place. `ReactorOrder` and `ReactorTwice` show what two of the rules are for that
the code and its handlers have to keep: to empty a slot before its descriptor is closed, and to ask for
a close only once. `InlineReactor` is one loop that runs its handlers itself, and shows that the close
queue never closes the wrong connection although descriptor numbers are reused at once. `ConvSingle`
accepts in the middle of a batch, and there the same is false: it is right exactly when no accept of a
batch was given a number that waits in the close queue, and a run that closes a new connection is given.
It does not notice failed accepts either: epoll watches all its connections exactly when no accept has
failed below the limit. `ThreadPool`, `LockQueue` and `Acceptor` are the parts underneath.

**The lock-free queue** (`SafeQueue`). Any number of producers and one consumer over atomic pointers and
a free list, for all interleavings: values come out in order, and no node is ever lost or in two places.
`SafeQueueCalls` says that they are the values the callers have asked to push, and that a thread which
runs alone comes to the end of what it is doing.

**Filters** (`FilterTrie`). A tree of heap nodes is proved to be a flat table from the first segment of
a path to the last filter registered under it, and it is said what a registration does to every path,
which registrations are ignored, and when a slash at the end of a path matters.

**Transfers** (`SocketIo`). Cursors that go on where the last call has stopped, over a kernel that moves
as many bytes at a time as it likes. What is received is always the stream in order; what is sent is
right exactly when no error is among the answers of the kernel.

Where the code and what one would expect of it differ, the model follows the code. `JsonGrammar` and
`JsonSyntax` read the word `truefalse` as false, take escapes in keys for what they are written as, take
a newline, tab or carriage return in front of a value for the start of a boolean, cut a string at an
escaped NUL, and let `load` ignore the return code of the parser and any text behind the object. The
encoder of `\u` escapes uses one byte too many for 0x7F and for 0x100 to 0x7FF. `ConvSingle` does not
test whether accept has failed. `SocketIo` stores the answer of `::send` without a sign, so that an
error counts as a success, and looks at `errno` where `::recv` has answered 0. A path that ends with a
slash is matched without the last character of its last segment.

## Model

| member | source | states |
|---|---|---|
| JsonParser.Parser.SkipWhiteSpace | core/include/json/json.h:700-707 | the cursor moves over exactly the blanks in front of it |
| JsonParser.Parser.ParseNull | core/include/json/json.h:715-731 | reads what the grammar reads for null; like all of these it never reads past the NUL, and on success the cursor has advanced and is at or before the NUL |
| JsonParser.Parser.ParseBool | core/include/json/json.h:732-759 | the same for true and false, and for the test of f behind a true |
| JsonParser.Parser.ParseNumber | core/include/json/json.h:760-795 | the same for numbers: integers an int32 can hold by their digits, others as `strtod` reads them; a double that an int can hold becomes one |
| JsonParser.Parser.ParseHex4 | core/include/json/json.h:796-812 | four hexadecimal digits give their value; otherwise it fails, having read the offending character |
| JsonParser.Parser.ParseString | core/include/json/json.h:813-912 | the same for strings with their escapes and surrogate pairs |
| JsonParser.Parser.ParseArray | core/include/json/json.h:913-957 | the same for arrays, over the mutual recursion with values, with a measure that shows that it ends |
| JsonParser.Parser.ParseStringRaw | core/include/json/json.h:958-982 | keys are read up to the next quote, without escapes; anything that does not start with a quote is refused |
| JsonParser.Parser.ParseJson | core/include/json/json.h:983-1044 | the same for objects; the first of several members with one key stays |
| JsonParser.Parser.ParseValue | core/include/json/json.h:1045-1063 | every branch returns what the grammar reads from the unread text, with its return code |
| JsonParser.Json.Load | core/include/json/json.h:1216-1229 | the old members are dropped first; it succeeds exactly when an object has been read, whose members are the new ones |
| JsonComplete.Complete | core/include/json/json.h:1045-1063 | completeness: the text of every parse tree, with any blanks between its tokens and any text behind it, is read as the meaning of the tree |
| JsonSound.Sound | core/include/json/json.h:1045-1063 | soundness: whatever is read as a value is the text of a parse tree with that meaning, unless it is a number of which `strtod` reads only a part |
| JsonSound.LoadIff | core/include/json/json.h:1216-1229 | a text is loaded, with some members, if and only if it starts with an object of the grammar with that meaning |
| JsonRfc.RfcTextsIff | core/include/json/json.h:813-1063 | an object of the grammar of RFC 8259, whatever follows it, is loaded with the meaning the RFC gives it, the first of several members with one name winning, if and only if no name of an object that counts has an escape and no string that counts has an escape for 0, for 0x7F or for 0x100 to 0x7FF; what comes behind a name that was there before does not count |
| JsonRfc.RfcTextsLoad | core/include/json/json.h:983-1063 | so all of these texts are loaded as the RFC means them |
| JsonRfc.StringIsRfcIff | core/include/json/json.h:813-912 | the value a string of the RFC is given, cut at its first NUL, is what the RFC means by it if and only if none of its escapes stands for 0, for 0x7F or for 0x100 to 0x7FF |
| JsonRfc.LoadedIsClean | core/include/json/json.h:958-982 | no name in anything that is loaded has a quote in it, at any depth |
| JsonRfc.ReadsMoreThanRfc | core/include/json/json.h:732-759 | a text that no RFC calls JSON is loaded all the same |
| JsonPrinted.DumpIsRfc | core/include/json/json.h:1080-1163 | the dumped text of a document without quotes, backslashes and control characters is a text of RFC 8259 that means the document there |
| JsonFailures.NoValue | core/include/json/json.h:1045-1063 | a text that does not start like a value or a blank has the return code for that, and so has one with nothing in it |
| JsonFailures.BlankInFront | core/include/json/json.h:1045-1063 | behind a newline, a tab or a carriage return only the booleans are read, behind a space nothing |
| JsonFailures.OpenString | core/include/json/json.h:813-912 | a string without an end has its own return code, whatever is in it |
| JsonFailures.NoEscape | core/include/json/json.h:825-846 | so has a backslash with no escape behind it, and a `\u` with no four digits |
| JsonFailures.NoPair | core/include/json/json.h:847-869 | so has a high surrogate with no low one behind it, and with one that has no four digits |
| JsonFailures.ArrayFaults | core/include/json/json.h:913-957 | so has an array in which neither a comma nor the end follows a value; what is wrong with a value is wrong with the array |
| JsonFailures.KeyFaults | core/include/json/json.h:983-1019 | so have an object without a key, a key without an end and a key without a colon |
| JsonFailures.KeyIsRead | core/include/json/json.h:958-982 | a key is what stands between its quotes; what does not start with a quote is none |
| JsonFailures.MemberFaults | core/include/json/json.h:1020-1044 | so has an object in which neither a comma nor the end follows a value; what is wrong with a value is wrong with the object |
| JsonFailures.ForStrtod | core/include/json/json.h:760-795 | words with a point, an exponent or an x in them, or the start of inf or nan behind a minus, are read as `strtod` reads them |
| JsonUnicode.JoinIsABijection | core/include/json/json.h:853-871 | surrogate pairs and the code points from 0x10000 to 0x10FFFF correspond one to one |
| JsonUnicode.EncodeIsUtf8Iff | core/include/json/json.h:871-893 | the bytes written are those of RFC 3629 if and only if the code point is neither 0x7F nor from 0x100 to 0x7FF; there they are one too many |
| JsonUnicode.PayloadOfEncode | core/include/json/json.h:871-893 | the payload bits of what is written are always the code point |
| JsonUnicode.JoinIsBitwise | core/include/json/json.h:869-869 | the shift and the or that join a pair, taken bit by bit, give the code point of the model, within 32 bits |
| JsonUnicode.EncodeIsBitwise | core/include/json/json.h:871-893 | the shifts, masks and ors of every byte, taken bit by bit, give the bytes of the model |
| JsonPrinter.ToString | core/include/json/json.h:535-604 | the text of a value below the second level |
| JsonPrinter.MembersToString | core/include/json/json.h:583-600 | the text of the members of an object, with commas between them |
| JsonPrinter.DumpItems | core/include/json/json.h:1119-1134 | the text of an array below the top object; an empty one makes the loop start by reading past the end |
| JsonPrinter.Dump | core/include/json/json.h:1080-1163 | the text of a document with the three spacings of its three levels, unless it reads past the end |
| JsonRoundTrip.PrintedTree | core/include/json/json.h:535-604 | what both printers write for a safe document is the text of a parse tree that means the document |
| JsonRoundTrip.RoundTrip | core/include/json/json.h:1080-1229 | loading the text of a safe document gives the document back, in whatever order its maps were walked |
| JsonDiverge.RoundTripIff | core/include/json/json.h:1080-1229 | dump and load give a document back if and only if it is safe and no member of the top object is an empty array |
| JsonFormat.Format | core/include/json/json.h:1165-1208 | the pretty text, character by character of the dumped one |
| JsonFormat.DeletingGivesBack | core/include/json/json.h:1165-1208 | deleting the characters that were inserted, all of them newlines and tabs, from the pretty text gives the dumped text back |
| JsonFormat.FormatTree | core/include/json/json.h:1165-1208 | for every text of the grammar without brackets and commas in strings and keys: every element and member stands on a line of its own, behind as many tabs as it lies deep, and so does every closing bracket |
| JsonFormat.TabsAreLevel | core/include/json/json.h:1064-1072 | as many tabs as the level |
| JsonFormat.FormatKeepsMeaning | core/include/json/json.h:1165-1208 | for every text of the grammar without brackets and commas in strings and keys: the pretty text loads as the same object, the level never goes below zero, and it ends at zero |
| JsonPretty.PrettyIff | core/include/json/json.h:1165-1208 | a document that survives dump and load survives pretty printing if and only if no bracket and no comma stands in its strings and keys; what format writes can always be loaded |
| JsonArray.ValueArray.Realloc | core/include/json/json.h:81-100 | there is room for one more in the real allocation, the contents are kept, and the capacity stays within its bounds |
| JsonArray.ValueArray.PushBack | core/include/json/json.h:102-112 | the contents are those before and the new element, written inside the allocation |
| JsonArray.PushAll | core/include/json/json.h:81-112 | any number of elements pushed on a fresh array are its contents, at less than two copies for each |
| SafeQueue.EveryNodeOnce | core/include/safe_queue.h:24-95 | in every interleaving each node is in exactly one of the live chain, the free list, the hands of the consumer and the hands of one producer |
| SafeQueue.NobodyIsStuck | core/include/safe_queue.h:24-95 | no thread ever comes to a read or a write through a pointer that leads nowhere: whoever cannot go on is idle, waits to enter acquire_node or is about to allocate |
| SafeQueue.FirstInFirstOut | core/include/safe_queue.h:72-95 | in every interleaving the values popped are the first ones in the order of the exchanges on the tail, each once, and the rest wait in that order |
| SafeQueue.PopFailsIff | core/include/safe_queue.h:80-95 | pop fails if and only if everything pushed has been popped, or the producer next in line has not stored its link out of the dummy yet |
| SafeQueue.AcquireIsSafe | core/include/safe_queue.h:24-33 | when the compare-and-swap of acquire_node succeeds, what it installs is what lies below the top of the free list and is not in use, however often nodes were given back in between |
| SafeQueue.OwedIsNotRetired | core/include/safe_queue.h:72-78 | a node whose outgoing link a producer still owes is in the chain, and in nobody's hands |
| SafeQueue.HeadSwapSucceeds | core/include/safe_queue.h:84-90 | the one consumer's compare-and-swap never fails |
| SafeQueue.EmptyIsRightIff | core/include/safe_queue.h:97-102 | over two loads at different moments: the answer is right if and only if no pop has moved the head in between, or the tail is neither where the head was nor where it is; a true answer is right only if no pop has |
| SafeQueueCalls.PushedAsAsked | core/include/safe_queue.h:72-78 | in every interleaving, of each thread the values pushed, and then the one it has not got to the tail yet, are those it was asked to push, in order |
| SafeQueueCalls.PushAlone | core/include/safe_queue.h:24-40 | a producer that runs alone is done after at most eight steps: its value is the last one, in a node from the free list if there was one, and nothing else has changed |
| SafeQueueCalls.PushEnds | core/include/safe_queue.h:24-78 | and so it is from wherever others have let it get to |
| SafeQueueCalls.PopAlone | core/include/safe_queue.h:80-95 | a consumer that runs alone and finds a link pops the first value that has not been popped, and the old dummy is on top of the free list |
| SafeQueueCalls.PopFailsAlone | core/include/safe_queue.h:80-95 | if it finds none it returns and has changed nothing |
| ThreadPool.SemaphoreAndQueueAgree | core/include/threadpool.h:86-115 | in every run the length of the queue is the permits, and the workers that have one and have not popped, and the adders that have pushed and not released |
| ThreadPool.WorkersAlwaysFindWork | core/include/threadpool.h:86-103 | a worker with a permit never finds the queue empty and never pops nothing |
| ThreadPool.TasksInOrder | core/include/threadpool.h:86-115 | tasks are taken in the order in which they were pushed, each by one worker |
| ThreadPool.QueueBound | core/include/threadpool.h:105-115 | with n adders the queue never exceeds the limit by more than n - 1, so that one adder never exceeds it |
| ThreadPool.BoundIsReached | core/include/threadpool.h:105-115 | for every limit and every number of adders a run reaches that bound |
| ThreadPool.PushedAsAccepted | core/include/threadpool.h:105-115 | in every interleaving, of each adder the tasks pushed, and then the one it has not pushed yet, are those it was asked to add and that did not find the queue full |
| ThreadPool.AddsOne | core/include/threadpool.h:105-115 | an adder that finds the queue below its limit puts its task at the end and one permit, and nothing else |
| ThreadPool.FullRefuses | core/include/threadpool.h:105-109 | one that finds it full does nothing |
| ThreadPool.WorksOne | core/include/threadpool.h:86-103 | a worker that waits while there is a permit takes the first task and the permit, works on it and waits again |
| ThreadPool.WorksOnWhatItTook | core/include/threadpool.h:86-103 | in every interleaving a worker works on the task it took last |
| LockQueue.FirstInFirstOut | core/include/lock_queue.h:21-41 | over any sequence of calls what goes in are the values of the pushes in order, one comes out for each pop that finds something, in that order, and the rest is left |
| LockQueue.Queue.Push | core/include/lock_queue.h:21-29 | the new value is the last of those pushed, and pushed stays popped followed by what is left |
| LockQueue.Queue.Pop | core/include/lock_queue.h:30-41 | gives the first value that was pushed and not popped, or null and false exactly if there is none |
| LockQueue.Queue.Empty | core/include/lock_queue.h:42-50 | true exactly if everything pushed has been popped |
| LockQueue.Queue.Size | core/include/lock_queue.h:51-53 | how many more values have been pushed than popped |
| Acceptor.LeastLoaded | core/include/acceptor.h:138-158 | the first reactor whose table is smallest, or the first of all if no table is below the largest int |
| ReactorSteps.StepKeepsInv | core/include/reactor.h:151-270 | every step of the acceptor, the loops and the workers keeps the invariant |
| ReactorResults.OnePlace | core/include/conn.h:150-159 | in every reachable state an open descriptor is armed, undispatched, being dispatched, queued, held by one worker, in a close queue, being reaped, dormant or just accepted, and only one of these; a closed one is none |
| ReactorResults.HeldIsSafe | core/include/reactor.h:203-262 | a connection in the hands of a worker is open, in the table of that worker's reactor, not closing, not in the pool, and in no other hands or queue |
| ReactorResults.OneTable | core/include/reactor.h:65-79 | an open descriptor is in at most one table; no object is in two entries, or in a table and in the pool |
| ReactorResults.CountIsExact | core/include/reactor.h:180-201 | the shared counter is the number of connections in all tables, and the loops between counting and the table |
| ReactorResults.NothingGoesWrong | core/include/reactor.h:151-270 | no loop or worker ever misses an entry it is about to use, no entry of a close queue is stale, and no queue of workers exceeds its limit |
| ReactorResults.ReapsItsOwn | core/include/reactor.h:65-79 | the descriptor closed in a removal is the one removed, and at that moment in no table and in nobody else's hands |
| ReactorMoves.StepTakesThere | core/include/reactor.h:151-270 | in every reachable state every step takes a descriptor where it should: armed, reported, dispatched, queued or reaped, held, armed again or asked for, closed; all others stay where they are |
| ReactorPool.PoolIsClean | core/include/conn.h:256-265 | in every reachable state an object in the pool is as a new one |
| ReactorOrder.ClosingFirstBreaks | core/include/reactor.h:65-79 | the order of a removal matters: if the descriptor were closed while its slot is filled, from any reachable state with another reactor waiting there is a run after which the number stands in two tables |
| ReactorOrder.RemovalMeetsWaiting | core/include/reactor.h:151-270 | such states are reached from the start, with any two reactors |
| ReactorTwice.AskingTwiceBreaks | core/include/conn.h:111-116 | a handler that asks for a close twice: with any descriptors there is a run in which the second call closes the connection of the next client, which is being dispatched and has not asked for it |
| EventLoop.CurrentNeverStale | core/include/reactor.h:157-163 | if every entry of the close queue stands for the connection in the table, emptying the queue never meets another connection |
| EventLoop.DrainedIsStaying | core/include/reactor.h:157-163 | then emptying it removes exactly the connections that are closing |
| EventLoop.DrainedOutcome | core/conv_single.h:423-429 | a connection survives the emptying of the close queue if and only if no entry has its descriptor |
| EventLoop.ServedOutcome | core/include/conn.h:227-254 | after an event its connection is still there if and only if it was an ordinary one and the handler has succeeded, and is closing then if and only if the handler has asked for it; the queue has one entry more if and only if someone has |
| EventLoop.Table.NotifyClose | core/include/conn.h:154-161 | the first call for a connection sets the flag and puts its descriptor in the queue, the next do nothing |
| EventLoop.Table.Process | core/include/conn.h:227-254 | runs the handler under the status of the event, and asks for a close when it fails |
| InlineReactor.CloseIsNeverStale | core/include/reactor.h:151-270 | after any rounds with any events and handlers, every entry of the close queue finds a null slot or the connection that has put it there, and emptying the queue removes exactly the closing connections |
| InlineReactor.BatchOutcome | core/include/reactor.h:178-268 | a batch leaves exactly those connections that have no hang-up, no error, no unknown event and no failed handler in it |
| InlineReactor.BatchQueues | core/include/reactor.h:178-268 | what is in the close queue after a batch is what was there and what has been asked for, in order |
| InlineReactor.RoundOutcome | core/include/reactor.h:151-270 | after any rounds and one more: a connection is still there if and only if it had no entry in the close queue and every event for it was an ordinary one whose handler has succeeded |
| InlineReactor.Reactor.Remove | core/include/reactor.h:65-79 | the slot is emptied and the counter stays the number of connections |
| InlineReactor.Reactor.Drain | core/include/reactor.h:157-163 | empties the close queue entry by entry |
| InlineReactor.Reactor.Dispatch | core/include/reactor.h:178-268 | makes a connection for a descriptor without one, then the branch of the event |
| InlineReactor.Reactor.Work | core/include/reactor.h:151-270 | one round of the loop is the round of the theorem |
| ConvSingle.CountAndInterest | core/conv_single.h:421-537 | over all runs, whether accepts fail or not, the counter is the number of connections and within the limit, no event finds a null slot, and no accept that has succeeded a slot that is taken; epoll watches the listening descriptor and all of the table if and only if no accept of the run has failed below the limit |
| ConvSingle.CloseIsRightIff | core/conv_single.h:421-537 | after any run and one more batch, emptying the close queue removes exactly the closing connections if and only if no accept of the batch was given a number that waits in the queue |
| ConvSingle.BatchOutcome | core/conv_single.h:436-531 | a batch, accepts included, leaves exactly those connections that have no hang-up, no error, no unknown event and no failed handler in it |
| ConvSingle.RoundOutcome | core/conv_single.h:421-537 | after any run and one more round: a connection is still there if and only if no entry of the close queue had its number, stale or not, and every event for it was an ordinary one whose handler has succeeded |
| ConvSingle.AcceptOutcome | core/conv_single.h:436-466 | an accept makes a connection if and only if there is room for it and its slot is free |
| ConvSingle.NewConnectionIsClosed | core/conv_single.h:421-537 | a run in which a connection that has not asked for it is closed |
| ConvSingle.FailedAcceptStays | core/conv_single.h:436-466 | once an accept has failed below the limit, its connection is counted, not watched and still in the table after any further run |
| ConvSingle.Single.Remove | core/conv_single.h:188-202 | entry, counter and interest go together |
| ConvSingle.Single.Drain | core/conv_single.h:423-429 | empties the close queue entry by entry |
| ConvSingle.Single.AcceptClient | core/conv_single.h:438-467 | a connection is made within the limit if the slot is free |
| ConvSingle.Single.Serve | core/conv_single.h:468-531 | the branch of the event |
| ConvSingle.Single.Wait | core/conv_single.h:421-534 | one round of the loop is the round of the theorems, and keeps counter and interest right |
| FilterTrie.SegmentsJoin | http/http_conn.h:748-760 | the segments of a path have no slash in them and give the path back when joined by slashes |
| FilterTrie.EntryIsLast | http/http_conn.h:737-768 | after any history the entry for a first segment is the last registration under it |
| FilterTrie.RootIsLast | http/http_conn.h:743-747 | after any history the filter of the root is the last one registered with a star |
| FilterTrie.MatchIsLast | http/http_conn.h:770-805 | for a path without a star at its start: the last filter registered under the first segment asked for if its segments are the first of those asked for, none if they are not, the filter of the root if there is no such filter; what is asked for are the segments of the path, the last one clipped if the path ends with a slash |
| FilterTrie.SlashIsHarmlessIff | http/http_conn.h:794-797 | after any history a slash at the end of a path makes no difference if and only if, for several segments, the filter under the first asks neither for all of them nor for all of them with the last clipped, and for one segment, the entries for it and for its clipped form, or the root where there is none, agree, which is said case by case |
| FilterTrie.RegisteredMatches | http/http_conn.h:737-805 | what a registration does to every path: under its first segment the new filter is found for the paths that go on from its segments, a lone star at its end dropped, and nothing for the others; all other paths keep theirs |
| FilterTrie.RootRegistered | http/http_conn.h:743-747 | a registration with a star in front is for the root |
| FilterTrie.IgnoredIff | http/http_conn.h:739-741 | a registration is ignored, whatever the table, if and only if its url is shorter than two characters, does not start with a slash or ends with one |
| FilterTrie.AskedSegments | http/http_conn.h:776-798 | what is looked for are the segments of the path; with a slash at its end the last one without its last character, or a slash if it is empty |
| FilterTrie.TrailingMatches | http/http_conn.h:794-797 | so for a path with a slash at its end what is found is what is found without the last character of its last segment |
| FilterTrie.Filters.Register | http/http_conn.h:737-768 | the tree of nodes after a registration is the table after it |
| FilterTrie.Filters.Match | http/http_conn.h:770-805 | the walk over the nodes gives what the table gives, on every path |
| SocketIo.ReceiveMoves | core/include/socket_io.h:50-75 | a call moves the next bytes of the stream, in order, and no more than are left of the transfer |
| SocketIo.ReceiveReturns | core/include/socket_io.h:50-75 | what a call returns is decided by the last answer it has used up: false after an error or at the end of the stream with nothing in `errno`, true if all has been moved or there is nothing to be had for now; it waits only without an answer |
| SocketIo.NothingToReceive | core/include/socket_io.h:50-53 | a transfer of nothing fails at once |
| SocketIo.FirstSizeCounts | core/include/socket_io.h:243-250 | however often a transfer is cut short and taken up again, only the size of the first call counts, and no more than that is moved, in order |
| SocketIo.BodyIsInOrder | http/http_conn.h:1257-1266 | whatever the kernel answers, the body is the stream in order, no byte beyond Content-Length is taken, and the loop ends exactly when the body is that long |
| SocketIo.ShortStreamWaits | http/http_conn.h:1262-1265 | if the peer sends less than it has announced, the loop never ends |
| SocketIo.EnoughDataEnds | http/http_conn.h:1262-1265 | if it sends enough and the kernel hands it over, the loop ends, through any EAGAINs and errors |
| SocketIo.SendRightIff | core/include/socket_io.h:24-42 | a call sends the data from the cursor on, once and in order, moves the cursor by as much and returns true if and only if that is all, exactly if no error is among the answers of the kernel it uses up |
| SocketIo.ResendRightIff | core/include/socket_io.h:156-190 | however often a send is cut short and taken up again, what has gone out is the data up to the cursor, once and in order, and true is returned if and only if that is all, exactly if no error is among the answers of the kernel |
| SocketIo.ErrorSendsNothing | core/include/socket_io.h:33-39 | an error on the first call of a transfer makes it return true with nothing sent |
| SocketIo.ErrorSendsTwice | core/include/socket_io.h:33-39 | an error in the middle of a transfer, followed by none, makes the last byte before it go out twice |
| SocketIo.Socket.RecvBase | core/include/socket_io.h:50-75 | the loop over ::recv does what the function over its answers says |
| SocketIo.Socket.Recv | core/include/socket_io.h:243-250 | a new transfer, or the unfinished one |
| SocketIo.Socket.ReadPostBody | http/http_conn.h:1257-1266 | the body loop does what the function over the answers says |
| SocketIo.Socket.SendBase | core/include/socket_io.h:24-42 | the loop over ::send, with a cursor that wraps around at the size of size_t |
| SocketIo.Socket.SendData | core/include/socket_io.h:156-190 | a new transfer, or the unfinished one; of nothing, false |

## Left out

- JsonParser.Parser.ParseNumber: which double `strtod` gives for a number with a fraction or an exponent, or beyond an int32, is not modelled; it is any function of the letters, digits, signs, points, parentheses and underscores from the cursor on.
- JsonRoundTrip.RoundTrip: documents that hold doubles are left out, because they are printed at a default precision.
- JsonRfc.RfcTextsIff: the meaning of a number with a fraction or an exponent is what `strtod` reads, if it reads it as a whole; unpaired surrogates are left out; a name with an escaped quote inside a value that does not count is left out, because what is read then depends on the text behind the quote.
- Printing of doubles, casts, comparisons, `operator[]` and `operator<<` of JSON values; the ownership of their unions and C strings, which are values here.
- JsonArray.PushAll: not for arrays that were assigned by moving, whose capacity the code does not carry over.
- JsonPretty.PrettyIff: says nothing of documents that do not survive dump and load in the first place.
- SafeQueue.FirstInFirstOut: one consumer and one thread at a time in `acquire_node`, because several at once expose its compare-and-swap to a top that has come back; the steps of the one inside are taken one by one, between those of everybody else.
- Memory orders weaker than sequential consistency and races on plain fields, in the queue and in the reactors; queue, pool and reactors are state machines over values, so that update in place and aliasing through pointers appear only as steps and as maps from objects to their fields.
- Shutdown, signals, destructors and the closing of servers; the loop that retries or stops on errors of epoll_wait.
- ReactorResults.NothingGoesWrong: handlers re-arm or ask to close at most once, as their last act, which those of http/http_conn.h:1246-1247 do not, and `ReactorTwice` shows what becomes of it; `notify_close` and `process` are single steps of a worker; epoll_wait reports any armed descriptors, each once.
- EventLoop.Table.Process: the statuses CLOSE, BAD and OK are left out, because the loops set one of the other four before every call.
- InlineReactor.Reactor.Remove: closing the descriptor and giving the object back are steps of `Reactors`; the counter is that of a server with one reactor.
- InlineReactor.CloseIsNeverStale: the fields of a connection are values in the table; which descriptors epoll reports is arbitrary, except that none is reported twice at once.
- ConvSingle.CountAndInterest: the limit does not change during a run; worker pools are those of `ThreadPool` and are not combined with this loop.
- `conv_multi` does not look at its limit of connections when it accepts, and nothing is proved about one.
- HTTP: parsing of headers, routers, status pages, files, cookies and forms.
- SocketIo.BodyIsInOrder: the body starts from what `recv_all` has left behind the header, and Content-Length is what `strtoll` has made of it, not negative.
- Framing with headers in `send_with_header` and `recv_with_header`, and the transfer of files with `sendfile`.
- Detectors, logging, configuration and banners.
