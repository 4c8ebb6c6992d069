# The Socket Exchange, verified

A Dafny model of the exchange server: its matching engine, the server as a state machine with the
sockets and the event loop around it, the byte streams in both directions, and the line protocol.
The proofs are about whole runs: what every step keeps, what no interleaving can break, and what a
client ends up with.

## How it is built

* `Book.dfy` states the order book as one list of resting orders in arrival order.  `Levels.dfy` is the
  independent reference, a two-sided FIFO per instrument and price, and `Ledger.dfy` the conservation
  laws.  `OrderBook.dfy` is the book as it is stored: linked lists per instrument and side, nodes
  changed in place, and an index from id to node.  An iterator is a node number, and a freed node
  number is no longer allocated, so following a dangling iterator would not verify.
* `Exchange.dfy` and `Loop.dfy` are the server as a state machine, one function for each of its
  functions.  `Server.dfy` is the server as it runs: a class whose methods update its tables in place,
  each proved to go where the function of its name goes; the table below lists the methods with a loop
  or a change of representation.
* `Invariants.dfy` (tables), `Output.dfy` (output streams, registrations), `Inputs.dfy` (framing),
  `Announcements.dfy` (who is told what), `Safety.dfy` (every step keeps all of it), `Lifetimes.dfy`
  (descriptor reuse), `Effects.dfy` (each operation also does what it is for), `Publishing.dfy` (an order's
  executions, and who is told of them), `Parties.dfy` (who trades with whom), `Departures.dfy` (what a client
  leaves behind), `Answers.dfy` (all other commands), `Requests.dfy` (commands by their words), `Events.dfy`
  (what a turn does about each event), `Theorems.dfy` (what follows
  for whole runs) and `Witnesses.dfy` (two concrete runs that show the code doing what it does not say).
* `Framing.dfy` and `TcpClient.dfy` are the byte streams, `Protocol.dfy` and `Decimal.dfy` the protocol,
  `EventLoop.dfy` the two readiness backends, `Sockets.dfy` the answers of system calls, and
  `Sequences.dfy` shared vocabulary.

The environment is a finite script of answers: a send writes some bytes, is interrupted, would block or
fails; a receive yields bytes or the end of the stream; an accept yields a descriptor that is not open,
with the result of registering it.  The scripts are arbitrary, so every statement holds for every
behaviour of peers and kernel.  The order in which an unordered set is walked is also arbitrary.
The state carries the kernel's descriptor table, which maps a descriptor to the number of the
connection it denotes, and logs of what was queued, written, received and handled per connection;
these are what statements about reused descriptors and about streams speak of.

## Where the code is not what one would expect

* The server's oversize check runs only when its buffer holds no newline, so whether a line of
  65537 to 131071 bytes is handled or refused depends on how the stream was cut into reads
  (`Framing.ChunkIndependence` says exactly when it does not matter).
* `handle_order` stops publishing when the submitter is gone although the book has already changed, so a
  counterparty may trade without ever being told.  `Witnesses.TradedWithoutBeingTold` is such a run,
  `Publishing.AllPublishedIff` says exactly when all executions are published, and
  `Publishing.ToldEverythingIff` who misses something when they are not.
* `consume_messages` is described as returning false when the session was dropped; after an oversized
  line it returns false although the session may live on, closing.  `Effects.ConsumeReturns` says exactly
  when, `Effects.OversizeIsRefused` which such sessions live on, and `Witnesses.RefusedButStillThere` is one.
* `kq_apply` treats ENOENT as benign.  With a mirror that agrees with the kernel it cannot occur.  If
  kevent fails for another reason after applying the first of two changes, the mirror no longer agrees;
  `EventLoops.MirrorsExactlyWhen` says when that can happen, and a session that begins to close is a case
  (`EventLoops.ClosingCanDiverge`).
* `Event::hangup` is described as "peer closed or the descriptor errored"; a peer's close (POLLHUP,
  EV_EOF) is reported as readable.

## Model

| member | source | states |
|---|---|---|
| Levels.FlatRefinesLevels | src/trading/order_book.cpp:10-99 | for every sequence of adds, cancels and owner removals, the flat book watched at any instrument and price has the same executions and the same two queues as a plain two-sided FIFO fed the same operations |
| Levels.StepRefines | src/trading/order_book.cpp:10-99 | one operation on the flat list, projected to any level, is the operation of that level's FIFO |
| Levels.TimePriority | src/trading/order_book.cpp:19-45 | in every reachable book an add fills a prefix of the level it faces completely and at most one more order, which keeps its place; afterwards nothing older than a filled order is waiting there |
| Levels.FifoFillsPrefix | src/trading/order_book.cpp:26-44 | which orders a FIFO fills, how much of each, and what is left |
| Book.MatchCovered | src/trading/order_book.cpp:16-45 | matching against the whole book is matching against the one list of opposite orders of that instrument, or against the level alone |
| Book.MatchUncovered | src/trading/order_book.cpp:16-45 | every other list and level is left exactly as it was |
| Book.RunWellFormed | src/trading/order_book.cpp:13-64 | in every reachable book ids are unique, strictly increase along the list and are below the next id, and every quantity is positive |
| Ledger.OrderConservation | src/trading/order_book.cpp:10-99 | for every id and every run, submitted quantity = executed + resting + withdrawn by cancel or disconnect |
| Ledger.LevelConservation | src/trading/order_book.cpp:10-99 | both sides of every level balance against the same traded volume, over every run |
| Ledger.NeverCrossed | src/trading/order_book.cpp:20-64 | no reachable book holds a buy and a sell at the same instrument and price |
| Ledger.TradesTheMinimum | src/trading/order_book.cpp:20-64 | with adds alone a level has traded the minimum of what was bought and sold, and the difference rests |
| Ledger.MatchRemaining | src/trading/order_book.cpp:14-37 | no subtraction in matching goes negative: the unmatched part stays between 0 and the order's quantity, and each execution is positive and at most that quantity |
| OrderBooks.OrderBook.AddOrder | src/trading/order_book.cpp:10-67 | the lists, the nodes and the index after an add represent the book the specification gives, with the next id; every execution is between the submitter and the owner of an order that rested on the other side at that instrument and price, the buyer being whoever wanted to buy |
| OrderBooks.OrderBook.Scan | src/trading/order_book.cpp:19-45 | the in-place loop over the opposite list equals matching against that list, touches no other list, and executes only against orders of it at the incoming price, with the right buyer and seller |
| OrderBooks.OrderBook.TakeFrom | src/trading/order_book.cpp:37-44 | a node filled completely is unlinked and leaves the index; one filled partially stays in its place |
| OrderBooks.OrderBook.Rest | src/trading/order_book.cpp:48-64 | the remainder is appended to its list and indexed |
| OrderBooks.OrderBook.EraseAt | src/trading/order_book.cpp:5-8 | unlinking through a location removes exactly the order of that id and owner |
| OrderBooks.OrderBook.CancelOrder | src/trading/order_book.cpp:69-88 | succeeds exactly for a resting order of that id and owner, and equals filtering it out of the lists |
| OrderBooks.OrderBook.RemoveOrdersOf | src/trading/order_book.cpp:90-99 | walking the index in any order leaves exactly the orders of other owners, in their order |
| Parties.ExecutionParties | src/trading/order_book.cpp:26-44 | every execution of a BUY command has the submitter as buyer and, as seller, the owner of an order resting on the sell side at the command's instrument and price, which loses exactly the executed quantity; the other way round for SELL |
| Parties.RemainderRests | src/trading/order_book.cpp:48-64 | what is not executed rests last, under the acknowledged id, with the command's side, instrument and price; nothing rests of an order executed completely |
| Parties.SubmitterNotice | src/exchange_server.cpp:638-644 | the submitter of a BUY is told BOUGHT and of a SELL told SOLD, with the command's instrument and price; both only when it trades with itself |
| Parties.CounterpartyNotice | src/exchange_server.cpp:638-644 | the other party is live, and is told SOLD of a BUY and BOUGHT of a SELL |
| Parties.FirstNotices | src/exchange_server.cpp:615-635 | what a surviving submitter is queued first: the acknowledgement, then BOUGHT for a BUY or SOLD for a SELL |
| Departures.DropTakesOwnOrders | src/exchange_server.cpp:261-279 | after a drop the resting orders are exactly those of other clients |
| Departures.DropKeepsPriority | src/trading/order_book.cpp:90-99 | two orders that stay keep their relative order |
| Departures.DropTakesNothingElse | src/trading/order_book.cpp:90-99 | and nothing is taken from any order that was not the dropped client's |
| OrderBooks.IndexKeys | src/trading/order_book.hpp:57-70 | the indexed ids are exactly the resting ids, and each location leads to that order |
| Safety.RunInvariant | src/exchange_server.cpp:114-158 | every state at the end of a turn, in every run and for every answer of the kernel, has all the invariants below |
| Safety.ProcessEventInvariant | src/exchange_server.cpp:128-149 | one event, with every drop nested inside it, keeps all the invariants |
| Safety.HandleCommandSound | src/exchange_server.cpp:501-669 | every command keeps tables, streams, registrations and announcements in agreement, whoever is lost on the way |
| Safety.PublishAllSound | src/exchange_server.cpp:630-658 | so does publishing, where each send can drop a session, the submitter's included |
| Safety.ConsumeInvariant | src/exchange_server.cpp:461-497 | so does handling a buffer of lines, to the point where the session is settled, closing or gone |
| Safety.AcceptInvariant | src/exchange_server.cpp:178-218 | so does draining the accept queue, with failed registrations and exhaustion |
| Invariants.DropTables | src/exchange_server.cpp:261-279 | after a drop, subscriber sets, usernames, roles and order owners again speak of live sessions only |
| Invariants.FlushTables | src/exchange_server.cpp:311-385 | a flush, whether it keeps or drops the session, leaves the tables in agreement |
| Output.SendToStreams | src/exchange_server.cpp:302-353 | what sockets took followed by what is buffered stays the concatenation of everything queued, through both ways of compacting the buffer |
| Output.SendToRest | src/exchange_server.cpp:346-384 | after any response every session is bounded and registered as it needs, or gone |
| Output.OrderlyCloseRest | src/exchange_server.cpp:440-457 | a session that starts closing is registered for writing only and has something to write, or is gone |
| Theorems.EverySession | src/exchange_server.cpp:302-385 | spelled out for every reachable state: key = descriptor, stream conservation, at most 16 MiB pending and one chunk more stored, registered and cached interest = (not closing, output pending), a closing session has output; and registrations are exactly the sessions and the listener, which is readable exactly when accepting is not paused |
| Exchange.SendToFrame | src/exchange_server.cpp:302-385 | a response disturbs no connection but its own, and is queued there exactly once |
| Lifetimes.EventsReachTheirConnections | src/exchange_server.cpp:128-154 | within a batch, for any interleaving of accepts and drops, an event's descriptor still denotes the connection it denoted when the batch was collected, and a session there is that connection's |
| Lifetimes.ShutdownClosesEverything | src/exchange_server.cpp:281-298 | at the end no descriptor is open, every connection ever accepted was closed exactly once, and nothing that was not open was ever closed or written to |
| Lifetimes.RolesAreFixed | src/network/client_session.hpp:8-11 | over any stretch of any run a connection keeps its descriptor, its role once decided and its username once taken, and nothing queued or announced is taken back |
| Publishing.OrderIsPublished | src/exchange_server.cpp:615-658 | the submitter is acknowledged first; everyone still there is told of every published execution that concerns it, in execution order, and of nothing else; those lost on the way a prefix; published are all executions if the submitter survives, and otherwise those up to the one at which it is found gone |
| Publishing.AllPublishedIff | src/exchange_server.cpp:628-635 | all executions are published if and only if there is at most one, or the submitter's socket tolerates the acknowledgement and its own part of each execution before the last (it does not fail, and leaves at most 16 MiB) |
| Publishing.PublishSpares | src/exchange_server.cpp:638-658 | publishing an execution can cost only its parties and subscribers their sessions: anyone else survives it, and a party exactly when its socket tolerates its own notices |
| Publishing.ToldEverythingIff | src/exchange_server.cpp:630-635 | a client still there has been told of everything that concerns it exactly when no unpublished execution does |
| Publishing.CounterpartyNotTold | src/exchange_server.cpp:628-635 | when the submitter is lost with its acknowledgement, whoever has no part in the first execution stays and is queued nothing at all |
| Witnesses.TradedWithoutBeingTold | src/exchange_server.cpp:630-635 | a run from the start in which a seller stays connected, its order is filled completely, and all it is ever queued are the answers to its login and its order |
| Announcements.PublishTold | src/exchange_server.cpp:638-658 | one execution: BOUGHT to a live buyer, SOLD to a live seller, TRADE to each live subscriber, each once and in that order |
| Announcements.FanOutMail | src/exchange_server.cpp:652-657 | every target live at the start is queued the update exactly once, whoever is dropped during the fan-out |
| Publishing.FillsReachSubmitters | src/trading/order_book.cpp:28-34 | both parties of an execution are live, on the very connections that submitted the two orders |
| Theorems.SubscribersAgree | src/exchange_server.cpp:576-602 | over any stretch of any run, two sessions subscribed throughout were queued the same TRADE messages in it, exactly those announced in it and in that order |
| Announcements.PublishTape | src/exchange_server.cpp:638-658 | publishing keeps every live session's TRADE messages equal to what was announced while it was subscribed |
| Answers.CancelIsExact | src/exchange_server.cpp:660-669 | CANCEL succeeds exactly when the order is resting and was submitted by this very connection, removes that order and no other, and says which of the two conditions failed |
| Answers.CommandAnswered | src/exchange_server.cpp:534-602 | any other command is answered once, to the requester alone: a malformed one with its parse error, one of the other role with the refusal naming both, a trading command before login with "not logged in" |
| Answers.LoginAnswered | src/exchange_server.cpp:549-574 | the exact answer to LOGIN: already logged in (with the name held), name taken, or OK |
| Answers.SubscriptionAnswered | src/exchange_server.cpp:576-602 | SUBSCRIBE is always answered OK, UNSUBSCRIBE exactly when subscribed, otherwise with the instrument that is not |
| Requests.QuitLine | src/exchange_server.cpp:509-511 | a line that says QUIT queues nothing; the session stays, closing and no longer read, exactly while output is pending |
| Requests.LoginLine | src/exchange_server.cpp:549-574 | a LOGIN line: the answer, and what has become of the client |
| Requests.SubscriptionLine | src/exchange_server.cpp:576-602 | a SUBSCRIBE or UNSUBSCRIBE line: the answer, and what is subscribed afterwards |
| Requests.OrderLine | src/exchange_server.cpp:615-636 | a BUY or SELL line of a logged-in client: the order as the line says it is the next operation on the book, and is acknowledged with the next id |
| Requests.CancelLine | src/exchange_server.cpp:660-669 | a CANCEL line of a logged-in client: applied to the id it says, and answered accordingly |
| Requests.RefusedLine | src/exchange_server.cpp:501-507 | a line the parser refuses is answered with the reason, and changes nothing about the client or the book |
| Requests.MayTrade | src/exchange_server.cpp:605-613 | exactly logged-in clients may trade |
| Effects.LoginTakesEffect | src/exchange_server.cpp:549-574 | a client still there after LOGIN is the trader of that name exactly when it had no login and the name was free; otherwise nothing about it changed |
| Effects.SubscriptionTakesEffect | src/exchange_server.cpp:576-602 | afterwards the instrument is subscribed exactly after SUBSCRIBE, every other subscription is as before, and a subscriber is a market-data client |
| Effects.TradingReachesBook | src/exchange_server.cpp:615-669 | a permitted order or cancel is applied to the book exactly once, and beyond it the book only loses orders of sessions lost while sending |
| Effects.SurvivesExactlyWhen | src/exchange_server.cpp:302-385 | a client survives a response if and only if its socket did not fail, at most 16 MiB stay unwritten, and it is not closing with nothing left to write; and how much is then pending |
| Effects.WritesWhatItCan | src/exchange_server.cpp:311-335 | a flush stops only when everything is written, the socket would block or it fails, and takes as many bytes as the answers it used allow |
| Effects.DrainedIsDelivered | src/exchange_server.cpp:338-372 | a flush that writes everything has handed the socket everything ever queued for that connection |
| Effects.OrderlyCloseDelivers | src/exchange_server.cpp:440-457 | a session that starts closing is dropped exactly when nothing is pending, and then its socket was handed everything queued |
| Effects.OversizeIsRefused | src/exchange_server.cpp:467-477 | an unfinished line that is too long is answered once with the refusal; the session stays, closing, exactly when its socket tolerates the refusal without taking all of it |
| Effects.ConsumeReturns | src/exchange_server.cpp:459-497 | the result is true exactly when the session is still there and framing its buffer does not overflow |
| Witnesses.RefusedButStillThere | src/exchange_server.cpp:467-477 | 65537 bytes without a newline and a socket that takes nothing: false is returned and the session is there |
| Effects.NothingReceivedIsLost | src/exchange_server.cpp:395-438 | a readable event takes a prefix of the chunks the socket delivers, and all of them if the session lives on without closing |
| Effects.AcceptAdmits | src/exchange_server.cpp:178-218 | an accepted and registered connection gets a fresh session, read interest and a connection number of its own, whatever is accepted after it |
| Effects.AcceptLeaves | src/exchange_server.cpp:178-218 | draining the accept queue leaves every session there was, and its registration, unchanged |
| Effects.EveryOrderIsWalked | src/exchange_server.cpp:652-657 | every order in which an unordered set can be walked is one that the model covers |
| Events.EventsInOrder | src/exchange_server.cpp:128-149 | every event of a registered descriptor is processed, after those before it and before those after it |
| Events.FlagsInOrder | src/exchange_server.cpp:140-148 | several flags at once are acted on as writing, then reading, then hanging up |
| Events.WritableTurn | src/exchange_server.cpp:387-391 | a turn in which a session is writable hands its socket exactly the first bytes of the pending output, as many as the answers allow, keeps the rest pending, and says when the session survives |
| Events.ReadableTurn | src/exchange_server.cpp:395-438 | a turn in which a session is readable takes a prefix of what the socket delivers, and all of it if it reads on, which it does not once the peer is found gone; a closing session is not read |
| Events.DeliveriesAre | src/exchange_server.cpp:400-437 | delivered are all full buffers and what the first call that does not fill one brings |
| Events.PeerGoneTurn | src/exchange_server.cpp:424-437 | at the end of the stream a session is kept, closing, exactly while it has output; after a failure it is dropped |
| Events.HangupTurn | src/exchange_server.cpp:146-148 | a turn in which a session hangs up ends that session and no other |
| Events.ListenerTurn | src/exchange_server.cpp:178-218 | every connection waiting is welcomed with a fresh session, read interest and its number in order of arrival, or closed at once if it could not be registered; accepting is paused afterwards exactly when it was and the pause was not over, or the process ran out of descriptors |
| Events.PauseEndsWhenDue | src/exchange_server.cpp:241-257 | without an event of the listener the pause goes on exactly when it is not over, and the listener is watched exactly when there is none |
| Events.TurnLeavesNoneOpen | src/exchange_server.cpp:151-154 | after every turn the open descriptors are exactly those of the sessions |
| Events.LineByLine | src/exchange_server.cpp:479-496 | the buffer's first line is handled, and then the rest unless the line ended the session |
| Witnesses.SaysIsHandled | src/exchange_server.cpp:395-497 | a turn in which a waiting session receives one short line is the handling of that line |
| Theorems.ServerLedger | src/exchange_server.cpp:615-669 | the order ledger balances in every reachable state of the server |
| Theorems.ClientHoldsResponses | src/network/tcp_client.cpp:66-85 | in every reachable state a client that read any part of what its socket was handed, in any chunks, holds a prefix of the responses queued for it, and all of them once everything is written and read |
| Theorems.SessionHandlesLines | src/exchange_server.cpp:395-497 | a reading session has handled exactly the complete lines of what it received, and keeps a newline-free rest of at most 64 KiB |
| Framing.ChunkIndependence | src/exchange_server.cpp:467-477 | every way of cutting a stream into reads gives the same lines and outcome if and only if the first over-long line before any QUIT is unfinished or longer than 131071 bytes |
| Framing.TwoReadings | src/exchange_server.cpp:467-477 | for any other stream, two ways of reading it that differ |
| Framing.AmbiguousExample | src/exchange_server.cpp:41-51 | a line of 65537 bytes is such a stream |
| Framing.ShortLinesDecide | src/exchange_server.cpp:467-477 | when no newline-free run exceeds 64 KiB the reads never matter |
| Framing.FeedSplits | src/exchange_server.cpp:461-497 | while a connection is open it has handled the stream split at newlines, one trailing carriage return stripped |
| Framing.SplitConcat | src/network/tcp_client.cpp:75-81 | splitting what is left of a first part with a second part is splitting the whole |
| Framing.LineEndings | src/exchange_server.cpp:479-483 | a line ends at its newline; one carriage return before it belongs to the ending, and no more than one |
| TcpClients.TcpClient.ReceiveMessages | src/network/tcp_client.cpp:66-97 | yields exactly the complete lines of what was buffered and read, and keeps the rest |
| TcpClients.ReadingsAre | src/network/tcp_client.cpp:66-97 | one call reads all full buffers and what the first call that does not fill one brings, and fails exactly at the end of the stream or on an error |
| TcpClients.ResponsesRoundTrip | src/network/tcp_client.cpp:66-85 | any sequence of responses, echoed names included, read in any chunks, gives back exactly those messages with nothing left over |
| Protocol.TextPlain | src/protocol/message_parser.cpp:145-173 | every response is one line: no newline, no carriage return |
| Protocol.ParseWellParsed | src/protocol/message_parser.cpp:63-141 | an accepted command is in range and complete, and a refusal echoes only words of the line |
| Requests.WordsAreRead | src/protocol/message_parser.cpp:63-71 | however words are separated by white space, the line is read as those words |
| Requests.LineIsItsWords | src/protocol/message_parser.cpp:63-71 | and every line is its words separated by white space |
| Requests.LoginWords | src/protocol/message_parser.cpp:78-86 | LOGIN is accepted exactly with one word of at most 64 characters, and why it is refused otherwise |
| Requests.OrderWords | src/protocol/message_parser.cpp:88-105 | BUY and SELL are accepted exactly with a listed instrument and two positive numerals of at most eighteen digits, as those values, and which fault is named otherwise |
| Requests.CancelWords | src/protocol/message_parser.cpp:107-115 | CANCEL is accepted exactly with one such numeral |
| Requests.SubscriptionWords | src/protocol/message_parser.cpp:117-128 | SUBSCRIBE and UNSUBSCRIBE are accepted exactly with one listed instrument |
| Requests.QuitWords | src/protocol/message_parser.cpp:130-133 | QUIT is accepted exactly when nothing follows it |
| Requests.OtherWords | src/protocol/message_parser.cpp:66-75 | an empty line and any other first word are refused |
| Requests.QuitIsQuit | src/protocol/message_parser.cpp:130-133 | the lines that end a session are exactly those whose only word is QUIT |
| Protocol.FirstWordTells | src/protocol/message_parser.cpp:145-173 | the first word of every response says what it is |
| Protocol.CancelRoundTrip | src/protocol/message_parser.cpp:107-115 | CANCEL with a printed id is accepted as that id exactly below 10^18, and refused otherwise |
| Protocol.OrderRoundTrip | src/protocol/message_parser.cpp:88-105 | a printed order is accepted with the same instrument, quantity and price exactly when both numbers are in 1 .. 10^18 - 1 |
| Protocol.LoginRoundTrip | src/protocol/message_parser.cpp:78-86 | LOGIN with any word is accepted as that name exactly up to 64 characters |
| Protocol.SubscriptionRoundTrip | src/protocol/message_parser.cpp:117-128 | SUBSCRIBE and UNSUBSCRIBE are accepted exactly for the instruments of the exchange, and otherwise refused with the name given |
| Protocol.NoticeReadsBack | src/protocol/message_parser.cpp:145-173 | BOUGHT, SOLD and TRADE split into their words, with decimals that read back as the quantity and the price |
| Protocol.AcknowledgementReadsBack | src/protocol/message_parser.cpp:155-161 | the id in an acknowledgement reads back as that id |
| Decimal.ParseInteger | src/protocol/message_parser.cpp:35-44 | accepts one to eighteen digits and nothing else, computes the number they denote, and never leaves the 64-bit range |
| Decimal.PrintedIsRead | src/protocol/message_parser.cpp:35-44 | reading inverts printing exactly below 10^18 |
| Decimal.IntegerBound | src/protocol/message_parser.cpp:35-44 | accepted values are below 10^18 |
| EventLoops.PollLoop.Add | src/network/event_loop.cpp:96-105 | sets the interest of one descriptor, new or not; the mutual calls terminate |
| EventLoops.PollLoop.Update | src/network/event_loop.cpp:107-112 | likewise |
| EventLoops.PollLoop.Remove | src/network/event_loop.cpp:114-128 | removes one descriptor, the array and its index staying inverse through the swap with the last entry |
| EventLoops.PollLoop.Wait | src/network/event_loop.cpp:130-151 | one event for each entry that reports anything, in array order, with the flags it reported |
| EventLoops.KqueueLoop.Apply | src/network/event_loop.cpp:159-182 | when the kernel takes the changes the mirror again equals its filters; otherwise it keeps what it had, which is right exactly when nothing had been applied |
| EventLoops.KqueueLoop.Remove | src/network/event_loop.cpp:184-198 | the mirror agrees afterwards exactly when the kernel applied every deletion |
| EventLoops.RegisterDifference | src/network/event_loop.cpp:163-181 | with an agreeing mirror no deletion is of an absent filter, and the kernel ends where the new interest says |
| EventLoops.MirrorCanDiverge | src/network/event_loop.cpp:175-181 | one of two changes applied leaves a mirror that agrees with neither interest |
| EventLoops.MirrorsExactlyWhen | src/network/event_loop.cpp:159-182 | an update leaves the mirror right whatever the kernel answers if and only if it changes at most one filter |
| EventLoops.ClosingCanDiverge | src/exchange_server.cpp:440-457 | stopping to read and starting to write at once is not such an update |
| EventLoops.Coalesce | src/network/event_loop.cpp:220-237 | each descriptor once, in order of first appearance, each flag the disjunction over its raw events |
| Servers.ExchangeServer.Run | src/exchange_server.cpp:114-158 | a whole run ends where the state machine says, every connection closed exactly once, and nothing that is not open closed or written to |
| Servers.ExchangeServer.Turn | src/exchange_server.cpp:117-155 | one turn (resume accepting, process the collected events, close what was dropped) goes where the state machine says and keeps every invariant |
| Servers.ExchangeServer.AcceptPending | src/exchange_server.cpp:178-218 | drains the accept queue into sessions and registrations |
| Servers.ExchangeServer.Drop | src/exchange_server.cpp:261-279 | detaches a session from every table, leaves its descriptor to be closed, and of the resting orders leaves exactly those of other clients |
| Servers.ExchangeServer.Write | src/exchange_server.cpp:312-335 | the send loop hands over exactly the bytes the socket takes, in order, and tells whether it failed |
| Servers.ExchangeServer.OnReadable | src/exchange_server.cpp:395-438 | reads until the socket is drained, the session is gone or it is closing |
| Servers.ExchangeServer.ConsumeMessages | src/exchange_server.cpp:461-497 | handles every complete line, or gives up on an unfinished one that is too long |
| Servers.ExchangeServer.HandleOrder | src/exchange_server.cpp:615-636 | enters the order, acknowledges it, then publishes until the submitter is found gone |
| Servers.ExchangeServer.HandleCancel | src/exchange_server.cpp:660-669 | cancels, or says why not |

## Left out

- Sessions are values in the server's map, as the source stores them, and not objects of their own: aliasing between two references to one session is not modelled.
- A socket that answers a send or a receive with "interrupted" for ever: scripts are finite, so that loop's non-termination is not modelled.
- The event loop inside the server is the one map from descriptor to interest that both backends are proved to keep; a kqueue update that fails in the middle of a run is modelled only in `EventLoop.dfy`.
- Calls on a descriptor that is not open are recorded when something is closed or written; a receive, a shutdown or a send that takes nothing is not recorded (they are made on descriptors of live sessions only, which `Theorems.EverySession` shows to be open).
- Time: the pause after an exhausted accept is a flag, and whether it is over is an input of each turn.
- Overflow of order ids after 2^63 orders: ids are unbounded, and the bound of 10^18 is stated where ids are printed and read.
- Bytes are characters, so the model's streams range over more than the 256 byte values.
- `TCPClient::send_message`, socket setup, address resolution, signals, argument parsing and logging: they would add easy members only.
- The interactive clients and the connection generator: their framing repeats the client's.
- Liveness, such as "a closing client is eventually dropped": it depends on the peer reading.
