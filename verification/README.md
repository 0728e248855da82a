# A verified model of a muduo-style TCP reactor

The repository is a one-loop-per-thread reactor in the style of muduo. These are its parts:

- An `EventLoop` blocks in an epoll poller, dispatches the ready channels, then runs the tasks other threads queued for it.
- A `Channel` ties one file descriptor to its interest mask and its four callbacks: read, write, close and error.
- The poller keeps each channel's registration state (`kNew`, `kAdded` or `kDeleted`) and issues `epoll_ctl` calls accordingly.
- A `TcpConnection` owns a socket, a channel and an input and an output `Buffer`. It sends through a direct write, buffers what the kernel did not take, drains that buffer when the socket becomes writable, and moves through the states `kConnecting`, `kConnected`, `kDisconnecting` and `kDisconnected`.
- A `TcpServer` names each accepted connection, keeps it in a name-keyed registry, and hands it to an I/O loop.

The repository holds two drafts of the channel, the poller and the connection:

- `src/Channel.cc` and `src/Channel.cpp`;
- `src/EPollPoller.cc` and `src/EpollPoller.cpp`;
- `reference/src/TcpConnection.cc` and `src/TcpConnnection.cpp`.

The drafts that differ in behaviour are modelled side by side, and lemmas state where they agree and where they part.

The model is written in Dafny. There is one module per file:

| file | module | what it holds |
|---|---|---|
| `sys.dfy` | `Sys` | Bytes, errno values, epoll bits, and the results of `readv`/`write` as inputs |
| `buffer_model.dfy` | `BufferModel` | The buffer as a value: cursors, compaction, growth, the scatter read, and the FIFO lemmas |
| `buffer.dfy` | `Buffers` | The `Buffer` class; each method is proved equal to its `BufferModel` function |
| `channel.dfy` | `Channels` | The `Channel` class, the mask operations, and the two dispatch orders as pure functions |
| `registration.dfy` | `Registration` | The `kNew`/`kAdded`/`kDeleted` machine, the ADD/MOD/DEL choice, and event-array doubling |
| `poller.dfy` | `Pollers` | The `EPollPoller` class with its `fd -> Channel` map and a ghost log of `epoll_ctl` calls |
| `event_loop.dfy` | `EventLoops` | The `EventLoop` class: the task queue, swap-and-drain, wakeups, quit, and the loop itself |
| `connection_model.dfy` | `ConnectionModel` | The send plans of both drafts, high-water crossing, and the state transitions of both drafts |
| `tcp_connection_reference.dfy` | `ReferenceConnections` | The `TcpConnection` class of `reference/src/TcpConnection.cc` |
| `tcp_connection_draft.dfy` | `DraftConnections` | The `TcpConnection` class of `src/TcpConnnection.cpp` |
| `tcp_server.dfy` | `TcpServers` | Connection naming with 32-byte truncation, the registry, `start`, and the destructor |

Conventions used throughout the model:

- Whether the caller runs on a loop's own thread is a boolean parameter.
- A task handed to a loop is a `Task` value.
- A task that runs at once is appended to the loop's ghost `executed` log. Its effect is applied by the caller, which receives `ranNow`.
- Wakeups, `epoll_ctl` calls, the bytes a connection puts on the wire and the callbacks it invokes are all kept in ghost logs.

## Model

| member | source | states |
|---|---|---|
| BufferModel.Initial | include/Buffer.h:12-20 | A fresh buffer has 8 + 1024 bytes of storage, 8 prependable, 0 readable and 1024 writeable bytes |
| BufferModel.MakeSpace | include/Buffer.h:68-83 | Readable content is kept and at least `len` bytes become writeable. When prependable + writeable - 8 covers `len`, the readable bytes move to offset 8 and storage size is unchanged. Otherwise storage grows to `writeIndex + len` and no cursor moves |
| BufferModel.Append | include/Buffer.h:33-38 | Readable content becomes the old content followed by `data`. When `data` fits the writeable space, only the write cursor moves, by exactly the length of `data`. Otherwise the buffer compacts to offset 8 with its size unchanged, or grows to `writeIndex` plus the length of `data` with the read cursor in place. The cursor invariant holds |
| BufferModel.Retrieve | include/Buffer.h:41-47 | With `len` below the readable count, exactly the first `len` readable bytes are dropped. Otherwise the buffer empties and both cursors return to 8. Storage is untouched |
| BufferModel.RetrieveAll | include/Buffer.h:49-53 | Both cursors return to 8, nothing stays readable, and storage is untouched |
| BufferModel.RetrieveAsString | include/Buffer.h:56-61 | For `len` up to the readable count, it returns the first `len` readable bytes, and those bytes followed by what stays readable are the old readable content |
| BufferModel.RetrieveAllAsString | include/Buffer.h:62-65 | Returns the whole readable region and leaves nothing readable, with cursors at 8 |
| BufferModel.ScatterSegments | src/Buffer.cpp:13-19 | The second 65536-byte segment is used only when fewer than 65536 bytes are writeable |
| BufferModel.ReadCapacity | src/Buffer.cpp:10-19 | One read accepts at most writeable + 65536 bytes, or only writeable bytes when that is 65536 or more |
| BufferModel.ReadFd | src/Buffer.cpp:7-35 | Returns the raw read count. A failed read stores errno and changes nothing. Otherwise readable content grows by exactly the bytes read, in order, and a read that fits the writeable space only advances the write cursor |
| BufferModel.StepIsFifo | include/Buffer.h:33-65 | One append or retrieve-as-string conserves bytes: taken bytes followed by remaining bytes equal old content followed by appended bytes |
| BufferModel.RunIsFifo | include/Buffer.h:33-65 | Over any sequence of appends and retrieves, the bytes taken out followed by those still readable are the initial content followed by everything appended (first in, first out) |
| BufferModel.AppendRetrieveRoundTrip | include/Buffer.h:33-61 | Appending `b` to an empty buffer and then retrieving as many bytes as `b` holds as a string yields exactly `b` and leaves nothing readable |
| Buffers.Buffer.constructor | include/Buffer.h:15-20 | The fields equal the fresh buffer of `BufferModel.Initial` |
| Buffers.Buffer.Peek | include/Buffer.h:26-28 | `peek` is the region between the two cursors; its length is the readable count, and no field changes |
| Buffers.Buffer.Append | include/Buffer.h:33-38 | The new fields equal `BufferModel.Append` of the old ones, and `peek` grows by exactly the appended bytes |
| Buffers.Buffer.Retrieve | include/Buffer.h:41-47 | The new fields equal `BufferModel.Retrieve` of the old ones |
| Buffers.Buffer.RetrieveAll | include/Buffer.h:49-53 | The new fields equal `BufferModel.RetrieveAll` of the old ones |
| Buffers.Buffer.RetrieveAsString | include/Buffer.h:56-61 | The returned bytes and new fields equal `BufferModel.RetrieveAsString` of the old fields |
| Buffers.Buffer.RetrieveAllAsString | include/Buffer.h:62-65 | The returned bytes and new fields equal `BufferModel.RetrieveAllAsString` of the old fields |
| Buffers.Buffer.MakeSpace | include/Buffer.h:68-83 | The new fields equal `BufferModel.MakeSpace` of the old ones |
| Buffers.Buffer.ReadFd | src/Buffer.cpp:7-35 | The returned count, saved errno and new fields equal `BufferModel.ReadFd` of the old fields |
| Buffers.Buffer.WriteFd | src/Buffer.cpp:38-50 | Returns the write result, at most the readable count. A failure stores errno. Neither cursor moves |
| Channels.WithBits | include/Channel.h:28 | The given bits become set and every other bit of the mask is unchanged |
| Channels.WithoutBits | include/Channel.h:29 | The given bits become clear and every other bit of the mask is unchanged |
| Channels.EnableDisableWritingRestores | include/Channel.h:30-31 | On a mask without the OUT bit, enabling then disabling writing restores the mask |
| Channels.IsReadingMeansInOrPri | include/Channel.h:54-56 | Reading interest holds iff IN or PRI is set, since `kReadEvent` is IN or PRI |
| Channels.CloseFirstDispatch | src/Channel.cc:67-120 | The handlers `src/Channel.cc` runs for the conditions `Reported` reads off the mask. Close iff HUP is set without IN; error iff ERR; read iff IN or PRI; write iff OUT. Each needs its callback set and the tie guard passing (untied, or owner alive). They run in the order close, error, read, write, each at most once |
| Channels.ReadFirstDispatch | src/Channel.cpp:21-63 | The handlers `src/Channel.cpp` runs, under the same conditions and tie guard, in the order read, write, close, error |
| Channels.DraftsInvokeSameHandlers | src/Channel.cpp:38-63 | For every `revents`, callback set and tie state, both drafts run the same handlers, each once; they differ only in order |
| Channels.DraftsDisagreeOnErrorAndRead | src/Channel.cc:97-111 | With IN and ERR both set, `Channel.cc` runs error before read and `Channel.cpp` runs read before error |
| Channels.Channel.constructor | src/Channel.cc:12-20 | A new channel has events 0, revents 0, index -1 (kNew), is untied, has no callbacks and has sent no requests. The second draft, `src/Channel.cpp:7-15`, does the same |
| Channels.Channel.IsNoneEvent | include/Channel.h:34 | True iff the interest mask is 0 |
| Channels.Channel.IsWriting | include/Channel.h:35 | True iff the OUT bit is set |
| Channels.Channel.IsReading | include/Channel.h:36 | True iff IN or PRI is set |
| Channels.Channel.SetIndex | include/Channel.h:38-39 | Stores the registration state, and nothing else changes |
| Channels.Channel.SetRevents | include/Channel.h:26 | Stores the returned events, and nothing else changes |
| Channels.Channel.SetReadCallback | include/Channel.h:43 | Sets only the read callback |
| Channels.Channel.SetWriteCallback | include/Channel.h:44 | Sets only the write callback |
| Channels.Channel.SetCloseCallback | include/Channel.h:45 | Sets only the close callback |
| Channels.Channel.SetErrorCallback | include/Channel.h:46 | Sets only the error callback |
| Channels.Channel.Tie | src/Channel.cc:46-50 | Sets `tied`, and nothing else changes. The second draft, `src/Channel.cpp:67-71`, does the same |
| Channels.Channel.Update | src/Channel.cc:55-59 | Forwards exactly one update request with the current mask to the owning loop |
| Channels.Channel.Remove | src/Channel.cc:62-65 | Forwards exactly one remove request to the owning loop |
| Channels.Channel.EnableReading | include/Channel.h:28 | Sets IN and PRI, keeps the other bits, and issues exactly one update |
| Channels.Channel.DisableReading | include/Channel.h:29 | Clears IN and PRI, keeps the other bits, and issues exactly one update |
| Channels.Channel.EnableWriting | include/Channel.h:30 | Sets OUT, keeps the other bits, and issues exactly one update |
| Channels.Channel.DisableWriting | include/Channel.h:31 | Clears OUT, keeps the other bits, and issues exactly one update |
| Channels.Channel.DisableAll | include/Channel.h:32 | The mask becomes 0, so `isNoneEvent` holds, and exactly one update is issued |
| Channels.Channel.HandleEventCloseFirst | src/Channel.cc:67-82 | Runs exactly the handlers of `CloseFirstDispatch` for the stored revents, callbacks and tie |
| Channels.Channel.HandleEventReadFirst | src/Channel.cpp:21-36 | Runs exactly the handlers of `ReadFirstDispatch` for the stored revents, callbacks and tie |
| Registration.UpdateStepFor | src/EPollPoller.cc:63-96 | ADD iff the index is kNew or kDeleted; the map insert happens only for kNew; the index becomes kAdded. DEL iff kAdded with empty interest, and the index becomes kDeleted. MOD otherwise, with the index unchanged. The second draft, `src/EpollPoller.cpp:67-94`, does the same |
| Registration.RemoveOps | src/EPollPoller.cc:100-114 | Removal issues DEL iff the index was kAdded, and never ADD or MOD |
| Registration.CtlResult | src/EPollPoller.cc:128-149 | A failed `epoll_ctl` is fatal for ADD and MOD and only logged for DEL |
| Registration.NextCapacity | src/EPollPoller.cc:38-46 | The event array doubles exactly when the returned count equals its capacity, and is otherwise unchanged |
| Registration.CapacityIsSixteenTimesPowerOfTwo | include/EpollPoller.h:21 | Starting from 16, after any sequence of waits the capacity is 16 times a power of two, and so never below 16 |
| Registration.RegStepKeepsInv | src/EPollPoller.cc:63-114 | Each update or removal keeps the invariant: the index is kAdded iff the fd is in the kernel set, the map holds the fd iff the index is not kNew, and the ADD/MOD/DEL history is legal |
| Registration.IndexTracksKernel | src/EpollPoller.cpp:67-128 | From a fresh channel, after any sequence of updates and removals, the index agrees with kernel membership. The ctl history is legal: every ADD finds the fd absent, and every MOD or DEL finds it present |
| Registration.EnableThenDisableAllEndsDeleted | src/EPollPoller.cc:85-89 | New, then update with interest, then `disableAll` ends in kDeleted with the map entry kept, after exactly ADD then DEL |
| Pollers.LoggingDiffersOnlyOnEintr | src/EPollPoller.cc:51-58 | Every wait error `EPollPoller.cc` logs is also logged by `EpollPoller.cpp` (src/EpollPoller.cpp:50-53); they differ only on EINTR, which only the former swallows |
| Pollers.OpsForSnoc | src/EPollPoller.cc:128-149 | Appending one `epoll_ctl` call to the log extends the per-fd history by that call's operation exactly when the call is for that fd |
| Pollers.EPollPoller.constructor | src/EPollPoller.cc:13-22 | Empty map, empty ctl log, 16-entry event array; a failed `epoll_create1` is fatal. The second draft, `src/EpollPoller.cpp:15-24`, does the same |
| Pollers.EPollPoller.Ctl | src/EPollPoller.cc:128-149 | Appends exactly one (op, fd, mask) call to the log with the channel's current mask; its outcome is `CtlResult`. The second draft, `src/EpollPoller.cpp:96-113`, does the same |
| Pollers.EPollPoller.UpdateChannel | src/EPollPoller.cc:63-96 | Performs `UpdateStepFor` on the channel's index: the map insert, the new index and the one logged ADD, MOD or DEL. When the registration invariant (`RegInv`: index, map membership and kernel membership agree) held for the channel before, it holds afterwards. The second draft, `src/EpollPoller.cpp:67-94`, does the same |
| Pollers.EPollPoller.RemoveChannel | src/EPollPoller.cc:100-114 | Erases the fd from the map, logs DEL only when the index was kAdded, and always leaves the index kNew. Keeps the registration invariant `RegInv` for the channel. The second draft, `src/EpollPoller.cpp:115-128`, does the same |
| Pollers.EPollPoller.FillActiveChannels | src/EPollPoller.cc:117-125 | Appends exactly the first `numEvents` ready channels, in array order, each with `revents` set from its entry. The second draft, `src/EpollPoller.cpp:57-65`, does the same |
| Pollers.EPollPoller.Poll | src/EPollPoller.cc:29-60 | With events, the channels are filled in and capacity follows `NextCapacity`. A timeout adds nothing. A failed wait adds nothing and reports its errno. The second draft, `src/EpollPoller.cpp:31-55`, does the same |
| EventLoops.QuietTasksDrainAtOnce | src/EventLoop.cpp:82-98 | When no queued task queues another, any number of drains (at least one) runs exactly the queue, in enqueue order, and leaves nothing pending |
| EventLoops.ExecutedInSnoc | src/EventLoop.cpp:54-65 | After `n + 1` drains, the run tasks are those after `n` drains followed by the queue as it stood after drain `n` |
| EventLoops.PendingAfterSnoc | src/EventLoop.cpp:54-65 | The queue after `n + 1` drains is what the tasks of drain `n + 1` queued |
| EventLoops.EventLoop.constructor | src/EventLoop.cpp:24-37 | Nothing queued, every flag false, and the wakeup channel has a read callback and is registered for reading with one update. The fatal log is written exactly when eventfd returned a negative fd (`createEventfd`, `src/EventLoop.cpp:13-22`) |
| EventLoops.EventLoop.Destroy | src/EventLoop.cpp:39-44 | The wakeup channel loses all interest, is then removed (update before remove), and its fd is closed |
| EventLoops.EventLoop.Wakeup | src/EventLoop.cpp:128-137 | Counts exactly one wakeup |
| EventLoops.EventLoop.QueueInLoop | src/EventLoop.cpp:113-124 | Appends the task at the tail, and wakes the loop iff the caller is not the owner thread or a drain is in progress |
| EventLoops.EventLoop.RunInLoop | src/EventLoop.cpp:100-111 | From the owner thread, runs the task at once and leaves the queue and wakeups untouched. From any other thread, behaves exactly like `QueueInLoop` |
| EventLoops.EventLoop.Quit | src/EventLoop.cpp:69-80 | Sets `quit`, and wakes the loop only when called from a non-owner thread |
| EventLoops.EventLoop.DoPendingFunctors | src/EventLoop.cpp:82-98 | Runs the whole old queue in order and leaves pending only what those tasks queued, one wakeup each. `callingPendingFunctors` is false afterwards |
| EventLoops.EventLoop.Iterate | src/EventLoop.cpp:54-65 | One iteration replaces the active list with the polled channels, dispatches them in returned order, then drains |
| EventLoops.EventLoop.Turn | src/EventLoop.cpp:54-65 | One iteration extends the logs from n rounds to n + 1: the round's channels are handled after the earlier ones, one more drain runs, and quit is set iff the round asks for it |
| EventLoops.EventLoop.Loop | src/EventLoop.cpp:46-67 | Rounds run until the first one that requests quit, and no earlier round requests it. Channels are handled in round order and tasks run in drain order. On stopping, `quit` holds and `looping` is false |
| ConnectionModel.AtMostOneCrossing | reference/src/TcpConnection.cc:136-145 | Over any run of appends to the output buffer the high-water callback fires at most once, and never when the buffer already held the mark |
| ConnectionModel.ReferenceSendPlan | reference/src/TcpConnection.cc:86-152 | The write is attempted iff write interest is off and nothing is pending. EPIPE/ECONNRESET is a fault: nothing buffered, interest unchanged, no callback. Otherwise written bytes followed by buffered bytes are the message. Write-complete is queued iff a full write happened with the callback set. High water is queued iff the buffer crosses the mark, with value old length + remaining. Writing is enabled iff something is buffered and it was off |
| ConnectionModel.DraftSendPlan | src/TcpConnnection.cpp:68-128 | Proceeds iff not kDisconnected. When it attempts the write, it acts as the reference. When write interest is on or output is pending, it writes nothing, buffers nothing and queues nothing |
| ConnectionModel.DraftDropsMessageWhilePending | src/TcpConnnection.cpp:81-126 | While output is pending on a connected draft connection, a non-empty message is neither written nor buffered, and the reference buffers all of it |
| ConnectionModel.SendKeepsStreamOrder | reference/src/TcpConnection.cc:97-151 | If the wire followed by the pending output was everything accepted, then after a send the wire followed by pending output is that plus the message, unless the write faulted. No byte is reordered, dropped or duplicated |
| ConnectionModel.QueuedBySend | reference/src/TcpConnection.cc:106-145 | A send queues at most the write-complete task and then the high-water task with its value |
| ConnectionModel.ReferenceTransition | reference/src/TcpConnection.cc:154-263 | Establishing connects. Shutdown moves kConnected to kDisconnecting and leaves other states alone. Peer close disconnects. Destroy disconnects only from kConnected |
| ConnectionModel.DraftTransition | src/TcpConnnection.cpp:130-224 | In the draft, establishing connects, shutdown and peer close leave the state unchanged, and destroy disconnects only from kConnected |
| ConnectionModel.DraftNeverDisconnecting | src/TcpConnnection.cpp:130-139 | A draft connection never reaches kDisconnecting, so the deferred-shutdown branch of its `handleWrite` is unreachable |
| ConnectionModel.ReferenceShutdownDisconnects | reference/src/TcpConnection.cc:154-162 | Establish then shutdown ends in kDisconnecting in the reference and kConnected in the draft |
| ConnectionModel.PeerCloseDisconnectsOnlyInReference | src/TcpConnnection.cpp:216-224 | After a peer close the reference is never connected; the draft is connected exactly when it was before |
| ConnectionModel.ReferenceDisconnectedIsSticky | reference/src/TcpConnection.cc:154-195 | Once kDisconnected, a reference connection stays kDisconnected under every sequence of operations without a new establish |
| ReferenceConnections.TcpConnection.constructor | reference/src/TcpConnection.cc:27-54 | kConnecting, a 64 MiB high-water mark, a fresh channel on the socket fd with all four callbacks, and two distinct fresh buffers |
| ReferenceConnections.TcpConnection.Connected | include/TcpConnection.h:37 | True iff the state is kConnected |
| ReferenceConnections.TcpConnection.SetWriteCompleteCallback | include/TcpConnection.h:43 | Sets only the write-complete callback |
| ReferenceConnections.TcpConnection.SetHighWaterMarkCallback | include/TcpConnection.h:44-48 | Sets the high-water callback and the mark together |
| ReferenceConnections.TcpConnection.DirectWrite | reference/src/TcpConnection.cc:100-125 | Writes the bytes `ReferenceSendPlan` writes, reports its fault, and queues write-complete exactly when the plan does |
| ReferenceConnections.TcpConnection.BufferTail | reference/src/TcpConnection.cc:136-150 | Appends the tail to the output buffer, so the pending output grows by exactly the tail. Queues the high-water task iff the append crosses the mark, and enables writing iff it was off |
| ReferenceConnections.TcpConnection.BufferRemainder | reference/src/TcpConnection.cc:133-151 | After the direct write, buffers exactly the plan's unsent tail unless the write faulted; the pending output grows by exactly those bytes |
| ReferenceConnections.TcpConnection.SendInLoop | reference/src/TcpConnection.cc:86-152 | The output buffer, channel interest, queued tasks and wire follow `ReferenceSendPlan`, and the stream invariant (wire followed by pending output equals accepted bytes) is preserved |
| ReferenceConnections.TcpConnection.Send | reference/src/TcpConnection.cc:61-81 | Does nothing unless kConnected. On the loop thread it sends in place. Otherwise it queues one send task holding the message |
| ReferenceConnections.TcpConnection.ShutdownInLoop | reference/src/TcpConnection.cc:164-173 | Half-closes the socket iff write interest is off |
| ReferenceConnections.TcpConnection.Shutdown | reference/src/TcpConnection.cc:154-162 | Only from kConnected: moves to kDisconnecting and runs or queues `shutdownInLoop`. Otherwise nothing changes |
| ReferenceConnections.TcpConnection.ConnectEstablished | reference/src/TcpConnection.cc:176-184 | kConnected, the channel is tied and reading, and the connection callback sees kConnected |
| ReferenceConnections.TcpConnection.ConnectDestroyed | reference/src/TcpConnection.cc:186-195 | From kConnected: kDisconnected, all interest dropped, the callback notified. Either way the channel is removed |
| ReferenceConnections.TcpConnection.HandleClose | reference/src/TcpConnection.cc:254-263 | kDisconnected, all interest dropped, then the connection callback, then the close callback |
| ReferenceConnections.TcpConnection.HandleRead | reference/src/TcpConnection.cc:198-217 | The input buffer takes the read as `BufferModel.ReadFd` says. Data goes to the message callback. End of file closes as `HandleClose` does. An error changes nothing else |
| ReferenceConnections.TcpConnection.HandleWrite | reference/src/TcpConnection.cc:219-252 | When writing and the write took bytes, exactly those bytes leave the output buffer for the wire. If that empties the buffer: writing is disabled, write-complete is queued, and a kDisconnecting connection half-closes. Otherwise nothing changes. The stream invariant is preserved |
| DraftConnections.TcpConnection.constructor | src/TcpConnnection.cpp:15-44 | kConnecting, a 64 MiB high-water mark, a fresh channel on the socket fd with all four callbacks, and two distinct fresh buffers |
| DraftConnections.TcpConnection.Connected | include/TcpConnection.h:37 | True iff the state is kConnected |
| DraftConnections.TcpConnection.SetWriteCompleteCallback | include/TcpConnection.h:43 | Sets only the write-complete callback |
| DraftConnections.TcpConnection.SetHighWaterMarkCallback | include/TcpConnection.h:44-48 | Sets the high-water callback and the mark together |
| DraftConnections.TcpConnection.WriteDirectly | src/TcpConnnection.cpp:81-105 | Writes the bytes `DraftSendPlan` writes, reports its fault, and queues write-complete exactly when the plan does |
| DraftConnections.TcpConnection.BufferTail | src/TcpConnnection.cpp:109-124 | Appends the tail to the output buffer, so the pending output grows by exactly the tail. Queues the high-water task iff the append crosses the mark, and enables writing iff it was off |
| DraftConnections.TcpConnection.BufferRemainder | src/TcpConnnection.cpp:107-125 | Inside the direct-write branch, buffers exactly the unsent tail unless the write faulted, with the same high-water rule; the pending output grows by exactly those bytes |
| DraftConnections.TcpConnection.SendAttempted | src/TcpConnnection.cpp:81-125 | With write interest off and nothing pending, the output buffer, interest, queued tasks and wire follow `DraftSendPlan`, and the stream invariant is preserved |
| DraftConnections.TcpConnection.SendInLoop | src/TcpConnnection.cpp:68-128 | The output buffer, interest, queued tasks and wire follow `DraftSendPlan`. It returns at once when kDisconnected, and drops the message when output is pending |
| DraftConnections.TcpConnection.Send | src/TcpConnnection.cpp:51-66 | Does nothing unless kConnected. On the loop thread it sends in place. Otherwise it queues one send task holding the message |
| DraftConnections.TcpConnection.ShutdownInLoop | src/TcpConnnection.cpp:141-147 | Half-closes the socket iff write interest is off |
| DraftConnections.TcpConnection.Shutdown | src/TcpConnnection.cpp:130-139 | Only from kConnected: keeps kConnected, as written, and runs or queues `shutdownInLoop` |
| DraftConnections.TcpConnection.ConnectionEstablished | src/TcpConnnection.cpp:149-155 | kConnected and reading, without a tie, and the connection callback sees kConnected |
| DraftConnections.TcpConnection.ConnectionDestroyed | src/TcpConnnection.cpp:157-167 | From kConnected: kDisconnected, all interest dropped, the callback notified. Either way the channel is removed |
| DraftConnections.TcpConnection.HandleClose | src/TcpConnnection.cpp:216-224 | Drops all interest and calls only the close callback. The state is unchanged |
| DraftConnections.TcpConnection.HandleRead | src/TcpConnnection.cpp:169-187 | The input buffer takes the read as `BufferModel.ReadFd` says. Data goes to the message callback. End of file runs the draft's close. An error changes nothing else |
| DraftConnections.TcpConnection.HandleWrite | src/TcpConnnection.cpp:189-214 | When writing and the write took bytes, exactly those leave the output buffer. If that empties the buffer, writing is disabled and write-complete is queued. A non-positive result changes nothing |
| TcpServers.Decimal | src/TcpServer.cpp:67 | `%d` of a non-negative id: at least one digit, all digits, and no leading zero |
| TcpServers.DecimalRoundTrip | src/TcpServer.cpp:67 | Reading the digits back gives the id |
| TcpServers.DecimalInjective | src/TcpServer.cpp:67 | Distinct ids print differently |
| TcpServers.Truncated | src/TcpServer.cpp:66-67 | `snprintf` into 32 bytes keeps a prefix: the whole suffix when shorter than 32, else its first 31 characters |
| TcpServers.ConnName | src/TcpServer.cpp:66-69 | The name is the server name, `-`, ipPort, `#` and the id while that suffix fits, and never exceeds the server name plus 31 characters |
| TcpServers.SuffixDetermined | src/TcpServer.cpp:67 | The untruncated suffix determines the id |
| TcpServers.FullConnNamesDistinct | src/TcpServer.cpp:66-69 | Untruncated names of distinct ids differ |
| TcpServers.ConnNamesDistinctWhileTheyFit | src/TcpServer.cpp:66-69 | Successive connections get distinct names while the suffix fits the 32-byte buffer |
| TcpServers.TruncatedNamesCollide | src/TcpServer.cpp:66-69 | With ipPort `255.255.255.255:65535`, ids 100000000 and 100000001 get the same truncated name although their full names differ |
| TcpServers.DestroyTasksOnlyFor | src/TcpServer.cpp:32-43 | The destructor sends each loop only `connectDestroyed` tasks, for registered connections living on that loop |
| TcpServers.DestroyOne | src/TcpServer.cpp:34-42 | One iteration hands `connectDestroyed` to the connection's own loop: it runs at once on the current loop, and is queued with a wakeup elsewhere |
| TcpServers.DestroyAll | src/TcpServer.cpp:32-43 | The whole destructor loop: each loop receives exactly the `connectDestroyed` tasks of `DestroyTasksFor`, in iteration order, queued (with one wakeup each) or run at once on the current loop. When no name repeats in the order, each connection's loop gets exactly one task for it |
| TcpServers.TcpServer.constructor | src/TcpServer.cpp:12-30 | Empty registry, next id 1, not started, 0 threads |
| TcpServers.TcpServer.SetWriteCompleteCallback | include/TcpServer.h:32 | Stores the write-complete callback handed to new connections |
| TcpServers.TcpServer.SetThreadNum | include/TcpServer.h:35 | Stores the thread count |
| TcpServers.TcpServer.Start | src/TcpServer.cpp:52-61 | Idempotent. Only the first call starts the pool and runs or queues `listen`; later calls change nothing else. The pool is started exactly once. On the first call the base loop gains one wakeup when `listen` is queued from another thread and none when it runs at once |
| TcpServers.TcpServer.NewConnection | src/TcpServer.cpp:63-104 | The new connection is named `ConnName` of the old counter, on the given loop and fd. The counter advances by one. The registry gains exactly that entry. The write-complete callback is copied. `connectionEstablished` runs or is queued on the connection's loop, with one wakeup of that loop exactly when it is queued |
| TcpServers.TcpServer.RemoveConnectionInLoop | src/TcpServer.cpp:113-125 | Erases exactly that connection's name, so no entry refers to it, and queues `connectDestroyed` on its loop |
| TcpServers.TcpServer.RemoveConnection | src/TcpServer.cpp:106-111 | Runs `removeConnectionInLoop` at once on the server's loop thread (the registry drops the name, and the connection's loop queues `connectDestroyed` with the wakeup `queueInLoop` decides), or queues it there with one wakeup. A connection loop other than the server's loop is untouched when the task is queued, and the server's loop is untouched when it runs at once |
| TcpServers.TcpServer.Destroy | src/TcpServer.cpp:32-43 | Every registered connection's loop receives its `connectDestroyed` as `DestroyAll` states, exactly once per registered connection, and the registry ends empty |
| TcpServers.DestroyTasksEveryOnce | src/TcpServer.cpp:32-43 | With no repeated name in the iteration order, the tasks sent to a registered connection's loop hold its `connectDestroyed` exactly once if the connection is iterated over, and not at all otherwise |

## Left out

- System calls are inputs. These are `epoll_create1`, `epoll_wait`, `epoll_ctl`, `readv`, `write`, `shutdown` and the eventfd read and write in `src/EventLoop.cpp:128-148`. Only their issuance is logged; eventfd `handleRead` is not modelled.
- Sockets, the acceptor and addresses are thin wrappers over the socket API, with no logic to state. `src/Socket.cpp`, `src/Acceptor.cpp` and `src/InetAddress.cpp` are not part of this model.
- Threads, the mutex around the task queue, and thread ids are not modelled. Which thread calls is a boolean parameter, and operations are sequential.
- `sendFile`/`sendFileInLoop` are not modelled; they are a `sendfile` call and a self-requeueing loop.
- `handleError` only logs `SO_ERROR`, so it is not modelled.
- `shared_ptr`/`weak_ptr` lifetimes become the `ownerAlive` flag of the tie guard.
- Timestamps and logging output are not modelled. Logging decisions that matter are predicates: the fatal or logged `epoll_ctl` failure, and the logged wait error.
- `EventLoopThreadPool` is not part of this model. `getNextLoop` is the `ioLoop` argument of `NewConnection`.
- `Poller::newDefaultPoller` is not part of this model. The channel records its update and remove requests instead of calling into a poller.
- Integer widths are unbounded. The buffer's `int` cursors `readIndex_`/`writeIndex_` and the `int` results of `readFd`/`writeFd` are unbounded integers, so a buffer holding more than INT_MAX bytes is not modelled. The `int` masks are widened to 32 bits. The `int` connection counter `nextConnId_` is modelled without its overflow after 2^31 - 1 connections.
- DraftConnections.TcpConnection.BufferTail: the draft passes the high-water value through `int len = oldlen + remaining` (`src/TcpConnnection.cpp:114`); the model queues `oldLen` plus the tail's length without that narrowing to `int`, since buffers past INT_MAX bytes are not modelled.
- The second connection draft never initialises `loop_` (declared at `include/TcpConnection.h:72`, missing from the initializer list at `src/TcpConnnection.cpp:15-28`), so `send`, `shutdown`, `sendInLoop` and the server's `getLoop()` calls read an indeterminate pointer. The model cannot represent an indeterminate pointer; it passes the constructor's loop argument as the connection's loop, which is the evident intent.
- The two poller drafts share one class. The one behavioural difference is wait-error logging, which is the pair of predicates in `LoggingDiffersOnlyOnEintr`.
- The reference connection's `reading_` field is not modelled, since no modelled operation reads it.
- Callback contents are not modelled. A set callback is a flag, and its invocation is a `Notice`; the close callback's wiring to `removeConnection` is a call the owner makes to `TcpServer.RemoveConnection`.
- The server is modelled against the draft connection class, whose constructor argument order and `connectionEstablished` name it uses.
- EventLoops.EventLoop.Loop: the number of poll rounds is bounded by the sequence of rounds given. Channel handlers run during a round are recorded, not executed, so they queue no tasks.
- EventLoops.EventLoop.RunInLoop: a task run at once is appended to `executed`; its effect is applied by the caller (for example `NewConnection` calls `ConnectionEstablished`).
- Channels.Channel.HandleEventCloseFirst: returns the handlers it runs, in order, rather than running them; the connection handlers are separate methods.
- Channels.Channel.HandleEventReadFirst: returns the handlers it runs, in order, rather than running them.
- TcpServers.TcpServer.Destroy: a `connectDestroyed` run at once on the current loop is recorded in `executed`, but its effect on the connection is not applied. The caller also passes the iteration order as a sorted list of the registry's names.

## Findings

| source | as written | input that shows it | evidently intended | confidence | as-written member | corrected member |
|---|---|---|---|---|---|---|
| src/TcpConnnection.cpp:81-126 | The buffering block is nested in the direct-write branch, so a message sent while output is pending is neither written nor buffered | Connected, output buffer holding 1 byte, `send("x")`: "x" is lost and the peer never receives it | Buffer the whole message behind the pending bytes, as `reference/src/TcpConnection.cc:133-151` does | high, not executed | ConnectionModel.DraftDropsMessageWhilePending | ReferenceConnections.TcpConnection.SendInLoop |
| src/TcpConnnection.cpp:134 | `shutdown` stores kConnected, so the state never becomes kDisconnecting and a shutdown with output pending never half-closes after the drain | Establish, then `shutdown()`: the state is still kConnected | Store kDisconnecting | high, not executed | ConnectionModel.DraftNeverDisconnecting | ConnectionModel.ReferenceShutdownDisconnects |
| src/TcpConnnection.cpp:216-224 | `handleClose` leaves the state unchanged, so `connected()` still holds after the peer closed | Connected, peer close: `connected()` is true | Set kDisconnected before the callbacks, as `reference/src/TcpConnection.cc:254-263` does | medium, not executed | ConnectionModel.PeerCloseDisconnectsOnlyInReference | ReferenceConnections.TcpConnection.HandleClose |
