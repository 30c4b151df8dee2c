# Inter-Component Communication: a verified model of its queues

The library moves work between components through FIFO queues. This project models the parts
where work could be lost, duplicated, reordered or left waiting, and proves that it is not, or
exactly when it is.

- **Command loops** (`CommandTypes`, `LoopMachine`, `LoopFrame`, `LoopInvariant`, `LoopSteps`,
  `LoopTheorems`, `LoopOrder`, `LoopComplete`, `LoopRepush`, `LoopQueuedPush`, `LoopLatePush`,
  `LoopRuns`, `CommandContext`, `SingleCommand`).
  A finite tree of nested command loops and leaves shares one context. `LoopMachine` gives each
  operation as a function on command identities, `CommandContext.Commands` is the imperative form
  with the same fields and loops, and the theorems speak about every run: any order of deliveries,
  leaf finishes and pushes, from the context's thread or from others.
- **The queue, the thread pool and the context loop** (`ThreadSafeQueue`, `WorkerPool`,
  `ContextLoop`). The linked list is a class over heap nodes. The concurrent use is a step system:
  what happens while the mutex is held is one step, and each thread has a program counter.
- **Sockets** (`SendQueue`, `SendPlatforms`, `PosixSend`, `ReceiveQueue`, `ReceivePlatforms`,
  `PosixReceive`, `Sockets`). The operating system is an arbitrary script of answers. The classes in
  `Sockets` carry the handlers of both platforms; the Posix one keeps its progress in a variable that
  all sockets share.
- **Local bus and attributes** (`LocalBus`, `Attribute`). Clients learn about services and values
  only through their own queues; the theorems say what they know once their queue is drained.

Terms: a run is *legal* when every action is enabled where it is taken; a *history* field
(`accepted`, `started`, `handled`, `pushed`, `taken`, `calls`, `done`, `settled`, `notified`)
records what happened and is never read by the operations.

## What the code does differently from what its names and comments suggest

- A `pushBack` that was queued before its loop finished still lands in the deque of the finished
  loop, because the queued action does not look at the channel: that deque grows by exactly the
  pushes that were queued (`LoopLatePush.LatePushesAreParked`), and what lands there is never started
  (`LoopRuns.LatePushIsNeverStarted` is such a run).
- `stop` and `suspend` never notify the listeners, although their default hooks call `finished`
  (`SingleCommand.WhoNotifies`).
- A command that its loop has processed and is pushed again never leaves the deque. Among
  loops that are not Continuous, the loop then never ends successfully, and without Transaction it
  never ends exactly then (`LoopRepush.RepushIsHarmlessIffNotHandled`, and
  `LoopQueuedPush.QueuedRepushIsHarmlessIffNotHandled` for a push from another thread); a
  single-command loop stands still for good once it has come to that command
  (`LoopRepush.RepushedCommandBlocks`), as in the run of `LoopRuns.RepushStalls`.
- With a positive multiple of 2^32 queued items the counter reads 0, and a worker that was woken for them
  goes back to sleep (`WorkerPool.WrapLosesWakeup`); that is the only way to lose a wake-up
  (`WorkerPool.NoLostWakeup`), and shutdown still reaches such a worker (`WorkerPool.NobodyLeftBehind`).
- Under UntilWorkers the loop leaves when its last channel is dropped (`ContextLoop.LastChannelEndsTheLoop`),
  except at one place: dropped right before the queue is reset, the interrupt is cleared unseen, and an
  idle loop sleeps for good (`ContextLoop.ResetMissesTheLastChannel`).
- With blocking sockets the static offset of the Posix send handler leaks from one socket into the
  next one unless every write takes a whole chunk (`PosixSend.UndisturbedIffWholeWrites`). The next
  socket then reports success for bytes it never sent or, if its front chunk is shorter than the
  leaked offset, computes `size() - kDataOffset` below zero in `size_t` and sends from beyond the
  chunk (`PosixSend.BlockingSocketsInterfere`, third part; `overrun` in `Sockets.PosixSockets`).
- On Windows a failed call whose length output is 0 is read as "would block"; the handlers of the two
  platforms differ exactly when they meet one (`PosixSend.HandlersAgree`, `ReceivePlatforms.HandlersAgree`),
  as in `SendPlatforms.FailureReadAsFull` and `ReceivePlatforms.FailureReadAsDry`.
- A bus client that is disassembled while connected and built again after the service left is never
  told (`LocalBus.RebuildMissesDisconnect`); `LocalBus.BuildAgreesIffClean` gives the exact condition,
  and for clients with threads of their own it is exactly the build for a free key that was left while a
  service was held for it (`LocalBus.ConvergesIffNoStaleBuild`).
- A registration under a taken name announces a service that `getService` does not return
  (`LocalBus.AnnouncedIsHeld`).
- A subscriber to an attribute sees the newest value before values that led to it exactly when the
  attribute changed at least twice before its first read was taken (`Attribute.ReadOvertakesAfterTwoChanges`,
  `Attribute.ReadOvertakesValues`).

## Model

| member | source | states |
|---|---|---|
| CommandTypes.ModeRoundTrip | src/icc/command/LoopMode.hpp:19-54 | the mode bits decode to what was encoded, and `operator \|` sets exactly the flags of its operands |
| SingleCommand.FiresExactlyOnce | src/icc/command/ICommand.hpp:67-114 | over any interleaving of start, suspend, resume, stop and finish, FINISHED is absorbing and exactly one event is fired, on reaching it |
| SingleCommand.WhoNotifies | src/icc/command/ICommand.hpp:186-191 | exactly which operation in which state fires the event, and with which result; a suspend or stop never does |
| SingleCommand.WhereOperationsLead | src/icc/command/ICommand.hpp:67-114 | a command is SUSPENDED exactly from a suspend to the next resume, and INACTIVE exactly until a start, or from a stop to the next start |
| SingleCommand.ResumeUndoesSuspend | src/icc/command/ICommand.hpp:77-105 | whatever else is called between a suspend and a resume, or a stop and a start, changes nothing, and the pair leaves the command as it was |
| SingleCommand.Command.Run | src/icc/command/ICommand.hpp:67-114 | each operation is one compare-and-swap and its hook; it throws exactly outside its expected state and then changes nothing |
| SingleCommand.Command.FinishedWith | src/icc/command/ICommand.hpp:186-191 | `finished` fires once, only from ACTIVE |
| LoopMachine.OneDeliveryPerListener | src/icc/Event.hpp:166-189 | a fired event becomes exactly one message per subscription whose channel is open, in the order of the subscriptions |
| LoopFrame.NextFrame | src/icc/command/CommandLoop.cpp:95-122 | `nextCommand` either ends its loop or only starts commands: whatever was started before stays as it is, and new messages are about commands that were not |
| LoopInvariant.PreparedKeeps | src/icc/command/CommandLoop.cpp:98-104 | subscribing to a command and starting it keeps the invariant and unsettles no other loop |
| LoopInvariant.FinishKeeps | src/icc/command/CommandLoop.cpp:144-162 | finishing a leaf or a loop for a valid reason keeps the invariant, posts exactly one notice to an open owner, and uses up the measure |
| LoopInvariant.BeginKeeps | src/icc/command/ICommand.hpp:67-75 | a nested start keeps the invariant, changes no lower-numbered command, and leaves the started command under way |
| LoopInvariant.NextKeeps | src/icc/command/CommandLoop.cpp:95-122 | `nextCommand` settles its loop: it starts what must start or finishes the loop, and every other loop stays settled |
| LoopInvariant.LaunchAllKeeps | src/icc/command/CommandLoop.cpp:105-114 | the MultiCommand branch leaves no command of the deque INACTIVE and the deque itself as it was |
| LoopInvariant.UntroubledKept | src/icc/command/CommandLoop.cpp:134-137 | starting commands cannot turn a processed success into a failure |
| LoopSteps.EraseKeeps | src/icc/command/CommandLoop.cpp:124-133 | processing a finish moves exactly that command from the deque to the processed ones, once |
| LoopSteps.ProceedKeeps | src/icc/command/CommandLoop.cpp:134-140 | after a processed finish the loop either closes as FAILED (transaction) or goes on, and in both cases is settled |
| LoopSteps.PushKeeps | src/icc/command/CommandLoop.cpp:80-93 | a fresh push keeps the invariant and sticks no loop, on any thread and in any mode |
| LoopSteps.StartRootKeeps | src/icc/command/CommandLoop.cpp:18-22 | starting the root, inline or through the queue, keeps the invariant |
| LoopSteps.StepKeeps | src/icc/command/CommandLoop.cpp:80-162 | every step of a run keeps the invariant, leaves no loop stuck and, unless it offers a new command, lowers the measure |
| LoopTheorems.RunKeeps | src/icc/command/CommandLoop.cpp:80-162 | the invariant holds in every reachable state; steps plus remaining measure never exceed the initial measure plus twice the offers |
| LoopTheorems.Termination | src/icc/command/CommandLoop.cpp:95-162 | every run of a finite tree is finite: n commands and k offers allow at most 4n + 2k steps |
| LoopTheorems.NoStall | src/icc/command/CommandLoop.cpp:80-142 | an ACTIVE non-Continuous loop has a queued message of its own or an ACTIVE child; with MultiCommand every command of a begun loop is started |
| LoopTheorems.FinishedResult | src/icc/command/CommandLoop.cpp:115-142 | a finished command has the result of the recursive evaluator |
| LoopTheorems.QuietFinished | src/icc/command/CommandLoop.cpp:95-149 | when nothing is queued and no leaf is under way, every started command is FINISHED |
| LoopTheorems.RunsComputeEval | src/icc/command/CommandLoop.cpp:95-149 | evaluator refinement: whatever the interleaving, finished commands have the evaluator's result, and a complete run ends with the root FINISHED with it |
| LoopTheorems.FullStays | src/icc/command/CommandLoop.cpp:80-93 | once every command was accepted by its owner, it stays so over every continuation |
| LoopTheorems.EvalOfFull | src/icc/command/CommandLoop.cpp:134-140 | over a fully accepted tree the evaluator is the one on the tree itself |
| LoopTheorems.ResultIsDetermined | src/icc/command/CommandLoop.cpp:95-149 | the result of a complete run depends neither on single or MultiCommand mode nor on any ordering |
| LoopTheorems.SingleCommandIsSequential | src/icc/command/CommandLoop.cpp:80-142 | without MultiCommand, starts and processed finishes follow the order of acceptance and only the front of the deque can be ACTIVE |
| LoopOrder.StartsFollowAcceptance | src/icc/command/CommandLoop.cpp:95-122 | in every reachable state and either mode a loop has started a prefix of the commands it accepted, in that order; while it is open its deque is that order without the processed ones |
| LoopOrder.LeavesFinishByThemselves | src/icc/command/ICommand.hpp:67-75 | over every run a leaf that finishes inside its start is never ACTIVE between steps, and any other one is FINISHED only by a step of its own |
| LoopOrder.OffThreadOnlyPosts | src/icc/Context.hpp:148-159 | calls from other threads only post: until the context takes a message no loop accepts, starts, processes or ends, what is queued stays, every call adds at most one message, and every push and start to an open loop is queued |
| LoopOrder.ClosingEmptiesTheDeque | src/icc/command/CommandLoop.cpp:144-162 | whichever step closes a loop leaves its deque empty |
| LoopTheorems.FinishesOnce | src/icc/command/CommandLoop.cpp:98-113 | a started command has its owner as only listener; its finish is queued and processed at most once |
| LoopTheorems.FinishedIsClosed | src/icc/Component.hpp:130-172 | a finished loop starts, accepts and processes nothing any more, over every continuation of the run |
| LoopTheorems.FinishedNeverStarts | src/icc/Component.hpp:130-172 | a command its finished loop has not started stays INACTIVE over every continuation |
| LoopLatePush.LatePushesAreParked | src/icc/command/CommandLoop.cpp:80-93 | a loop closes with an empty deque, which over every continuation grows by exactly the pushes queued for it, in order |
| LoopRuns.LatePushIsNeverStarted | src/icc/command/CommandLoop.cpp:80-93 | a reachable state with a finished loop and a push still queued for it; over every continuation that command is in the closed deque or on its way there, and never started |
| LoopRepush.RepushedCommandBlocks | src/icc/command/CommandLoop.cpp:95-104 | once a command that was processed and pushed again is at the front of a single-command loop, over every continuation it stays there and the loop stays ACTIVE, idle and starts nothing |
| LoopRepush.RepushIsHarmlessIffNotHandled | src/icc/command/CommandLoop.cpp:80-142 | after a second push on the context's thread every run that comes to rest has finished the loop, and there is one, exactly if the command was not processed before; otherwise no run ends it successfully |
| LoopQueuedPush.QueuedRepushIsHarmlessIffNotHandled | src/icc/command/CommandLoop.cpp:80-142 | a second push from another thread changes nothing until it is taken, and is then harmless exactly if the command has not been processed by that time |
| LoopComplete.ComesToRest | src/icc/Context.hpp:203-211 | from every state that keeps the invariant some run without offers, no longer than the measure, leads to a state with nothing left to happen |
| LoopComplete.EveryTaskHasOneResult | src/icc/command/CommandLoop.cpp:80-149 | every finite tree without Continuous loops has complete runs, and all complete runs of the task finish the root with the evaluator's result |
| LoopRuns.RepushStalls | src/icc/command/CommandLoop.cpp:95-104 | such a run of a plain loop over two leaves: nothing is left to happen and the loop is ACTIVE |
| LoopTheorems.Progress | src/icc/Context.hpp:203-211 | a run that is not quiet can go on without new offers |
| LoopFrame.LaunchFrame | src/icc/command/CommandLoop.cpp:106-113 | starting a command leaves the deque that is being iterated, and everything started before, as it is |
| CommandContext.Commands.Fire | src/icc/Event.hpp:166-189 | the firing loop posts exactly the deliveries of the event, in order |
| CommandContext.Commands.CommandFinished | src/icc/command/ICommand.hpp:186-191 | the state change and the posts of a finish |
| CommandContext.Commands.ExitLoop | src/icc/command/CommandLoop.cpp:155-162 | the deque is emptied and the channel dropped, once |
| CommandContext.Commands.LoopFinished | src/icc/command/CommandLoop.cpp:144-149 | a loop finishes only while it has its channel |
| CommandContext.Commands.StartCommand | src/icc/command/ICommand.hpp:67-75 | a start succeeds exactly from INACTIVE and then runs the whole nested start |
| CommandContext.Commands.NextCommand | src/icc/command/CommandLoop.cpp:95-122 | computes `LoopMachine.Next`, the function the theorems are about |
| CommandContext.Commands.StartAll | src/icc/command/CommandLoop.cpp:105-114 | the iteration over the live deque starts every INACTIVE command in deque order |
| CommandContext.Commands.ProcessFinish | src/icc/command/CommandLoop.cpp:124-142 | computes `LoopMachine.ProcessEvent`; a no-op once the channel is gone |
| CommandContext.Commands.PushBackAction | src/icc/command/CommandLoop.cpp:80-93 | computes `LoopMachine.PushBack`, duplicates included |
| CommandContext.Commands.PushBackCommand | src/icc/command/CommandLoop.cpp:80-93 | inline on the context's thread, queued otherwise, dropped without a channel; any command, fresh or not |
| CommandContext.Commands.StartRootCommand | src/icc/command/CommandLoop.cpp:18-22 | starts the root inline or queues its start |
| CommandContext.Commands.RunOne | src/icc/Context.hpp:203-211 | the context takes one action and runs it: the delivery step of the machine |
| ThreadSafeQueue.Queue.constructor | src/icc/_private/containers/ThreadSafeQueue.hpp:29-29 | an empty queue with no node allocated |
| ThreadSafeQueue.Queue.LinkBack | src/icc/_private/containers/ThreadSafeQueue.hpp:56-64 | a node is hung on the back; the chain stays acyclic with the back last |
| ThreadSafeQueue.Queue.TryPush | src/icc/_private/containers/ThreadSafeQueue.hpp:43-68 | appends one item in one fresh node and reclaims none |
| ThreadSafeQueue.Queue.UnlinkFront | src/icc/_private/containers/ThreadSafeQueue.hpp:156-173 | unlinks exactly the front node; both ends are null exactly when the chain is empty |
| ThreadSafeQueue.Queue.ReclaimNode | src/icc/_private/containers/ThreadSafeQueue.hpp:175-179 | a node is given back once, out of the chain |
| ThreadSafeQueue.Queue.TryPop | src/icc/_private/containers/ThreadSafeQueue.hpp:81-93 | removes and returns the first item, reclaiming its node, or nothing from an empty queue |
| ThreadSafeQueue.Queue.Drain | src/icc/_private/containers/ThreadSafeQueue.hpp:31-34 | the destructor gives back every node ever allocated |
| ThreadSafeQueue.Queue.Empty | src/icc/_private/containers/ThreadSafeQueue.hpp:148-150 | the counter agrees with the front link exactly unless the chain holds a positive multiple of 2^32 nodes |
| WorkerPool.StepConserves | src/icc/_private/containers/ThreadSafeQueue.hpp:55-126 | every step keeps tasks with exactly one holder |
| WorkerPool.TasksAreConserved | src/icc/threadpool/ThreadPool.cpp:19-35 | pushed tasks are taken tasks followed by queued ones, in order; each is with the one worker that took it; each finished non-empty one was called exactly once |
| WorkerPool.StopRunsWhatWasTaken | src/icc/threadpool/ThreadPool.cpp:63-66 | when every worker has exited, each taken task is finished and called unless empty |
| WorkerPool.EveryTaskIsServed | src/icc/threadpool/ThreadPool.cpp:19-35 | after every run without interrupt the workers have a bounded number of steps to make by themselves, and when none can step every task ever pushed is taken, finished and, unless empty, called |
| WorkerPool.NobodyLeavesEarly | src/icc/threadpool/ThreadPool.cpp:22-28 | over every run without interrupt no worker leaves its loop |
| WorkerPool.InterruptedAfter | src/icc/_private/containers/ThreadSafeQueue.hpp:116-130 | over every run the flag is what the last interrupt or reset has made it; without a reset it is up exactly if it was or an interrupt was called |
| WorkerPool.AttentiveUnlessMisled | src/icc/_private/containers/ThreadSafeQueue.hpp:95-126 | a step leaves a worker asleep over work exactly when it is a woken worker's that finds the queue non-empty and the counter at 0 |
| WorkerPool.NoLostWakeup | src/icc/_private/containers/ThreadSafeQueue.hpp:55-126 | over every run a worker asleep and not notified implies an empty queue and no interrupt except one still about to notify, exactly as long as no step is misled; below 2^32 tasks none is |
| WorkerPool.WrapLosesWakeup | src/icc/_private/containers/ThreadSafeQueue.hpp:103-106 | the run of a new pool in which a worker falls asleep and is woken by `n` pushes ends with it asleep again exactly when `n` is a multiple of 2^32; such a run has a misled step |
| WorkerPool.ShutdownTerminates | src/icc/threadpool/ThreadPool.cpp:22-28 | after the interrupt no task is taken and the workers' remaining steps are bounded by their phases, which nothing raises |
| WorkerPool.NobodyLeftBehind | src/icc/threadpool/ThreadPool.cpp:63-66 | once the interrupt has notified, every worker that has not exited can step, at most three steps each, however long the queue is or was |
| WorkerPool.ShutdownReachesAll | src/icc/threadpool/ThreadPool.cpp:63-66 | from every run of a new pool that has called `interrupt` and not reset, the notifications due and at most three steps per worker bring every worker out of its loop |
| ContextLoop.Fifo | src/icc/Context.hpp:111-159 | pushed actions are the settled ones, the one in hand and the queued ones, in order; inline invocations are nested in the action that made them |
| ContextLoop.WhatRuns | src/icc/Context.hpp:203-222 | under Forever exactly the non-empty popped actions run; under UntilWorkers exactly those without an interrupt between pop and test |
| ContextLoop.EveryActionIsServed | src/icc/Context.hpp:203-222 | as long as the loop is neither stopped nor deserted it has a bounded number of steps to make by itself, and when it can not step every action ever pushed is popped and settled |
| ContextLoop.LeavesOnlyWhenDeserted | src/icc/Context.hpp:203-222 | over every run without stop the loop goes round again: under Forever always, under UntilWorkers exactly until it tests its condition with no channel left |
| ContextLoop.InvokeRunsInline | src/icc/Context.hpp:152-159 | while the context knows its thread everything the running action invokes is called at once, in order, and only pushes reach the queue |
| ContextLoop.StopEndsTheLoop | src/icc/Context.hpp:180-188 | after a stop from inside an action, over every continuation no action is taken from the queue, every push and invocation is queued in order, only the stopping action is settled, and two steps leave `run` |
| ContextLoop.WhoInterrupts | src/icc/Context.hpp:118-123 | over every run the flag is up exactly from the drop of the last channel, or the first stop, to the next reset; each of these has notified or still owes it; channels are those added and not dropped |
| ContextLoop.LastChannelEndsTheLoop | src/icc/Context.hpp:118-123 | under UntilWorkers the drop of the last channel, unless at the reset, ends the loop after at most three steps of every continuation without new channels |
| ContextLoop.ResetMissesTheLastChannel | src/icc/Context.hpp:213-222 | at the reset it does not: an idle loop then sleeps without a channel and without a notification to come |
| ContextLoop.NoLostWakeup | src/icc/Context.hpp:203-222 | over every run the loop never sleeps unnotified over an action or an interrupt, exactly as long as it is not woken over a positive multiple of 2^32 actions |
| SendQueue.TransmitConserves | src/icc/os/platforms/windows/SocketImpl.cpp:119-143 | the send loop keeps the account of accepted bytes |
| SendQueue.SendConservation | src/icc/os/platforms/windows/SocketImpl.cpp:24-156 | over every sequence of `sendAsync`, `setBlockingMode` and handler calls the bytes on the wire are the accepted parts of settled chunks in order, then the sent part of the front chunk; promises settle once, in order, and succeed only when complete |
| SendQueue.OpenedSocketDelivers | src/icc/os/platforms/windows/SocketImpl.cpp:24-37 | promises are for exactly the chunks handed to `sendAsync`, in order; when all have succeeded the wire is their concatenation |
| SendQueue.HandlerGoesOn | src/icc/os/platforms/windows/SocketImpl.cpp:108-117 | a handler without blocking stops only with nothing left to send or its answers used up; a blocking one makes exactly one call |
| SendQueue.TransmitGoesOn | src/icc/os/platforms/windows/SocketImpl.cpp:119-143 | the send loop goes on while the system takes bytes and some are left; the buffer stays available exactly unless the last call would have blocked |
| SendQueue.WhoSendsAtOnce | src/icc/os/platforms/windows/SocketImpl.cpp:24-37 | `sendAsync` calls the system exactly on Windows with the buffer known to be available |
| SendQueue.FullyOutIsSettled | src/icc/os/platforms/windows/SocketImpl.cpp:119-156 | over every sequence of events no chunk that is fully out waits for its promise to be settled |
| SendQueue.OnlySetBlockingSetsTheMode | src/icc/os/platforms/windows/SocketImpl.hpp:72-74 | over every sequence of events the mode is the one set last |
| SendPlatforms.EveryFailureIsReported | src/icc/os/platforms/windows/SocketImpl.cpp:134-156 | over every sequence of events, on either platform, the promises settled with errors are exactly the failures it reads in the answers used, code by code, in order |
| SendPlatforms.AgreeIffFrank | src/icc/os/platforms/windows/SocketImpl.cpp:134-142 | the Windows and the Posix reading of the send handler come out the same exactly when no failure met has a zero length output |
| SendPlatforms.FailureReadAsFull | src/icc/os/platforms/windows/SocketImpl.cpp:134-142 | an input on which they differ: Posix settles the promise with the error, Windows leaves the chunk waiting |
| PosixSend.TransmitRefines | src/icc/os/platforms/posix/SocketImpl.cpp:106-123 | the loop with the shared offset refines the loop with an offset per chunk |
| PosixSend.SendAllRefines | src/icc/os/platforms/posix/SocketImpl.cpp:103-141 | the whole Posix handler refines the per-chunk handler |
| PosixSend.HandlersAgree | src/icc/os/platforms/posix/SocketImpl.cpp:98-142 | from the same queue, progress and script both platforms emit the same bytes and settle the same promises alike, exactly when no failure met has a zero length output |
| PosixSend.UndisturbedIffWholeWrites | src/icc/os/platforms/posix/SocketImpl.cpp:98-142 | over every run of sockets, blocking or not, the shared offset is 0 between handlers exactly when every blocking write takes its whole chunk, fails, or takes nothing |
| PosixSend.SocketsDoNotInterfere | src/icc/os/platforms/posix/SocketImpl.cpp:98-142 | under that condition, and always with sockets that never block, the shared offset is 0 between handlers, and each socket ends as if it had been alone with its own events and an offset per chunk, so it conserves its bytes |
| PosixSend.OffsetAfterHandler | src/icc/os/platforms/posix/SocketImpl.cpp:106-140 | a blocking handler leaves the offset at 0 exactly when the answer covers the rest of the front chunk, is a failure, or takes nothing at either end of it |
| PosixSend.BlockingSocketsInterfere | src/icc/os/platforms/posix/SocketImpl.cpp:98-142 | after a blocking write of `k` bytes of a longer chunk the next socket skips its first `k` bytes and still succeeds; its handler is runnable exactly when its front chunk has at least `k` bytes |
| ReceiveQueue.ReceiveConservation | src/icc/os/platforms/windows/SocketImpl.cpp:44-106 | received bytes are the delivered chunks and what failed calls lost, in request order; chunks are non-empty; the buffer is empty between handlers |
| ReceiveQueue.HandlerGoesOn | src/icc/os/platforms/windows/SocketImpl.cpp:59-68 | a handler without blocking stops only with no request left or its answers used up; a blocking one makes exactly one call |
| ReceiveQueue.WhoReadsAtOnce | src/icc/os/platforms/windows/SocketImpl.cpp:44-57 | `receiveAsync` calls the system exactly on Windows with data known to be there |
| ReceivePlatforms.EveryAnswerIsHeeded | src/icc/os/platforms/windows/SocketImpl.cpp:70-106 | over every sequence of events, on either platform, the bytes received are exactly those granted, and the requests settled with errors are exactly the failures it reads in the answers used, code by code, in order |
| ReceivePlatforms.HandlersAgree | src/icc/os/platforms/posix/SocketImpl.cpp:58-96 | the two receive handlers agree exactly when no failure met has a zero length output |
| ReceivePlatforms.FailureReadAsDry | src/icc/os/platforms/windows/SocketImpl.cpp:70-106 | an input on which they differ: Posix loses the data with the error, Windows delivers it |
| PosixReceive.ReceiversDoNotInterfere | src/icc/os/platforms/posix/SocketImpl.cpp:58-96 | over every run of events on sockets that share the static buffer, blocking or not, it is empty between handlers, and each socket ends as if it had been alone with its own events, so it conserves the bytes it received |
| Sockets.WindowsSocket.SetBlockingMode | src/icc/os/platforms/windows/SocketImpl.hpp:72-74 | changes the mode for both sides of the socket and nothing else |
| Sockets.WindowsSocket.SendDataTo | src/icc/os/platforms/windows/SocketImpl.cpp:119-156 | one send loop, then the front promise settles if failed or complete |
| Sockets.WindowsSocket.OnSocketBufferAvailable | src/icc/os/platforms/windows/SocketImpl.cpp:108-117 | the handler computes the function the conservation theorem is about |
| Sockets.WindowsSocket.SendAsync | src/icc/os/platforms/windows/SocketImpl.cpp:24-37 | enqueues a chunk and sends at once if the buffer is available |
| Sockets.WindowsSocket.ReadDataFrom | src/icc/os/platforms/windows/SocketImpl.cpp:70-106 | one receive loop, then the front request settles with the chunk or the error |
| Sockets.WindowsSocket.OnSocketDataAvailable | src/icc/os/platforms/windows/SocketImpl.cpp:59-68 | the receive handler |
| Sockets.WindowsSocket.ReceiveAsync | src/icc/os/platforms/windows/SocketImpl.cpp:44-57 | queues a request and reads at once if data is available |
| Sockets.PosixSockets.SendFront | src/icc/os/platforms/posix/SocketImpl.cpp:104-140 | the body of the Posix loop, on the shared offset; overruns exactly when that exceeds the front chunk |
| Sockets.PosixSockets.OnSocketBufferAvailable | src/icc/os/platforms/posix/SocketImpl.cpp:98-142 | the Posix handler computes the function the refinement is about; overruns exactly when another socket's offset exceeds the front chunk |
| Sockets.PosixSockets.SendAsync | src/icc/os/platforms/posix/SocketImpl.cpp:29-39 | Posix only enqueues |
| Sockets.PosixReceivers.ReceiveAsync | src/icc/os/platforms/posix/SocketImpl.cpp:46-56 | Posix only queues the request |
| Sockets.PosixReceivers.OnSocketDataAvailable | src/icc/os/platforms/posix/SocketImpl.cpp:58-96 | the Posix receive handler computes its step on the shared buffer |
| LocalBus.BuildAgreesIffClean | src/icc/localbus/LocalBus.hpp:131-151 | a built client agrees with the bus exactly when the build finds it clean |
| LocalBus.FirstBuildIsClean | src/icc/localbus/IClient.hpp:34-38 | the build in a client's constructor is always clean |
| LocalBus.StepConverges | src/icc/localbus/LocalBus.hpp:62-171 | every bus step keeps the drained view of each live registered client in agreement |
| LocalBus.ConvergesIffBuildsClean | src/icc/localbus/LocalBus.hpp:62-171 | over any run the clients agree with the bus all along exactly when every build is clean |
| LocalBus.BusConverges | src/icc/localbus/LocalBus.hpp:62-171 | from clients that were told nothing, over every run that builds no client again for a key it was disassembled from, a drained client holds a service for a key exactly if the bus does |
| LocalBus.ConvergesIffNoStaleBuild | src/icc/localbus/LocalBus.hpp:131-171 | with clients on threads of their own, they agree with the bus all along exactly when none is built for a free key it left while a service was held for it |
| LocalBus.ConvergesExactlyIff | src/icc/localbus/LocalBus.hpp:62-171 | over any run the clients hold the very service of the bus all along exactly when every build is exact and every registration announces the held service or reaches nobody |
| LocalBus.BusConvergesExactly | src/icc/localbus/LocalBus.hpp:478-494 | if besides nobody registers under a name that another service holds, each holds the very service that `getService` returns, all along |
| LocalBus.RebuildMissesDisconnect | src/icc/localbus/LocalBus.hpp:131-171 | the run in which a rebuilt client keeps believing in a service that left |
| LocalBus.AnnouncedIsHeld | src/icc/localbus/LocalBus.hpp:69-80 | the announced service is the held one exactly when the name was free or already held by it |
| LocalBus.WhatAClientIsTold | src/icc/localbus/LocalBus.hpp:62-171 | over every interleaving a live client has heard the notices that the run, by itself, says are for it, each once and in order, and the others wait; a build on the thread of the bus tells it at once |
| LocalBus.ExpiredHearsNothing | src/icc/localbus/LocalBus.hpp:74-86 | over every run a client that no longer exists is told nothing |
| LocalBus.Broker.Notify | src/icc/localbus/LocalBus.hpp:74-86 | each live member gets one notice whatever the iteration order |
| LocalBus.Broker.RegisterService | src/icc/localbus/LocalBus.hpp:62-89 | the first service keeps the name; all members are told of the new one |
| LocalBus.Broker.UnregisterService | src/icc/localbus/LocalBus.hpp:97-122 | frees the name and tells all members |
| LocalBus.Broker.BuildClient | src/icc/localbus/LocalBus.hpp:131-151 | registers the client and, if a service is held, tells it inline or through its queue |
| LocalBus.Broker.DisassembleClient | src/icc/localbus/LocalBus.hpp:160-171 | removes the client from the key |
| Attribute.OncePerConnection | src/icc/Event.hpp:166-189 | a firing adds to each live client one value per connection and changes nothing else |
| Attribute.LiveMembers | src/icc/Event.hpp:251-262 | clearing keeps exactly the connections of live clients |
| Attribute.ExpiredAreForgotten | src/icc/Event.hpp:130-189 | a firing and an unsubscription forget every connection of expired clients |
| Attribute.StepConverges | src/icc/Attribute.hpp:34-50 | every step keeps each connected client on the way to the current value |
| Attribute.AttributeConverges | src/icc/localbus/LocalBus.hpp:362-380 | a connected client with a drained queue has seen the current value last; consecutive notifications differ |
| Attribute.WhatAClientSees | src/icc/localbus/LocalBus.hpp:362-380 | over every interleaving a live client has shown, in order and nothing else, what the run by itself says is queued for it: a value per connection for each change, a read per subscription; the others wait |
| Attribute.ExpiredSeesNothing | src/icc/Event.hpp:181-185 | over every run nothing is called on a client that no longer exists |
| Attribute.UnsubscribedHearsNothing | src/icc/Event.hpp:130-151 | after an unsubscription, until the next subscription, a client only takes what was queued before |
| Attribute.UnsubscribeTakesItsOwn | src/icc/Event.hpp:130-151 | an unsubscription removes every connection of its client and none of any other live one |
| Attribute.ReadOvertakes | src/icc/localbus/LocalBus.hpp:371-377 | over every run, the read of a subscription overtakes a queued value exactly when, while connected, the field was set to a value it does not have any more |
| Attribute.ReadOvertakesAfterTwoChanges | src/icc/localbus/LocalBus.hpp:371-377 | for a client that stays connected: exactly when the field changed at least twice since the subscription |
| Attribute.ReadOvertakesValues | src/icc/localbus/LocalBus.hpp:371-377 | such a run, which shows the values in the order last, first, last |
| Attribute.Field.ClearExpired | src/icc/Event.hpp:251-262 | the erasing loop keeps the live connections in order |
| Attribute.Field.FireEvent | src/icc/Event.hpp:166-189 | copies the connections, pushes to each, forgets the expired |
| Attribute.Field.SetFieldValue | src/icc/Attribute.hpp:34-50 | fires exactly when the value changes |
| Attribute.Field.SubscribeClient | src/icc/localbus/LocalBus.hpp:371-377 | connects, then queues a read of the current value |
| Attribute.Field.UnsubscribeClient | src/icc/Event.hpp:130-151 | removes every connection of the client and every expired one |
| Attribute.Field.DeliverTo | src/icc/Event.hpp:181-185 | takes one delivery; a value for an expired client is dropped |

## Left out

- Suspend, resume and stop of command loops: resuming starts from INACTIVE children and throws, stopping throws on the first child that is not ACTIVE; these transitions are modelled for a single command only.
- `setMode` after the first push: the mode of a loop is fixed by the program.
- Queries of a loop (`getCommandByIndex` and its companions) and `clearLoop`.
- Loops with contexts of their own, and the cascade of `Component::exit` over component children: the loops of a tree share one context that somebody else owns.
- LoopTheorems.RunsComputeEval: pushes are fresh (a command is offered to its one owner while not yet accepted); what a second push does is in `LoopRepush`.
- LoopRepush.RepushIsHarmlessIffNotHandled: one second push, with no other push of the command still queued, and a continuation with fresh pushes only.
- LoopQueuedPush.QueuedRepushIsHarmlessIffNotHandled: one second push; further pushes before and after it are fresh.
- LoopTheorems.Termination: counts offers of commands as steps of the environment; a program that offers without end runs without end.
- WorkerPool and ContextLoop are step systems on values, not classes: the interleaving of threads is the point, and a step is what the mutex makes atomic.
- Tasks that throw or never return, and a task that stops its own pool.
- A second `run` between a stop and the end of the old loop.
- `ThreadSafeQueue::pop` and the public `empty` and `count`, which pass the wrong lock type, and allocation failure.
- A change of the blocking mode while a handler runs: the mode changes between events.
- Termination of the socket handlers: without blocking they retry on "would block"; a handler is cut where the script of answers ends.
- Sockets.PosixSockets.OnSocketBufferAvailable: stops with `overrun` where the source sends from beyond a chunk, because what is read there is undefined.
- PosixSend.SocketsDoNotInterfere: one event-loop thread; two of them would race on the shared variable. Handlers of non-blocking sockets return by themselves instead of being cut.
- The event flags of sockets that only the event loop reads, the event loop itself, `select`, timers and server sockets.
- Bus calls and event subscriptions that only forward to a service, null services and clients, and addresses that are used again by a new client.
- C++ memory order, object lifetime beyond the liveness of weak references, and pointer casts: identities and atomic steps stand for them.
- Coroutines, CommonAPI wrappers, `Optional`, loggers and build files.
