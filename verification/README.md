# Verified models of a memory-system and accelerator simulator

Dafny models of the parts of the simulator whose correctness rests on many steps, with proofs
about every input and every run.

- **The cramSim memory controller.** A clocked protocol: transactions are converted to commands
  under three row policies, queued per bank, scheduled, and issued by a device driver that
  holds the command buses, the four-activate window and the refresh engine, to banks that count
  down timers and tell each other when they may take commands. The value-level model is in
  `BankMachine`, `Device`, `DriverMachine`, `Converter`, `Controller` and `EndToEnd`; the objects
  that update their fields in place are in `BankObject`, `DeviceObject`, `DriverObject` and
  `ControllerObject`, each method proved to do what the value-level step does. The theorems about
  whole runs are in `EndToEnd`: timing and the four-activate window, one column command per
  transaction in order, every command of the converter's stream accounted for, rows open when
  accessed, atomic and punctual refresh, exclusive buses, with refresh on or off. `Device`,
  `Latency`, `DataBus`, `DataAssertion` and `AutoGap` say what the bank timers mean; `Order`, `Edits`, `Rows`,
  `Reopen`, `RefreshRows`, `RowBuffer`, `Refresh`, `RefreshPace`, `Bus` and `DriverSafety` hold the
  invariants. `LoneRuns`, `Starvation` and `RefreshWindow` follow single runs of the whole controller
  and say when requests starve.
- **The address map.** `MapString` is the parser of the map string, `AddressMap` the bit positions,
  the hash, the mixed-radix identifiers and the inverse for a bank.
- **The attention baselines.** `Softmax` proves online softmax and the tree merge equal to plain
  softmax attention over the reals, for any function with the law of an exponential; `Schedule`
  and `PvSchedule` are the cluster timeline.
- **The balar DMA engine.** `DmaEngine` on values, `DmaObject` in place, `DmaData` for the bytes.
- **The Ariel memory managers and core.** `PagePool`, `SimpleManager`, `MallocBook`,
  `MallocManager`, the stale entries of its translation cache in `StaleCache`, and the fence
  protocol in `FenceLog` and `ArielCore`.
- **The Palacharla prefetcher.** `PalaPrefetch`.

`Arith` and `Dram` hold shared arithmetic and the vocabulary of commands, parameters and geometry.
`dafny verify dfyconfig.toml` checks the whole project.

## How the model reads the source

- Cycles, addresses and counters are unbounded integers, except where the width matters: the idle
  timer wraps at 64 bits, an in-flight write is remembered by its low 32 bits, a stride is a
  32-bit difference, and a field size in the map string fits an `int`.
- Links, statistics, output, clocks, the random generator, the exponential and the SST memory are
  parameters or left out. Histories (the commands issued, the blocks sent, the transactions
  outstanding) are recorded in the value-level state or in ghost fields.
- Timing parameters are assumed as the code needs them: nRP, nRFC, nCCD_L and nREFI at least two,
  so that no countdown starts below zero, and nFAW at least one. As the converter itself demands,
  auto-precharge goes with the close policy only. A transaction of the end-to-end runs has one
  column command.
- Where code and documentation differ, the model follows the code: the flag for reads with
  auto-precharge also selects writes with auto-precharge, and the flag for writes is not used; the
  prefetcher's table holds at most `address_count - 1` entries although its parameter is described
  as the number of entries; a bank in the read or write state that receives a command with
  auto-precharge ends in the fatal default branch.
- Some properties one might expect do not hold of the code. For each of these the exact condition
  is proved, with an input or a run where it fails: a transaction of several column commands
  (`Converter.ManyColumnsExact`, `Converter.TwoColumnsFail`); a DMA transfer whose size is not a
  multiple of the transfer size (`DmaEngine.EveryTransferExact`, `DmaEngine.Overrun`); the bursts of
  one bank under arbitrary parameters (`DataBus.SameBankBurstsExact`, `DataBus.BurstsCollide`); the
  driver's assertion on data commands (`DataAssertion.DataAssertionExact`,
  `DataAssertion.AssertionFails`, and for the controller `LoneRuns.OpenAssertionExact`,
  `LoneRuns.OpenAssertionFails`); requests beside refresh (`RefreshWindow.StarvationExact`,
  `RefreshWindow.WindowOpens`); the channel of a refresh (`Bus.RefreshOnOwnChannel`,
  `Bus.ForeignChannel`); cached translations (`StaleCache.FreeExact`, `StaleCache.MapExact`,
  `StaleCache.DemandExact`, `StaleCache.StaleHit`); the end of the parse loop on a map string
  (`MapString.ParseOutcome`, `MapString.SizeFirstDiverges`); and the bits of a simple map
  (`AddressMap.SimpleMatches`, `AddressMap.TwiceNamed`).

## Model

| member | source | states |
|---|---|---|
| EndToEnd.EveryTransactionAccounted | src/sst/elements/cramSim/c_TxnConverter.cc:126-204 | In every run and for every bank, the column commands sent, then those in the driver's queue, then those in the bank's command queue, then those owed to pending transactions are one column command per arrived transaction, of its kind, address and row, in arrival order; with refresh on or off |
| EndToEnd.EveryCommandAccounted | src/sst/elements/cramSim/c_DeviceDriver.cc:487-664 | In every run, with refresh on or off, a bank was sent the stream that the converter wrote, and is still to be sent the rest of it, with two kinds of edits only: an ACT inserted for the column command that comes next, and a PRE left out, which found its bank closed; the stream is legal for the row-buffer automaton |
| EndToEnd.EveryRunInOpenRows | src/sst/elements/cramSim/c_DeviceDriver.cc:487-664 | In every run, with refresh on or off, every column command finds its own row open, and no bank ends in the fatal branch of a state |
| EndToEnd.EveryStreamToTheLetter | src/sst/elements/cramSim/c_DeviceDriver.cc:487-664 | With refresh off, what a bank was sent, then what is queued for it, is to the letter the stream that the converter wrote, so nothing is inserted or dropped |
| EndToEnd.EveryRunTimed | src/sst/elements/cramSim/c_DeviceDriver.cc:398-477 | In every run every two commands are as far apart as the timing table asks, and no window of nFAW cycles holds more than four ACTs of a rank |
| EndToEnd.EveryRefreshAtomic | src/sst/elements/cramSim/c_DeviceDriver.cc:398-416 | In every run, after refresh commands were created for a rank no request reaches the rank before a REF does; every REF comes from the refresh engine, finds no open row and, under all-bank refresh, is taken by every bank of the rank in the same cycle |
| EndToEnd.EveryRefreshOnTime | src/sst/elements/cramSim/c_DeviceDriver.cc:892-905 | In every run with refresh, the i-th refresh of a rank is created exactly in the cycle that the staggered start and the interval give, for the whole rank or, bank by bank, for its banks in turn; and all refreshes due so far have been created |
| EndToEnd.EveryRunOnBus | src/sst/elements/cramSim/c_DeviceDriver.cc:729-800 | In no cycle of any run do two commands, requests or refreshes, that the driver accounts to one channel use the same command bus; a refresh of several banks is one command; a request is accounted to the channel that its bank is wired to |
| EndToEnd.EveryRunOnWiredBus | src/sst/elements/cramSim/c_DeviceDriver.cc:729-800 | With one channel or one pseudo channel per channel, in no cycle of any run do two commands for banks wired to one channel use the same command bus |
| EndToEnd.EveryDataAssertion | src/sst/elements/cramSim/c_DeviceDriver.cc:634-646 | When the parameters fit, the driver's assertion on the distance of data commands holds throughout every run |
| EndToEnd.EveryBurstApart | src/sst/elements/cramSim/c_Channel.cc:91-199 | When the parameters fit, no two bursts of a pseudo channel overlap in any run without auto-precharge |
| EndToEnd.Runs | src/sst/elements/cramSim/c_Controller.cc:152-222 | The system after any sequence of cycles with any well-formed transactions satisfies the invariant that the theorems about runs rest on |
| EndToEnd.CycleInv | src/sst/elements/cramSim/c_Controller.cc:152-222 | One controller cycle, in the source's phase order, keeps the invariant of the whole system |
| EndToEnd.CycleDriver | src/sst/elements/cramSim/c_Controller.cc:166-210 | Between the driver's update and its run of a cycle, the converter and the scheduler change nothing that the command history records |
| EndToEnd.CycleLedger | src/sst/elements/cramSim/c_TxnConverter.cc:126-161 | A cycle keeps, per bank, the account of column commands written against transactions arrived |
| EndToEnd.InputDrained | src/sst/elements/cramSim/c_TxnConverter.cc:126-161 | One pass converts all pending transactions, so that the assertion at the end of the pass holds, if and only if each has room in its queue behind the commands of the pending transactions of its bank before it |
| EndToEnd.AddressedTransaction | src/sst/elements/cramSim/c_AddressHasher.cc:273-414 | A transaction addressed through a map that matches the geometry is well formed: its channel, rank and bank are those of one existing bank |
| Device.RunTimingSafe | src/sst/elements/cramSim/c_BankInfo.cc:137-175 | For any commands at any cycles, every two accepted commands keep the distances of the bank timers and of the group, rank and channel tables: ACT to column nRCD, ACT to PRE nRAS, READ and WRITE to PRE, PRE to ACT nRP, REF to ACT nRFC, ACT to ACT across a rank, and, without auto-precharge, column to column on a pseudo channel |
| Device.SendSeparates | src/sst/elements/cramSim/c_BankGroup.cc:83-181 | A command that a bank accepts is separated from every earlier command of the device by the table entry for the two kinds and the two banks' relation |
| Device.SendValid | src/sst/elements/cramSim/c_Channel.cc:91-199 | Sending a command to a bank, and telling every other bank of its group, rank and channel, keeps the record that every bank has of every earlier command |
| Device.ClockValid | src/sst/elements/cramSim/c_BankInfo.cc:149-155 | A clock edge of all banks keeps the record that every bank has of every earlier command |
| Device.TickKeepsAct | src/sst/elements/cramSim/c_BankStateActive.cc:109-183 | Through every state change a bank remembers an ACT until its nRCD and nRAS have passed |
| Device.TickKeepsRead | src/sst/elements/cramSim/c_BankStateRead.cc:101-249 | Through every state change a bank remembers a READ until its nRTP has passed |
| Device.TickKeepsWrite | src/sst/elements/cramSim/c_BankStateWrite.cc:102-264 | Through every state change a bank remembers a WRITE until nCWL, nBL and nWR have passed |
| Device.TickKeepsClosing | src/sst/elements/cramSim/c_BankStatePrecharge.cc:66-100 | Through every state change a bank remembers a PRE for nRP cycles and a REF for nRFC cycles |
| Device.TickKeepsGap | src/sst/elements/cramSim/c_BankStateRead.cc:169-249 | Without auto-precharge the bank's own column-to-column distances survive every clock edge |
| Device.RaiseSeen | src/sst/elements/cramSim/c_Rank.cc:94-196 | A bank told of a command elsewhere refuses every command that would come too early after it |
| Latency.RefreshExact | src/sst/elements/cramSim/c_BankStateRefresh.cc:74-114 | An idle bank that accepts REF accepts ACT again after k cycles if and only if k is at least nRFC and no other bank's command forbids it |
| Latency.PrechargeExact | src/sst/elements/cramSim/c_BankStatePrecharge.cc:66-100 | A bank that accepts PRE in the active, read or write state accepts ACT after k cycles if and only if its state's timer, its exit timer and nRP have passed and no other bank's command forbids it |
| Latency.LeavesAt | src/sst/elements/cramSim/c_BankStateRead.cc:101-167 | With a PRE in hand, an active, reading or writing bank starts precharging exactly when its own timer and the exit timer it then loads have run out |
| Latency.ActivateExact | src/sst/elements/cramSim/c_BankStateActivating.cc:66-99 | An idle bank that accepts ACT has its row open from the second edge on, accepts a column command after k cycles if and only if k is at least nRCD and two, and PRE if and only if k is at least nRAS and two, unless earlier commands forbid it |
| DataBus.BurstsNeverOverlap | src/sst/elements/cramSim/c_Channel.cc:91-199 | In a timing-safe history without auto-precharge the data bursts of two column commands to different banks of a pseudo channel do not overlap |
| DataBus.SameBankBurstsExact | src/sst/elements/cramSim/c_BankStateRead.cc:169-249 | The bursts of one bank stay apart in every run without auto-precharge if and only if nCCD_L covers the burst and the distance from a READ to a WRITE covers the read latency |
| DataBus.BurstsCollide | src/sst/elements/cramSim/c_BankStateRead.cc:169-249 | Otherwise there is a run in which two bursts of the first bank overlap |
| AutoGap.AutoTooEarly | src/sst/elements/cramSim/c_BankStateReadA.cc:105-170 | A run with auto-precharge in which a READ follows another bank's WRITE one cycle too early and their bursts overlap: entering the state of a READA takes back one cycle of what the bank was told |
| DataBus.PairRuns | src/sst/elements/cramSim/c_BankStateRead.cc:169-249 | A bank takes a second READ nCCD_L cycles after a READ, and a WRITE nCWL + nBL + nWTR cycles after it, so the distances are tight |
| DataBus.RunOneByOne | src/sst/elements/cramSim/c_BankInfo.cc:137-155 | In every run a bank takes at most one command per cycle |
| DataAssertion.DataAssertionExact | src/sst/elements/cramSim/c_DeviceDriver.cc:634-646 | The driver's assertion on the distance of two data commands of one kind holds in every run, auto-precharge included, if and only if nCCD_L, and the earliest cycle of a first READ, reach the asserted distance |
| DataAssertion.AssertionFails | src/sst/elements/cramSim/c_DeviceDriver.cc:333-337 | Otherwise there is a run in which the assertion fails, between two READs of one bank or at the first READ, which is compared with initial values |
| LoneRuns.OpenAssertionExact | src/sst/elements/cramSim/c_DeviceDriver.cc:634-646 | Over the runs of the whole controller under the open policy without refresh, with ACTs of one bus cycle, the driver's assertion always holds if and only if the parameters fit |
| LoneRuns.OpenAssertionFails | src/sst/elements/cramSim/c_DeviceDriver.cc:634-646 | If nCCD_L or the cycle of the first READ does not reach the asserted distance, a run of the controller with two reads of one row breaks the assertion |
| LoneRuns.TwoReads | src/sst/elements/cramSim/c_Controller.cc:152-222 | On an empty controller under the open policy the column command of a read goes out exactly the later of two and nRCD cycles after its ACT, which goes out in the first cycle or, when ACTs take two cycles of their own bus, in the second; a second read of the row can follow it nCCD_L cycles later |
| LoneRuns.ScheduleOne | src/sst/elements/cramSim/c_CmdScheduler.cc:95-134 | With one non-empty queue the scheduler's pass over all channels is one visit of it |
| LoneRuns.SendCycle | src/sst/elements/cramSim/c_Controller.cc:152-222 | A command that its bank allows passes from the command queue through the driver to the bank in one cycle |
| Starvation.EveryRankStarves | src/sst/elements/cramSim/c_DeviceDriver.cc:398-416 | In every run with all-bank refresh and nRFC above nREFI, no request reaches a rank after its first refresh commands were created |
| RefreshWindow.StarvationExact | src/sst/elements/cramSim/c_DeviceDriver.cc:398-416 | On one rank under the open policy, with ACTs of one bus cycle, this holds in every run if and only if nRFC is above nREFI |
| RefreshWindow.WindowOpens | src/sst/elements/cramSim/c_DeviceDriver.cc:398-446 | Otherwise a read that arrives when the first refresh is over gets its ACT through before the next refresh |
| Starvation.RunAfterRefs | src/sst/elements/cramSim/c_BankStateRefresh.cc:74-114 | In every run a bank takes no command of any kind in the nRFC cycles after a REF |
| Starvation.RunsDated | src/sst/elements/cramSim/c_DeviceDriver.cc:947-1030 | In every run the commands before the creation of a refresh are those of earlier cycles and refresh commands of its own cycle, and the commands after it are not of earlier cycles |
| DataAssertion.RunKindsApart | src/sst/elements/cramSim/c_BankStateReadA.cc:105-170 | In every run, auto-precharge included, two data commands of one kind on a pseudo channel keep the column-to-column distance of their banks' relation |
| DataAssertion.RunAfterAct | src/sst/elements/cramSim/c_BankStateActive.cc:109-183 | In every run each data command comes two cycles and nRCD cycles after an ACT of its bank |
| BankObject.BankInfo.constructor | src/sst/elements/cramSim/c_BankInfo.cc:109-135 | A new bank is idle, closed and free to be activated |
| BankObject.BankInfo.IsCommandAllowed | src/sst/elements/cramSim/c_BankInfo.cc:161-175 | A command is allowed exactly when the state lists it, no command is held and its cycle has come |
| BankObject.BankInfo.HandleCommand | src/sst/elements/cramSim/c_BankInfo.cc:137-147 | An allowed command is held for the next clock edge and its cycle is noted, as the value-level bank does |
| BankObject.BankInfo.Enter | src/sst/elements/cramSim/c_BankStateActive.cc:67-107 | The held command decides the next state, as the value-level bank does |
| BankObject.BankInfo.LeaveState | src/sst/elements/cramSim/c_BankStateRead.cc:101-167 | Read and write leave through an exit timer that they load on demand, as the value-level bank does |
| BankObject.BankInfo.AutoPrecharge | src/sst/elements/cramSim/c_BankStateReadA.cc:69-103 | The auto-precharge states count down twice and then precharge, as the value-level bank does |
| BankObject.BankInfo.ClockTic | src/sst/elements/cramSim/c_BankInfo.cc:149-155 | A clock edge is the value-level bank's clock edge in every state, with the idle timer's 64-bit wrap-around |
| DeviceObject.Banks.Clock | src/sst/elements/cramSim/c_DeviceDriver.cc:452-477 | The loop over the banks clocks each of them once |
| DeviceObject.Banks.TellRange | src/sst/elements/cramSim/c_BankGroup.cc:83-181 | The loop tells every bank of the range but one, and no other bank |
| DeviceObject.Banks.UpdateGroup | src/sst/elements/cramSim/c_BankGroup.cc:83-181 | Exactly the other banks of the group are told, each once |
| DeviceObject.Banks.UpdateRank | src/sst/elements/cramSim/c_Rank.cc:94-196 | Exactly the banks of the other groups of the rank are told, each once |
| DeviceObject.Banks.UpdateChannel | src/sst/elements/cramSim/c_Channel.cc:91-199 | Exactly the banks of the other ranks of the pseudo channel are told, each once |
| DeviceObject.Banks.UpdateOthers | src/sst/elements/cramSim/c_Channel.cc:91-199 | The loops of the group, the rank and the channel together tell every other bank once, in its nearest relation |
| DeviceObject.Banks.SendCommand | src/sst/elements/cramSim/c_DeviceDriver.cc:809-865 | A command is sent exactly when its bank allows it, and then changes the banks as the value-level device does |
| DriverSafety.RunInv | src/sst/elements/cramSim/c_DeviceDriver.cc:398-446 | One run of the driver keeps the timing table, the four-activate window and the exactness of its trackers |
| DriverSafety.SendStepInv | src/sst/elements/cramSim/c_DeviceDriver.cc:555-664 | Each visit of sendRequest keeps the four-activate window, and an ACT is only sent when none was issued for the rank in this cycle, so the assertion at line 651 cannot fail |
| DriverSafety.TrackedSum | src/sst/elements/cramSim/c_DeviceDriver.cc:912-922 | The shift register of a rank counts exactly the ACTs of the last nFAW cycles in the command history |
| DriverSafety.ActKeepsWindow | src/sst/elements/cramSim/c_DeviceDriver.cc:555-664 | An ACT sent while its window holds at most three and the cycle none keeps every window at four or fewer |
| DriverSafety.UpdateInv | src/sst/elements/cramSim/c_DeviceDriver.cc:452-477 | The shift of the trackers keeps them exact |
| Order.StepPipeline | src/sst/elements/cramSim/c_DeviceDriver.cc:555-664 | One visit of sendRequest leaves each bank's sent and queued commands as one unchanged sequence, except that a PRE for a closed bank is taken out |
| Order.FirstOfBank | src/sst/elements/cramSim/c_DeviceDriver.cc:581-624 | Because of the per-bank blocking marks, an entry that is sent or dropped is the first of its bank in the queue |
| Order.PushPipeline | src/sst/elements/cramSim/c_DeviceDriver.cc:929-940 | An accepted command joins the end of its bank's sequence, a refused one changes nothing |
| Edits.RunAccount | src/sst/elements/cramSim/c_DeviceDriver.cc:398-446 | One run of the driver, refresh included, keeps every bank's account: what is sent, left out and queued is the stream with the two kinds of edits, and only a PRE for a closed bank is left out |
| Edits.StepAccount | src/sst/elements/cramSim/c_DeviceDriver.cc:555-664 | One visit of sendRequest keeps every bank's account |
| Edits.ReopenAccount | src/sst/elements/cramSim/c_DeviceDriver.cc:1011-1030 | The ACTs put in front of the queue before a refresh are edits that the account allows |
| Edits.AllowedAccount | src/sst/elements/cramSim/c_DeviceDriver.cc:487-537 | Asking for permission changes nothing or queues the ACT of the column command's own row, and keeps every bank's account |
| Edits.SameColumns | src/sst/elements/cramSim/c_DeviceDriver.cc:487-664 | Edits of the two kinds lose, duplicate and reorder no column command |
| Edits.Insert | src/sst/elements/cramSim/c_DeviceDriver.cc:487-514 | An ACT may be inserted right before any queued column command |
| RefreshRows.RunRows | src/sst/elements/cramSim/c_DeviceDriver.cc:398-446 | With refresh on, one run keeps every bank at the row that its accepted commands leave open, and the commands queued for it legal from there |
| RefreshRows.StepRows | src/sst/elements/cramSim/c_DeviceDriver.cc:555-664 | One visit of sendRequest does so |
| RefreshRows.RefreshAllRows | src/sst/elements/cramSim/c_DeviceDriver.cc:672-721 | Sending a refresh command closes its banks and leaves the queued commands legal, none of the banks having a column command in front |
| RefreshRows.CreateClear | src/sst/elements/cramSim/c_DeviceDriver.cc:947-1030 | When refresh commands are created, every bank to be closed gets an ACT in front of a column command that was first in the queue |
| RefreshRows.AllowedRows | src/sst/elements/cramSim/c_DeviceDriver.cc:487-537 | A permission means that the head of the command queue may join the driver's queue with its row open when its turn comes |
| RefreshRows.RequestClear | src/sst/elements/cramSim/c_DeviceDriver.cc:487-537 | No request touches the queue of a bank whose rank has a refresh pending |
| Reopen.FitsClosed | src/sst/elements/cramSim/c_DeviceDriver.cc:672-721 | Queued commands that are legal for a bank stay so when a refresh closes it, if no column command is first |
| Reopen.FitsReopened | src/sst/elements/cramSim/c_DeviceDriver.cc:1011-1030 | Queued commands stay legal when the ACT of a first column command is put in front of it |
| Reopen.FitsOpened | src/sst/elements/cramSim/c_DeviceDriver.cc:487-514 | Queued commands stay legal when an ACT is queued for the head of the command queue of a closed bank |
| Reopen.FitsMore | src/sst/elements/cramSim/c_TxnConverter.cc:126-161 | Queued commands stay legal when the converter adds a transaction's commands to the stream |
| Rows.RunFollows | src/sst/elements/cramSim/c_DeviceDriver.cc:398-446 | With refresh off, one run keeps every bank in step with its stream, and inserts and drops nothing |
| Rows.SentFollows | src/sst/elements/cramSim/c_DeviceDriver.cc:627-659 | Sending the head of a bank's queue keeps the bank in step with the row-buffer automaton, and a column command finds its own row open |
| Rows.NoDrop | src/sst/elements/cramSim/c_DeviceDriver.cc:619-625 | With refresh off no queued PRE meets a closed bank |
| Rows.AllowedInsertsNothing | src/sst/elements/cramSim/c_DeviceDriver.cc:487-537 | With refresh off, permission for the head of a bank's stream never inserts an ACT |
| RowBuffer.TickMatches | src/sst/elements/cramSim/c_BankStateActivating.cc:66-99 | A clock edge keeps a bank in the state that the row-buffer automaton gives it, and settles a held ACT |
| RowBuffer.HandleMatches | src/sst/elements/cramSim/c_BankInfo.cc:137-147 | A legal command takes bank and automaton to matching states, and a column command finds the automaton's row |
| Refresh.RefreshAtomic | src/sst/elements/cramSim/c_DeviceDriver.cc:672-721 | A refresh command is taken by all of its banks in one cycle or by none, no other bank changes, and a REF finds all of its banks idle |
| Refresh.AllAtOnce | src/sst/elements/cramSim/c_DeviceDriver.cc:672-721 | When every bank allows a refresh command, the loop sends it to each of them in this cycle, and sending to one never makes another refuse |
| Refresh.RunInv | src/sst/elements/cramSim/c_DeviceDriver.cc:398-446 | One run keeps requests away from a rank between the creation of its refresh commands and its REF, and keeps every REF whole |
| Refresh.StepInv | src/sst/elements/cramSim/c_DeviceDriver.cc:555-600 | A visit of sendRequest sends nothing to a rank whose refresh is pending |
| Refresh.CreateInv | src/sst/elements/cramSim/c_DeviceDriver.cc:947-1030 | Created refresh commands are an optional PRE for exactly the open banks, then the REF, all for banks of the rank |
| RefreshPace.TimerStep | src/sst/elements/cramSim/c_DeviceDriver.cc:398-416 | One step of a rank's refresh timer keeps the created refreshes equal to the ones due, and the next one due when the timer reaches zero |
| RefreshPace.OnTime | src/sst/elements/cramSim/c_DeviceDriver.cc:892-905 | The refreshes of a rank created by a cycle are exactly those due by then, each in its cycle and for its banks |
| Bus.RunBus | src/sst/elements/cramSim/c_DeviceDriver.cc:729-800 | One run never sends two commands of a channel over one command bus in a cycle |
| Bus.SendRefreshBus | src/sst/elements/cramSim/c_DeviceDriver.cc:672-721 | A refresh command that goes out finds its bus free and holds it from then on |
| Bus.RefreshOnOwnChannel | src/sst/elements/cramSim/c_DeviceDriver.cc:947-990 | Every refresh is accounted to its rank's own channel if and only if there is one channel or one pseudo channel per channel |
| Bus.ForeignChannel | src/sst/elements/cramSim/c_DeviceDriver.cc:947-990 | Otherwise the first rank of the second pseudo channel, wired to the first channel, is refreshed over the second channel's bus |
| Bus.StepBus | src/sst/elements/cramSim/c_DeviceDriver.cc:729-800 | One visit of sendRequest keeps the bus exclusive, every request of this cycle holding the bus it was sent on |
| DriverMachine.TargetsInRange | src/sst/elements/cramSim/c_DeviceDriver.cc:950-972 | The banks of a refresh are distinct banks of its rank, and its channel exists |
| DriverObject.DeviceDriver.constructor | src/sst/elements/cramSim/c_DeviceDriver.cc:877-905 | The driver starts with clear trackers, staggered refresh timers and free buses |
| DriverObject.DeviceDriver.ReleaseCommandBus | src/sst/elements/cramSim/c_DeviceDriver.cc:790-800 | The loop counts every busy bus down by one |
| DriverObject.DeviceDriver.IsCommandBusAvailable | src/sst/elements/cramSim/c_DeviceDriver.cc:729-743 | The answer is whether the bus of the command's kind is free on its channel |
| DriverObject.DeviceDriver.OccupyCommandBus | src/sst/elements/cramSim/c_DeviceDriver.cc:746-787 | The bus of the command's kind is held for its number of cycles |
| DriverObject.DeviceDriver.AllBusesTaken | src/sst/elements/cramSim/c_DeviceDriver.cc:746-787 | The answer is whether no bus of any channel is free |
| DriverObject.DeviceDriver.ShiftTrackers | src/sst/elements/cramSim/c_DeviceDriver.cc:452-477 | Every rank's tracker drops its oldest cycle and takes in this one |
| DriverObject.DeviceDriver.BeginCycle | src/sst/elements/cramSim/c_DeviceDriver.cc:452-477 | The driver's update is the value-level update |
| DriverObject.DeviceDriver.IsAllowed | src/sst/elements/cramSim/c_DeviceDriver.cc:487-537 | The permission and the possibly queued ACT are the value-level ones |
| DriverObject.DeviceDriver.PushCommand | src/sst/elements/cramSim/c_DeviceDriver.cc:929-940 | The push and its result are the value-level ones |
| DriverObject.DeviceDriver.IssuedActs | src/sst/elements/cramSim/c_DeviceDriver.cc:912-922 | The loop adds up a rank's tracker |
| DriverObject.DeviceDriver.TrySend | src/sst/elements/cramSim/c_DeviceDriver.cc:627-659 | An entry is sent exactly when its bank allows it, and leaves the queue, marks the ACT and takes the bus |
| DriverObject.DeviceDriver.MarkEntry | src/sst/elements/cramSim/c_DeviceDriver.cc:581-611 | A visited entry blocks its bank and its address, and may proceed exactly when neither was blocked and an ACT has room in the window |
| DriverObject.DeviceDriver.VisitEntry | src/sst/elements/cramSim/c_DeviceDriver.cc:566-664 | The body of the loop of sendRequest is the value-level step |
| DriverObject.DeviceDriver.SendRequests | src/sst/elements/cramSim/c_DeviceDriver.cc:555-664 | The scan of the input queue is the value-level scan |
| DriverObject.DeviceDriver.OpenBanks | src/sst/elements/cramSim/c_DeviceDriver.cc:979-985 | The banks listed for the PRE are exactly those not closed |
| DriverObject.DeviceDriver.QueueActs | src/sst/elements/cramSim/c_DeviceDriver.cc:1011-1030 | An ACT is put in front of the queue for each listed bank whose first queued command is a column command |
| DriverObject.DeviceDriver.Targets | src/sst/elements/cramSim/c_DeviceDriver.cc:950-964 | The banks of the next refresh are the rank's, or its next one |
| DriverObject.DeviceDriver.CreateRefreshCmds | src/sst/elements/cramSim/c_DeviceDriver.cc:947-1030 | The created commands, the next bank and the queued ACTs are the value-level ones |
| DriverObject.DeviceDriver.AllAllow | src/sst/elements/cramSim/c_DeviceDriver.cc:681-692 | The loop answers whether every bank of the command allows it |
| DriverObject.DeviceDriver.SendToAll | src/sst/elements/cramSim/c_DeviceDriver.cc:694-711 | The loop sends the command to every bank of its vector |
| DriverObject.DeviceDriver.SendRefreshCmd | src/sst/elements/cramSim/c_DeviceDriver.cc:672-721 | sendRefresh is the value-level one |
| DriverObject.DeviceDriver.RefreshOne | src/sst/elements/cramSim/c_DeviceDriver.cc:398-416 | The refresh work of one rank is the value-level one |
| DriverObject.DeviceDriver.RefreshRanks | src/sst/elements/cramSim/c_DeviceDriver.cc:398-416 | The loop over the ranks is the value-level one |
| DriverObject.DeviceDriver.RunCycle | src/sst/elements/cramSim/c_DeviceDriver.cc:398-446 | run, up to the forwarding of finished commands, is the value-level run |
| Converter.PolicyExact | src/sst/elements/cramSim/c_TxnConverter.cc:206-315 | Exactly which commands each row policy sends for a transaction, in terms of the row that the stream has left open and of the pseudo-open timer |
| Converter.TransactionLegal | src/sst/elements/cramSim/c_TxnConverter.cc:181-346 | A transaction of one column command keeps the stream legal for the row-buffer automaton and the tracked row equal to the automaton's, with exactly one column command and at most three commands |
| Converter.ManyColumnsExact | src/sst/elements/cramSim/c_TxnConverter.cc:181-193 | A transaction of two or more column commands gives a legal stream if and only if no round of it activates the row again |
| Converter.TwoColumnsFail | src/sst/elements/cramSim/c_TxnConverter.cc:206-248 | A transaction of two column commands under the open policy activates an open bank |
| Converter.AgeTracks | src/sst/elements/cramSim/c_TxnConverter.cc:154-159 | The aging of the pseudo-open timer keeps the tracked row exact |
| Controller.RoundCoversAll | src/sst/elements/cramSim/c_CmdScheduler.cc:95-134 | A round of a channel under the BANK policy visits every queue of the channel exactly once, from any start |
| Controller.RoundIsOrder | src/sst/elements/cramSim/c_CmdScheduler.cc:95-134 | The round of a channel is the visits of its queues, one after the other, in the order in which they are counted |
| Controller.PushAllFits | src/sst/elements/cramSim/c_CmdScheduler.cc:136-147 | With room for all of them, pushing a transaction's commands appends them and refuses none |
| Controller.QueueOfBank | src/sst/elements/cramSim/c_CmdScheduler.cc:149-156 | The queue index of a command is its bank |
| Controller.ConvertInv | src/sst/elements/cramSim/c_TxnConverter.cc:126-161 | Converting a transaction keeps every bank's stream legal, tracked and accounted for |
| Controller.VisitInv | src/sst/elements/cramSim/c_CmdScheduler.cc:95-134 | Offering a queue's head to the driver keeps every bank's stream accounted for |
| Controller.AgeInv | src/sst/elements/cramSim/c_TxnConverter.cc:154-159 | Aging the open rows keeps the invariant |
| ControllerObject.MemController.constructor | src/sst/elements/cramSim/c_TxnConverter.cc:48-115 | The controller starts empty, with all rows closed, in the invariant |
| ControllerObject.MemController.PreCommands | src/sst/elements/cramSim/c_TxnConverter.cc:206-248 | The row commands before a column command, and the tracked timer, are the value-level ones |
| ControllerObject.MemController.PostCommands | src/sst/elements/cramSim/c_TxnConverter.cc:250-315 | The column command and the closing command are the value-level ones |
| ControllerObject.MemController.GetCommands | src/sst/elements/cramSim/c_TxnConverter.cc:181-204 | The loop over the column commands gives the value-level commands |
| ControllerObject.MemController.UpdateRowInfo | src/sst/elements/cramSim/c_TxnConverter.cc:317-346 | The tracked row after a transaction is the value-level one |
| ControllerObject.MemController.PushCommands | src/sst/elements/cramSim/c_TxnConverter.cc:137-146 | The loop pushes the commands in order and reports whether each was accepted |
| ControllerObject.MemController.ConvertAt | src/sst/elements/cramSim/c_TxnConverter.cc:126-161 | Converting one transaction is the value-level step, and under the invariant the push assertion at line 143 cannot fail |
| ControllerObject.MemController.RunConverter | src/sst/elements/cramSim/c_TxnConverter.cc:126-161 | The pass over the pending transactions is the value-level pass |
| ControllerObject.MemController.AgeRows | src/sst/elements/cramSim/c_TxnConverter.cc:154-159 | The loop ages every tracked row |
| ControllerObject.MemController.VisitQueue | src/sst/elements/cramSim/c_CmdScheduler.cc:95-134 | One visit offers the head, and takes it out exactly when the driver accepted it |
| ControllerObject.MemController.VisitChannel | src/sst/elements/cramSim/c_CmdScheduler.cc:95-134 | The loop over a channel's queues is the value-level round |
| ControllerObject.MemController.RunScheduler | src/sst/elements/cramSim/c_CmdScheduler.cc:95-134 | The pass over the channels is the value-level pass |
| ControllerObject.MemController.ClockTic | src/sst/elements/cramSim/c_Controller.cc:152-222 | A controller cycle keeps the invariant and is the value-level cycle that the theorems about runs are about |
| MapString.RoundTrip | src/sst/elements/cramSim/c_AddressHasher.cc:529-578 | Printing any list of fields and parsing the string gives the fields back, last first, with their sizes |
| MapString.SeparatedRoundTrip | src/sst/elements/cramSim/c_AddressHasher.cc:58-63 | The same with an underscore around every field, which is stripped first |
| MapString.ParseOutcome | src/sst/elements/cramSim/c_AddressHasher.cc:73-82 | For every string, by its characters: the parse aborts exactly when the string is not legal; a legal string gives tokens when it is empty or begins with a letter, and otherwise the loop never ends |
| MapString.SizeFirstDiverges | src/sst/elements/cramSim/c_AddressHasher.cc:73-82 | The string 8r is one on which the loop never ends |
| MapString.ScanLegal | src/sst/elements/cramSim/c_AddressHasher.cc:529-578 | One pattern fails exactly when it meets a character that may not stand where it stands |
| MapString.ScanShortens | src/sst/elements/cramSim/c_AddressHasher.cc:529-578 | A match takes a non-empty suffix that begins with a field letter off the string |
| MapString.ParsePattern | src/sst/elements/cramSim/c_AddressHasher.cc:529-578 | The backward loop over the string is the recursive scan |
| MapString.ParseMap | src/sst/elements/cramSim/c_AddressHasher.cc:73-82 | The loop over the string collects the tokens, aborts or runs for ever exactly as the recursive parse says |
| AddressMap.PlacedAscends | src/sst/elements/cramSim/c_AddressHasher.cc:73-82 | The bit positions of a field strictly ascend and lie within the map |
| AddressMap.Partition | src/sst/elements/cramSim/c_AddressHasher.cc:73-82 | Every bit position of the map belongs to exactly one field |
| AddressMap.PlaceAll | src/sst/elements/cramSim/c_AddressHasher.cc:73-82 | The loop over the tokens gives every field its positions |
| AddressMap.ExtractField | src/sst/elements/cramSim/c_AddressHasher.cc:278-291 | The shift-and-or loop reads the number formed by the bits at the field's positions, and never shifts by a negative amount |
| AddressMap.FillHashedAddress | src/sst/elements/cramSim/c_AddressHasher.cc:273-414 | Every field of the hashed address is the number at its positions, and zero for a field that the map does not name |
| AddressMap.Injective | src/sst/elements/cramSim/c_AddressHasher.cc:273-414 | Two addresses within the map that agree on every field and on the ignored bits are equal |
| AddressMap.FieldValue | src/sst/elements/cramSim/c_AddressHasher.cc:273-414 | A field that one token names is the address shifted by the widths of the tokens behind it, modulo two to its own width |
| AddressMap.DefaultLayout | src/sst/elements/cramSim/c_AddressHasher.cc:55-82 | From the lowest bits up the default map places the cache line, the bank group, the rank, the bank, the column and the row |
| AddressMap.Radix | src/sst/elements/cramSim/c_AddressHasher.cc:397-408 | The sums of products for the bank and rank identifiers are nested mixed-radix numbers |
| AddressMap.IdsWired | src/sst/elements/cramSim/c_DeviceDriver.cc:296-331 | The bank identifier names an existing bank whose rank and channel in the wired hierarchy are those of the address, and its digits are the fields |
| AddressMap.HashWellFormed | src/sst/elements/cramSim/c_AddressHasher.cc:273-414 | With a matching geometry every address hashes to an existing bank, wired to its rank and channel |
| AddressMap.HashOfParts | src/sst/elements/cramSim/c_AddressHasher.cc:452-521 | Hashing the address built from bank fields gives these fields back and zero elsewhere |
| AddressMap.SplitBankId | src/sst/elements/cramSim/c_AddressHasher.cc:416-450 | Repeated subtraction gives in-range digits whose mixed-radix number is the bank identifier |
| AddressMap.DepositField | src/sst/elements/cramSim/c_AddressHasher.cc:452-464 | The loop spreads a value over the positions of its field |
| AddressMap.AddressForBankId | src/sst/elements/cramSim/c_AddressHasher.cc:416-521 | Hashing the address for a bank identifier gives the identifier again, for every bank of a matching geometry, in row, column and line zero |
| AddressMap.Build | src/sst/elements/cramSim/c_AddressHasher.cc:52-271 | build ends with the positions of the effective tokens if the checks on the structure sizes pass, aborts if they do not, and hangs exactly when the parse loop does |
| AddressMap.SumSizes | src/sst/elements/cramSim/c_AddressHasher.cc:73-82 | The loop adds up the sizes of every letter |
| AddressMap.ConfiguredSizes | src/sst/elements/cramSim/c_AddressHasher.cc:98-121 | A simple map's sizes are the configured ones, once per letter however often it occurs |
| AddressMap.AllSimple | src/sst/elements/cramSim/c_AddressHasher.cc:89-96 | The loop answers whether no field has more than one bit |
| AddressMap.SimpleMatches | src/sst/elements/cramSim/c_AddressHasher.cc:98-262 | A simple map that passes the checks has exactly the geometry's bits if and only if no bank field is written twice, unless its count is one |
| AddressMap.TwiceNamed | src/sst/elements/cramSim/c_AddressHasher.cc:98-262 | On one rank of two banks the string b:0b passes all checks, gives the bank field two bits and does not match the geometry |
| Softmax.OnlineParts | baseline/attention_cluster/attention_cluster.py:66-81 | For every cut of a row into non-empty windows the online loop ends with plain softmax attention of the row |
| Softmax.TreeParts | baseline/reuse_window_flash_attention/reuse_window_flash_attention.py:64-96 | For every cut of a row into non-empty windows summaries and tree merge end with plain softmax attention of the row |
| Softmax.Cut | baseline/attention_cluster/attention_cluster.py:68-70 | The key windows are of one width, the last possibly shorter, and together the row |
| Softmax.OnlineRow | baseline/attention_cluster/attention_cluster.py:66-81 | For every row and every window width the online loop ends with plain softmax attention |
| Softmax.TreeRow | baseline/reuse_window_flash_attention/reuse_window_flash_attention.py:64-96 | For every row and every window width the tree merge ends with plain softmax attention |
| Softmax.Attention | baseline/attention_cluster/attention_cluster.py:54-97 | For all heads and rows, grouped heads included, and for either way of combining windows, the output is full attention |
| Softmax.AttentionHead | baseline/attention_cluster/attention_cluster.py:61-81 | The same for the rows of one head |
| Softmax.OnlineStep | baseline/attention_cluster/attention_cluster.py:68-78 | One window takes a summary of the earlier items to a summary of all of them |
| Softmax.MergePair | baseline/reuse_window_flash_attention/reuse_window_flash_attention.py:83-93 | Two summaries of neighbouring item lists become a summary of their concatenation |
| Softmax.MergeLevel | baseline/reuse_window_flash_attention/reuse_window_flash_attention.py:77-94 | One level of the tree covers the same items in half as many summaries, rounded up |
| Softmax.TreeMerge | baseline/reuse_window_flash_attention/reuse_window_flash_attention.py:77-94 | The loop ends with one summary of all items |
| Softmax.Summarise | baseline/reuse_window_flash_attention/reuse_window_flash_attention.py:67-76 | A window's maximum, sum and product are a summary of its items |
| Softmax.Normalised | baseline/attention_cluster/attention_cluster.py:79-81 | The normaliser of a summary is positive, and dividing by it gives plain softmax attention |
| Softmax.Rescaled | baseline/attention_cluster/attention_cluster.py:73-77 | Scaling a summary to a larger maximum gives the sums at that maximum |
| Softmax.MassShift | baseline/attention_cluster/attention_cluster.py:85-97 | Moving the reference point scales every sum of exponentials by the same factor |
| Schedule.PlaceKeeps | baseline/attention_cluster/attention_cluster.py:155-193 | Placing a window keeps products and softmaxes of a worker disjoint in time and its two score slots exclusive |
| Schedule.TwoScoreSlots | baseline/attention_cluster/attention_cluster.py:158-190 | No three windows of a worker wait between product and softmax end at one time |
| Schedule.KeyOrder | baseline/attention_cluster/attention_cluster.py:154-193 | The windows of a row window are handled in key order on one worker, each softmax ending before the next starts |
| Schedule.WindowCoverage | baseline/attention_cluster/attention_cluster.py:127-155 | There is exactly one window per key/value head, key window and row window |
| Schedule.QkWork | baseline/attention_cluster/attention_cluster.py:155-193 | Disjoint work cannot end before its share per worker, for products and for softmaxes |
| Schedule.CeilLeast | baseline/attention_cluster/attention_cluster.py:100-101 | The rounded-up quotient is the least number of cycles that cover the work |
| PvSchedule.QkRow | baseline/attention_cluster/attention_cluster.py:155-201 | One window is placed and its two blocks handed to their workers |
| PvSchedule.QkKey | baseline/attention_cluster/attention_cluster.py:154-201 | One key window places one window per row window and lists each block once, at its worker, in ascending order |
| PvSchedule.QkHead | baseline/attention_cluster/attention_cluster.py:127-201 | One head does so for every key window, after its prefetches |
| PvSchedule.PvList | baseline/attention_cluster/attention_cluster.py:215-241 | The batches of a worker hold its listed blocks once, disjoint in time and in order |
| PvSchedule.PvKey | baseline/attention_cluster/attention_cluster.py:205-241 | The workers of a key window together batch every block of the head once |
| PvSchedule.PvHead | baseline/attention_cluster/attention_cluster.py:205-241 | The same for all key windows of a head |
| PvSchedule.BuildSchedule | baseline/attention_cluster/attention_cluster.py:104-258 | In the timeline every row block of every head is in exactly one PV batch of every key window, a batch starts only after the softmax of its blocks has reached it, the batches of a block follow in key order, and the reported floors are below the last cycle |
| PvSchedule.ExactlyOnce | baseline/attention_cluster/attention_cluster.py:205-241 | Every row block of every head is in exactly one PV batch of every key window, and no other block is |
| PvSchedule.AfterProducers | baseline/attention_cluster/attention_cluster.py:194-226 | A PV batch starts only after the softmax of each of its blocks, for the same head, key window and row window, has reached its worker |
| PvSchedule.BlockOrder | baseline/attention_cluster/attention_cluster.py:215-241 | The PV batches of a row block follow each other in key order |
| PvSchedule.PvWork | baseline/attention_cluster/attention_cluster.py:215-241 | Disjoint PV work cannot end before its share per worker |
| PvSchedule.FloorsHold | baseline/attention_cluster/attention_cluster.py:243-258 | The last cycle is at least the reported QK and PV floors, and at least the softmax floor when a window's softmax takes 2048 cycles or more |
| DmaEngine.EveryTransferExact | src/sst/elements/balar/dmaEngine.cc:84-305 | In every run, for any responses in any order, a transfer that has left the queue carried every byte of its range exactly once and no other byte if and only if its size is a multiple of the transfer size or smaller than it; and it was answered exactly once, unless posted |
| DmaEngine.Overrun | src/sst/elements/balar/dmaEngine.cc:91-187 | A run in which a transfer of five bytes, four at a time, finishes and has carried a byte past its end |
| DmaEngine.EveryRunCounts | src/sst/elements/balar/dmaEngine.cc:84-187 | In every run the counter of a queued transfer is the number of its outstanding memory requests, which were issued in consecutive blocks, and a queued transfer is not answered |
| DmaEngine.RunInv | src/sst/elements/balar/dmaEngine.cc:84-305 | Every run keeps the invariant of queue, identifiers, blocks and answers |
| DmaEngine.OwnerQueued | src/sst/elements/balar/dmaEngine.cc:241-305 | A response never meets a transfer that is gone |
| DmaEngine.AcceptInv | src/sst/elements/balar/dmaEngine.cc:198-234 | An accepted transfer overlaps no queued one and keeps the invariant |
| DmaEngine.TickInv | src/sst/elements/balar/dmaEngine.cc:84-187 | A clock edge keeps the invariant |
| DmaEngine.RespondInv | src/sst/elements/balar/dmaEngine.cc:241-305 | A response to an outstanding request always finds its transfer and keeps the invariant |
| DmaEngine.EnoughExact | src/sst/elements/balar/dmaEngine.cc:96-119 | The blocks of a transfer end exactly at its size if and only if the size is a multiple of the transfer size or smaller than it |
| DmaData.DoneDelivers | src/sst/elements/balar/dmaEngine.cc:241-277 | In every run, whatever the responses bring and whatever else is in flight, when a transfer into the simulator's memory is done each byte of its range was carried by one response and holds what that response brought, if the transfers into the memory are aligned |
| DmaData.DoneCopies | src/sst/elements/balar/dmaEngine.cc:241-277 | In particular a transfer whose responses bring what the SST side holds copies it |
| DmaData.BlocksApart | src/sst/elements/balar/dmaEngine.cc:95-126 | No byte of a transfer is in two of its blocks |
| DmaData.FinishedSent | src/sst/elements/balar/dmaEngine.cc:91-187 | In every run with aligned transfers into the simulator's memory, a finished transfer out of it, aligned or not, has written every byte of its range exactly once, at its place on the SST side, with the value that the byte had when the transfer was accepted |
| DmaData.SentOriginal | src/sst/elements/balar/dmaEngine.cc:91-126 | Every block sent carries what its part of the range held when the transfer was accepted, whatever else was in flight |
| DmaData.SourceKept | src/sst/elements/balar/dmaEngine.cc:198-234 | While a transfer out of the simulator's memory is queued, no other transfer changes the bytes that it reads |
| DmaData.OnlyOwn | src/sst/elements/balar/dmaEngine.cc:198-234 | A byte in the range of a queued transfer changes only by that transfer's own responses |
| DmaData.ChunkInside | src/sst/elements/balar/dmaEngine.cc:96-119 | The blocks issued for a queued transfer of an aligned size stay within it |
| DmaObject.DMAEngine.constructor | src/sst/elements/balar/dmaEngine.cc:27-65 | The engine starts with an empty queue |
| DmaObject.DMAEngine.HandleWrite | src/sst/elements/balar/dmaEngine.cc:198-234 | A transfer is queued exactly when its transfer size is not zero and it overlaps no queued one, and is then the value-level one |
| DmaObject.DMAEngine.Gather | src/sst/elements/balar/dmaEngine.cc:103-106 | The copy loop reads the bytes from the address on |
| DmaObject.DMAEngine.IssueNext | src/sst/elements/balar/dmaEngine.cc:91-152 | The next request of a transfer goes to its SST address plus its offset, carries the simulator's bytes at that offset or asks for as many, and is the value-level one |
| DmaObject.DMAEngine.ClockTick | src/sst/elements/balar/dmaEngine.cc:84-187 | A clock edge is the value-level one; the requests sent are the blocks issued, in order, and the writes carry the bytes that the memory holds |
| DmaObject.DMAEngine.EraseDone | src/sst/elements/balar/dmaEngine.cc:179-183 | Exactly the finished transfers leave the queue, the others keep their order |
| DmaObject.DMAEngine.Settle | src/sst/elements/balar/dmaEngine.cc:262-273 | The counter, the status and the identifier map change as the value-level response says |
| DmaObject.DMAEngine.HandleWriteResp | src/sst/elements/balar/dmaEngine.cc:282-305 | A known identifier is settled, an unknown one is the fatal error and changes nothing |
| DmaObject.DMAEngine.CopyIn | src/sst/elements/balar/dmaEngine.cc:251-260 | The copy loop stores the data from the target on and changes nothing else |
| DmaObject.DMAEngine.HandleReadResp | src/sst/elements/balar/dmaEngine.cc:241-277 | The data lands at the transfer's simulator address plus the response's distance from its SST address, wrapping below zero, then the response is settled |
| PagePool.LinearApart | src/sst/elements/ariel/arielmemmgr_cache.h:114-122 | The pages of a pool are distinct and share no byte |
| PagePool.MapPagesLinear | src/sst/elements/ariel/arielmemmgr_cache.h:114-122 | The loop lists the pages in address order |
| PagePool.MapPagesRandom | src/sst/elements/ariel/arielmemmgr_cache.h:124-154 | Whatever the generator yields, the swaps give a permutation of the pages |
| PagePool.PermutationKeeps | src/sst/elements/ariel/arielmemmgr_cache.h:124-154 | A permutation of distinct pages has the same pages, each once |
| SimpleManager.TranslationInjective | src/sst/elements/ariel/arielmemmgr_simple.cc:93-150 | Under a one-to-one table of disjoint pages distinct addresses have distinct physical addresses |
| SimpleManager.Manager.TranslatesApart | src/sst/elements/ariel/arielmemmgr_simple.cc:93-150 | After any operations, distinct mapped addresses have distinct physical addresses |
| SimpleManager.Manager.constructor | src/sst/elements/ariel/arielmemmgr_simple.cc:23-46 | All pages are free, in order or permuted, and nothing is mapped or cached |
| SimpleManager.Manager.Allocate | src/sst/elements/ariel/arielmemmgr_simple.cc:52-91 | The unmapped addresses of the rounded size are mapped to the first free pages, in order; a mapped one keeps its mapping and the page taken for it is lost; it fails exactly when there are too few pages; free, mapped and lost pages stay the pool |
| SimpleManager.Manager.CacheTranslation | src/sst/elements/ariel/arielmemmgr_cache.h:186-195 | The new entry is in, the cache stays within its bound and agrees with the table, and another entry goes only when the cache was full |
| SimpleManager.Manager.Translate | src/sst/elements/ariel/arielmemmgr_simple.cc:93-150 | Cached or not, the answer is the table's; a mapped address changes nothing, an unmapped one takes the first free page, and it fails exactly when there is none |
| MallocBook.LookupExact | src/sst/elements/ariel/arielmemmgr_malloc.cc:271-285 | The upper-bound lookup finds the malloc that contains an address exactly when there is one, and the page of it that holds the address |
| MallocBook.Floor | src/sst/elements/ariel/arielmemmgr_malloc.cc:273-275 | The found key is the greatest one not above the address, if any |
| MallocBook.WithOk | src/sst/elements/ariel/arielmemmgr_malloc.cc:203-217 | A new malloc that shares no address with a live one keeps the books and the mallocs disjoint |
| MallocBook.WithoutOk | src/sst/elements/ariel/arielmemmgr_malloc.cc:227-247 | Forgetting a malloc keeps the books and the mallocs disjoint |
| MallocManager.WalkInjective | src/sst/elements/ariel/arielmemmgr_malloc.cc:271-310 | Distinct addresses, in mallocs or demand-mapped, at any level, walk to distinct physical addresses |
| MallocManager.FreeKeeps | src/sst/elements/ariel/arielmemmgr_malloc.cc:227-247 | Freeing a malloc returns exactly its pages: at every level, free, malloc-mapped and demand-mapped pages stay a partition of the pool |
| MallocManager.TakeKeeps | src/sst/elements/ariel/arielmemmgr_malloc.cc:203-217 | Mapping a malloc from the front of a free list keeps that partition and the one-to-one mapping |
| MallocManager.DemandKeeps | src/sst/elements/ariel/arielmemmgr_malloc.cc:109-165 | A demand mapping keeps that partition |
| MallocManager.Manager.constructor | src/sst/elements/ariel/arielmemmgr_malloc.cc:23-85 | The levels occupy consecutive ranges of physical memory, with all pages free, in address order or, whatever the generator yields, permuted |
| MallocManager.Manager.FreeMalloc | src/sst/elements/ariel/arielmemmgr_malloc.cc:227-247 | An unknown address changes nothing; otherwise exactly that malloc is forgotten and the front of its level's free list gets back as many pages as it had keys |
| MallocManager.Manager.Release | src/sst/elements/ariel/arielmemmgr_malloc.cc:237-242 | The loop unmaps exactly the keys and collects their pages, each once |
| MallocManager.Manager.FreeContaining | src/sst/elements/ariel/arielmemmgr_malloc.cc:179-191 | The live malloc that contains the address is freed, if there is one, and no other |
| MallocManager.Manager.MapMalloc | src/sst/elements/ariel/arielmemmgr_malloc.cc:194-222 | The malloc is mapped, to the first free pages of its level, exactly when there are enough of them, else nothing changes |
| MallocManager.Manager.AllocateMalloc | src/sst/elements/ariel/arielmemmgr_malloc.cc:176-222 | A malloc that contains the new address is freed first; the new one is live exactly when the level then has enough pages; every other malloc stays as it was |
| MallocManager.Manager.MapPages | src/sst/elements/ariel/arielmemmgr_malloc.cc:203-217 | The loop maps the keys to the first free pages in order and notes their malloc |
| MallocManager.Manager.Walk | src/sst/elements/ariel/arielmemmgr_malloc.cc:271-310 | The walk finds exactly the spot of an address: in its malloc, else in the first level that maps it, else nowhere |
| MallocManager.Manager.Demand | src/sst/elements/ariel/arielmemmgr_malloc.cc:318-339 | An unmapped address gets a page of the default level, else of the first level with a free page; it fails exactly when no level has one |
| MallocManager.Manager.Translate | src/sst/elements/ariel/arielmemmgr_malloc.cc:271-345 | On a cache miss a mapped address changes nothing; otherwise one page is mapped and the address then walks to the answer; it fails exactly when nothing maps the address and no page is free |
| StaleCache.FreeExact | src/sst/elements/ariel/arielmemmgr_malloc.cc:227-266 | A cached translation that is right stays right when a malloc is freed if and only if its address is not in that malloc |
| StaleCache.MapExact | src/sst/elements/ariel/arielmemmgr_malloc.cc:194-266 | It stays right when a malloc is mapped if and only if its address is not in the new malloc |
| StaleCache.DemandExact | src/sst/elements/ariel/arielmemmgr_malloc.cc:287-340 | It stays right when a page is mapped on demand if and only if its address is in a malloc, is mapped by an earlier level or is not on that page |
| StaleCache.StaleHit | src/sst/elements/ariel/arielmemmgr_malloc.cc:227-266 | A page malloced, cached and freed leaves an entry that no walk confirms |
| StaleCache.CachedManager.constructor | src/sst/elements/ariel/arielmemmgr_cache.h:87-91 | The cache starts empty |
| StaleCache.CachedManager.FreeMalloc | src/sst/elements/ariel/arielmemmgr_malloc.cc:227-247 | The cache is left alone and exactly the entries in the freed malloc stop being right |
| StaleCache.CachedManager.MapMalloc | src/sst/elements/ariel/arielmemmgr_malloc.cc:194-222 | The cache is left alone and exactly the entries in the new malloc stop being right |
| StaleCache.CachedManager.TranslateAddress | src/sst/elements/ariel/arielmemmgr_malloc.cc:250-345 | A hit answers with the entry and changes nothing; a miss gives a right answer and caches it; it fails exactly when the walk does |
| StaleCache.CachedManager.Missed | src/sst/elements/ariel/arielmemmgr_malloc.cc:270-345 | The answer behind the cache is right |
| StaleCache.CachedManager.CacheTranslation | src/sst/elements/ariel/arielmemmgr_cache.h:186-195 | The new entry is in and the cache stays within its bound, another entry going only when it was full |
| FenceLog.FenceOrders | src/sst/elements/ariel/arielcore.cc:278-293 | In a safe history a transaction sent after a fence comes after the answer to every transaction sent before the fence |
| ArielCore.Core.FencesHold | src/sst/elements/ariel/arielcore.cc:278-293 | After any operations, the core's own history has this order |
| ArielCore.SplitCovers | src/sst/elements/ariel/arielcore.cc:536-608 | An access becomes at most two adjacent non-empty pieces that cover it, trimmed to a line; the first stays within its physical line and two meet at a line boundary |
| ArielCore.Core.constructor | src/sst/elements/ariel/arielcore.cc:28-111 | The core starts with nothing outstanding |
| ArielCore.Core.Commit | src/sst/elements/ariel/arielcore.cc:146-161 | A transaction is sent, counted and recorded as outstanding |
| ArielCore.Core.HandleEvent | src/sst/elements/ariel/arielcore.cc:221-243 | An answer to an outstanding transaction removes exactly it, and the last one lifts a fence; an unknown one is the fatal error |
| ArielCore.Core.PassFence | src/sst/elements/ariel/arielcore.cc:278-293 | A fence stalls the core exactly when something is outstanding |
| ArielCore.Core.Refill | src/sst/elements/ariel/arielcore.cc:407-528 | Events move from the trace to the queue in order, those of an instruction together, until the queue has its length or the trace is dry, and no instruction is read once it has |
| ArielCore.Core.CommitAll | src/sst/elements/ariel/arielcore.cc:536-608 | The pieces of an access are sent in order; the outstanding transactions never exceed the limit by more than one |
| ArielCore.Core.ProcessNextEvent | src/sst/elements/ariel/arielcore.cc:765-916 | The next event is taken up, with exactly its transactions, its fence or its request to the memory manager, unless the trace is dry or an access finds no slot |
| ArielCore.Core.Serve | src/sst/elements/ariel/arielcore.cc:788-901 | An event sends exactly its transactions, passes its fence, halts the core or goes to the memory manager, and counts as an instruction if it is one |
| ArielCore.Core.Issue | src/sst/elements/ariel/arielcore.cc:928-941 | The issue loop takes up events in order, as many as it may unless the core halts, stalls, runs dry or out of slots |
| ArielCore.Core.Tick | src/sst/elements/ariel/arielcore.cc:921-953 | A cycle takes up events in order, sends exactly their transactions and hands exactly their allocations to the memory manager; it halts core 0 when the instruction limit is reached; every run keeps the history safe and the outstanding transactions within the limit plus one |
| PalaPrefetch.StrideDetected | src/sst/elements/cassini/palaprefetch.cc:47-83 | Accesses at a constant distance make the stride known after exactly three steps, and it stays known |
| PalaPrefetch.TouchRecent | src/sst/elements/cassini/palaprefetch.cc:85-111 | Touching the truncated queue is truncating the touched queue of the whole history |
| PalaPrefetch.RecentDistinct | src/sst/elements/cassini/palaprefetch.cc:85-111 | The recency list holds exactly the tags of the history, each once |
| PalaPrefetch.PalaPrefetcher.constructor | src/sst/elements/cassini/palaprefetch.cc:234-275 | The table, the queue and the history start empty |
| PalaPrefetch.PalaPrefetcher.NotifyAccess | src/sst/elements/cassini/palaprefetch.cc:30-119 | After every access the queue and the table hold exactly the most recent address_count - 1 distinct tags of the history, most recent first; the tag's filter is stepped or created, the others are untouched, and a prefetch is due every strideDetectionRange accesses |
| PalaPrefetch.PalaPrefetcher.MoveToFront | src/sst/elements/cassini/palaprefetch.cc:85-99 | The traversal moves the tag to the front and keeps the others in order |
| PalaPrefetch.PalaPrefetcher.Touch | src/sst/elements/cassini/palaprefetch.cc:38-105 | Exactly the tag's filter changes and the tag comes to the front |
| PalaPrefetch.PalaPrefetcher.Evict | src/sst/elements/cassini/palaprefetch.cc:107-111 | A table that has reached its count loses exactly its least recent tag |
| PalaPrefetch.PalaPrefetcher.DispatchRequest | src/sst/elements/cassini/palaprefetch.cc:121-231 | A line is prefetched exactly when it is on the page of the access, or pages may be overrun, and it is not in the history of prefetched lines, which then remembers it and forgets its oldest; the alignment assertion of the overrun mode fails exactly when the target is not the start of a line |
| PalaPrefetch.PalaPrefetcher.Remember | src/sst/elements/cassini/palaprefetch.cc:199-206 | The history of prefetched lines stays bounded and free of duplicates |
| DeviceObject.Banks.constructor | src/sst/elements/cramSim/c_DeviceDriver.cc:296-331 | The device starts with every bank idle and an empty history |
| DriverObject.DeviceDriver.CountActs | src/sst/elements/cramSim/c_DeviceDriver.cc:557-563 | The loop takes every rank's count |
| DriverObject.DeviceDriver.FirstQueued | src/sst/elements/cramSim/c_DeviceDriver.cc:1012-1028 | The search finds the first queued command of a bank, if any |
| DriverObject.DeviceDriver.FillRefreshQueue | src/sst/elements/cramSim/c_DeviceDriver.cc:977-1009 | The rank's queue becomes the PRE for the open banks, if any, and the REF for all |
| DmaObject.DMAEngine.Find | src/sst/elements/balar/dmaEngine.cc:244-249 | The transfer of a queued key is found |
| SimpleManager.Manager.MapOne | src/sst/elements/ariel/arielmemmgr_simple.cc:69-84 | The first free page is mapped, or lost when the address is mapped already, and free, mapped and lost pages stay the pool |
| MallocManager.Manager.MapOne | src/sst/elements/ariel/arielmemmgr_malloc.cc:135-156 | The first free page of the level is mapped for the page of the address |
| AddressMap.Positions | src/sst/elements/cramSim/c_AddressHasher.cc:76-79 | The loop gives a token the next positions |
| AddressMap.LetterField | src/sst/elements/cramSim/c_AddressHasher.cc:278-292 | A field is the number at its positions, and zero if the map does not name it |
| AddressMap.DivideBySubtraction | src/sst/elements/cramSim/c_AddressHasher.cc:428-431 | Repeated subtraction gives quotient and remainder |
| Softmax.WindowMax | baseline/attention_cluster/attention_cluster.py:72-72 | The maximum is one of the window's scores and none is above it |
| Softmax.WindowSum | baseline/attention_cluster/attention_cluster.py:75-76 | The sum is that of the window's exponentials at the reference point |
| Softmax.WindowProduct | baseline/attention_cluster/attention_cluster.py:75-77 | The product is that of the window's exponentials with its values |
| Softmax.Divide | baseline/attention_cluster/attention_cluster.py:79-81 | Every component is divided by the normaliser |
| Softmax.ScaleAndAdd | baseline/reuse_window_flash_attention/reuse_window_flash_attention.py:89-93 | Two vectors are scaled and added component by component |
| Softmax.Score | baseline/attention_cluster/attention_cluster.py:71-71 | A score is the scaled dot product of query and key |
| Softmax.Scores | baseline/attention_cluster/attention_cluster.py:71-71 | A row's scores, in key order, each with its value |

## Left out

- The response path: the driver's output queue, the DIMM, response events and quick responses of the controller.
- The transaction scheduler, which is an arbitrary source of well-formed transactions here; `EndToEnd.InputDrained` states what the converter's assertion needs of it.
- The RANK scheduling policy, whose index arithmetic does not visit every queue.
- Overflow of the 64-bit cycle counter and of 64-bit addresses.
- EndToEnd.EveryTransactionAccounted: transactions with no or several column commands are not part of the end-to-end runs; `Converter.ManyColumnsExact` says exactly when several give a legal stream. That every transaction is served in the end is not claimed: it is false in general, as `Starvation.EveryRankStarves` shows, and a bound on the wait in runs that do serve it is not modelled.
- EndToEnd.EveryRunOnBus: counts a refresh command to the channel that the driver computes for it; `EndToEnd.EveryRunOnWiredBus` is by the wired channel, for the geometries in which the two agree.
- Device.RunTimingSafe: column-to-column distances are claimed for runs without auto-precharge only; with it they fail, as `AutoGap.AutoTooEarly` shows, and for which parameters is not stated. For commands of one kind `DataAssertion.RunKindsApart` has them for every run.
- EndToEnd.EveryBurstApart: is about runs without auto-precharge, for the same reason, as is `DataBus.BurstsNeverOverlap`.
- Softmax.Attention: float32 rounding is not modelled, and the scale is a parameter.
- PvSchedule.BuildSchedule: the event records, byte counts and double-buffer labels are not part of the timeline; they gate nothing.
- PvSchedule.FloorsHold: the softmax floor, which counts 2048 cycles per window, is claimed for 2048 or more softmax cycles per window only.
- The timeline and the traffic bounds of the reuse-window baseline, which would only add easy members.
- DmaObject.DMAEngine.HandleWrite: an invalid direction, a fatal error when the transfer is visited, is not a value of the model.
- DmaData.DoneDelivers: asks, as do `DmaData.FinishedSent`, `DmaData.SentOriginal` and `DmaData.SourceKept`, that the transfers into the simulator's memory are of aligned sizes; an unaligned one writes past its end, as `DmaEngine.Overrun` shows, and may reach another transfer. A response brings as many bytes as were asked for.
- Page tables of the memory managers populated from a file.
- MallocManager.Manager.AllocateMalloc: is asked for a non-empty malloc that meets no live malloc other than the one containing its start; mallocs that reach into a later live one would share keys with it.
- MallocManager.Manager.constructor: asks for pages of eight bytes or more, as does `SimpleManager.Manager.constructor`, so that a demand mapping is one page; a translation cache of no entries, which the source would erase from, is not modelled.
- ArielCore.Core.ProcessNextEvent: RTL events, memory-manager interrupts and write payloads are not modelled.
- ArielCore.Core.Tick: asks for a queue of at least one event.
- PalaPrefetch.PalaPrefetcher.constructor: a table of at least two entries is assumed.
- LoneRuns.OpenAssertionExact: with ACTs of two bus cycles the first READ comes one cycle later, and only the failing half is claimed, in `LoneRuns.OpenAssertionFails`; the other row policies and runs with refresh have the sufficient condition of `EndToEnd.EveryDataAssertion`.
- Starvation.EveryRankStarves: is about all-bank refresh; its converse is claimed on one rank, in `RefreshWindow.StarvationExact`.
- Energy and power sums, trace generators, histograms and statistics.
