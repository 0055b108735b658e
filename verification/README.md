# The concurrent and durable core of a message-broker node, in Dafny

A node takes Streams in through Receive Locations, keeps them in its Ledger, routes
each as a Message to the Journeys that want it, and sends each Journey on through a
Send Port's Send Locations. This project models what that work shares and what it
must not lose: counted resources, a pool of threads, a receive loop, shared reads of
one Stream, per-key sequences, leased claims, admission to the Send pool, retry and
failover, chunked writes, debatching, acknowledgement, and what a paused Subscription
holds. `dafny verify dfyconfig.toml` checks all of it.

## How it is modelled

Code that runs under one lock, or as one write of Xmip Storage, is one step. A module
for something shared gives its `State`, its `Step`s, `Next` (None where a step waits
or is not possible) and `Run` over any sequence of steps, so that a statement about
`Run(Initial, steps) == Some(s)` is about every interleaving of threads, nodes,
failures, late or lost answers, restarts and crashes the steps allow. Each module
keeps an invariant through every step and states its theorems over whole runs. What a
state keeps of its run beside what the source has, to say what happened, its comment
says.

Code that changes things in place is also a class or a loop here: `Budgets.Budget`,
`Pools.Pool`, `Serving.Serve`, `SharedReads.Shared` and `SharedReads.Lent`,
`Sequence.Memo` and `Sequence.Journey`, `SendStep.Admission`, `Departure.Departing`, `Ledger.WriteStream`,
`Split.Splitting`, `MessagePath.Node`, `HeldWork.PickUpReleased` and `Pickups.Pickup`, each proved
against the same specification functions the theorems are about.

| file | models |
|---|---|
| `Budget.dfy`, `NodeBudget.dfy` | charges held from a budget, and a node's budgets as its tuning sizes them |
| `Pool.dfy` | the growing and shrinking pool of threads |
| `Receiving.dfy`, `Serving.dfy` | every Location's receive loop over shared budgets; the loop itself |
| `StreamShare.dfy`, `BehindAgain.dfy`, `Migration.dfy`, `SharedReads.dfy`, `Shares.dfy` | shared reads of one Stream, a run in which one joined is past already, why moving between them ends, the same in place, and one set of them a Stream |
| `QueueNames.dfy`, `Sequence.dfy` | what a sequence is called, and who heads it |
| `SequenceLines.dfy`, `SequenceProgress.dfy`, `GroupProgress.dfy`, `GroupWaits.dfy` | waiting in many sequences at once: the lines, what takes places in them, exactly when it stays in order and always goes on, and two that wait for each other for ever |
| `Claims.dfy`, `Fences.dfy` | claims with leases across nodes; who may send under them, and what far ends see |
| `SendStep.dfy` | admission to the Send pool |
| `Sending.dfy`, `Departure.dfy` | which Locations a Port tries, and retry and failover over whole runs |
| `Ledger.dfy`, `Split.dfy`, `MessagePath.dfy` | chunked writes and reading back, all-or-nothing splitting, acknowledgement and crashes |
| `HeldWork.dfy`, `Pickup.dfy` | a paused Subscription's queue and its move to a Send Port's; the node's Subscriptions in place |
| `Wrappers.dfy`, `Sums.dfy` | options, results and sums the others share |

## What the proofs found

- **A budget's sum fits in 64 bits exactly where twice the budget does** (`Budgets.SumsFitExactly`).
- **A far end is told in order, its Location may hear of it out of order**: on an
  ordered transport the turn passes with the telling, and what is told is sent to the
  loop after it. The loop is given arrivals in the order they came exactly where no
  telling was sent while one told before it was not (`Receiving.GivenInOrderExactly`,
  `Receiving.MayGoOutOfOrderExactly`, `Receiving.ALaterArrivalIsGivenFirst`).
- **A polled Receive Location that found nothing holds the places it asked for while it
  rests**: a loop that may ask waits exactly where the loops and the arrivals hold every
  place there is (`Receiving.AskWaitsExactly`), so on a node of one place a Location
  waits for another's rest with nothing arrived at all (`Receiving.ARestHoldsBackAnother`).
- **A departure fallen behind may be behind again**: exactly where another's look, in a
  take begun before, goes past its place on the read it picked before it joins it
  (`StreamShare.BehindAgainExactly`, `BehindAgain.MayBeBehindAgain`).
- **The memo of heads may let a place on against the Ledger**: one taken once exactly where
  it is remembered at the head, was let go of since, and its queue is not empty
  (`Sequence.LetOnOnlyOnceGone`).
- **Two deliveries of one Send Port Group may wait for each other for ever.** A Message
  opened to wait takes its delivery's place in the Group's sequence in one write and its
  own at its Send Port in the next; one a Work Process publishes takes both at once,
  even behind the other's delivery, and so may be first at the Port and second in the
  Group (`GroupWaits.ADeliveryIsOvertaken`, `GroupWaits.TheyWaitForEver`). A step leaves
  the two orders one exactly where it takes no places at once past a Message waiting
  for its own in that Group's sequence (`GroupProgress.AlignedStepByStep`,
  `GroupProgress.AlignedExactly`); while none does, some Message always goes on
  (`GroupProgress.SomeMessageGoesOn`).
- **A Journey claimed again by the node that sends it lets its earlier departure go on.**
  What a node owns is by Journey, what it sends under is by claim. Where a scan's claim
  is granted once the first has lapsed, the Journey is owned under the later one, and the
  earlier departure passes the check before a Location by the later one's standing:
  it may tell the far end an earlier fence after a later one, and send once the outcome is
  final. A departure passes so exactly where its claim is not its Journey's last
  (`Fences.LastClaimExactly`); none does while no Journey is owned twice on one node, which
  is exactly while each departure stands under its own claim (`Fences.OwnedOnceExactly`);
  and wherever one is, the later lease running, each of these comes about
  (`Fences.TheEarlierGoesOn`, `Fences.AJourneyIsTakenUpAgain`).
- **A queue's text is shared** by two points exactly where a name holds a slash
  (`QueueNames.SharedExactlyBySlashes`).
- **An admitted place leaks** where a scan finds a Message a move has put in its Port's
  queue and not handed on yet: the hand-on takes the scan's mark for its own, and the
  scan's refused claim gives nothing back. Places are conserved but for exactly these
  (`SendStep.PlacesAreConserved`, `SendStep.OrphansLeakOrAreTaken`,
  `SendStep.NoPlaceLeaksExactly`, `SendStep.APlaceLeaks`), for good
  (`SendStep.EveryPlaceLeakedIsForGood`).
- **A queue left for want of a place may wait with room there**: exactly from a step that
  notes it after a place freed, or frees one by taking less than was admitted, until a
  step asks for it, reads it or takes the room (`SendStep.ForgottenExactly`,
  `SendStep.ANoteMayComeTooLate`).
- **A departure may overtake a held Message** of its Subscription, one counted included:
  the Subscription lets a departure go at once exactly where as many holds moved before
  they were counted, each taken off for another, as are here and counted or were never
  taken off (`HeldWork.DepartsAtOnceExactly`, `HeldWork.OvertakesOnlyTheUncounted`,
  `HeldWork.AnUncountedHoldIsOvertaken`, `HeldWork.ACountedHoldIsOvertaken`).
- **A Subscription may hold what it matches with nothing in its queue** and nothing left
  to count: its last hold moved before it was counted (`HeldWork.TheCountIsExact`,
  `HeldWork.AnEmptyQueueHolds`).
- **A held Message may wait unnoticed**: exactly where a page read to the end of the
  queue is taken after another Message was written to it and counted, which clears what
  that count set (`HeldWork.TakenShortExactly`, `HeldWork.AHoldMayWaitUnnoticed`). The
  next Publication, resume or restart finds it.
- **Losing the only chunk of an empty Stream is not noticed**, and reads back as what was
  written all the same (`Ledger.ReadsBack`).

## Model

| member | source | states |
|---|---|---|
| Budgets.Conserved | src/budget.rs:96-173 | however holds, splits and drops interleave, what is held is the sum of the live charges and never above the most |
| Budgets.NeverSaturates | src/budget.rs:131-139 | letting a live charge go gives back exactly that charge: the saturating subtraction never saturates |
| Budgets.OversizedGoesAlone | src/budget.rs:96-107 | a charge of the whole budget or more enters exactly when nothing is held, holds all of it, and nothing enters beside it |
| Budgets.AWaiterWaitsForADrop | src/budget.rs:96-139 | over any run in which a waiting hold comes to be able to go on, some step was the drop of a charge above nothing, the one that wakes every waiter, before which it waited and after which it could go on |
| Budgets.EveryWaiterGoesOnAtLast | src/budget.rs:96-173 | from every reachable state the drops of the live charges are a run after which nothing is held and any hold goes on |
| Budgets.SumsFitExactly | src/budget.rs:96-107 | the sum a hold tests fits in 64 bits in every reachable state exactly where twice the budget does |
| Budgets.Budget.Hold | src/budget.rs:96-107 | the wait loop: what the node does meanwhile leaves no room until the hold goes on, which it does at the first state with room |
| Budgets.Budget.HoldUpTo | src/budget.rs:113-125 | the same for a hold up to an amount, given one at least, no more than wanted, and less only where that fills the budget |
| Budgets.Budget.Split | src/budget.rs:159-166 | the part and what is left are live and sum to the charge before |
| NodeBudgets.CarriesBoundTheBytes | src/budget.rs:191-211 | a carry with its place among the carries never waits for bytes exactly where the budget is eight chunks a carry or more, or there is one carry |
| NodeBudgets.StreamingSendsNeverWait | src/budget.rs:191-225 | as sized by default, a send that streams never waits for bytes while the Send pool has a thread free |
| Pools.EveryRunKeepsInv | src/pool.rs:98-204 | in every reachable state the threads are those starting, awake, running, asleep and woken; one at least and at most the most until closed; pieces queued number at most the threads waiting, awake or starting unless the pool is at its most; and while a thread sleeps each has a wake on its way |
| Pools.StartsInOrder | src/pool.rs:122-187 | pieces start in the order given, each once; those not started are the queue; and once no thread is left all have started |
| Pools.NeverStranded | src/pool.rs:122-187 | with work queued the pool has a step of its own to take |
| Pools.DroppedPoolDrains | src/pool.rs:148-204 | a dropped pool's threads take boundedly many steps, and where none is left every thread has ended with every piece started |
| Pools.Pool.Serve | src/pool.rs:162-187 | a thread's section: it takes the first piece, ends after its idle time or once closed, or waits |
| Receiving.NeverDeadlocks | src/receiving.rs:265-302 | for any Locations, ordered or not, any pools and any two budgets: every reachable state with an arrival not told has a step some arrival can take |
| Receiving.EveryArrivalIsTold | src/receiving.rs:127-302 | the arrivals take boundedly many steps in any order, and where none can take another every one handed over was told |
| Receiving.LoopIsExact | src/receiving.rs:127-239 | the count is those whose telling was not sent to the loop and those on its channel, never above the pool's most; a receive is asked for one at least and within that room; an ordered one only with every far end told |
| Receiving.NodeIsBounded | src/receiving.rs:127-302 | across every Location the untold never exceed the carry budget, nor the bytes carried the byte budget |
| Receiving.ToldInOrder | src/receiving/turn.rs:26-58 | on an ordered transport the arrival that may be told next has exactly those that came before it told, over every receive |
| Receiving.GivenInOrderExactly | src/receiving/telling.rs:27-54 | an ordered Location's loop hears of its arrivals in the order they came exactly where no step of the run sent a telling while an earlier arrival was told and its telling not sent |
| Receiving.MayGoOutOfOrderExactly | src/receiving/telling.rs:27-54 | in order so far, the next step may go out of order exactly where two arrivals are told and their tellings not sent |
| Receiving.ALaterArrivalIsGivenFirst | src/receiving/telling.rs:27-54 | a run in which the second arrival of an ordered receive is given first |
| Receiving.AskWaitsExactly | src/receiving.rs:167-196 | a loop that may ask waits exactly where the loops' own places and the arrivals' are every place of the node; with every arrival's let go, the loops' alone |
| Receiving.ARestHoldsBackAnother | src/receiving.rs:167-196 | a run in which a Location waits to ask with nothing arrived anywhere, for one that rests |
| Serving.Serve | src/receiving.rs:127-256 | each arrival taken is given to `each` exactly once before the loop returns, on error too, in whatever order the tellings were sent; on an ordered transport all of one receive before any of a later one; every ask is within the room, and what it ends with is the first error |
| Serving.OneAtATimeInOrder | src/receiving.rs:127-256 | where no receive of an ordered transport hands over more than one, the arrivals are given in the order they came |
| StreamShare.RefinesAPlainRead | src/stream_share.rs:149-276 | under any interleaving of opening, beginning a take, looking, falling behind, choosing a read, joining it, moving and leaving, what each departure gave is a prefix of the Stream, what it took is the length of the chunks before its place, and what it holds continues there |
| StreamShare.EndsOnlyAtTheEnd | src/stream_share.rs:228-272 | the end is answered only once every byte was given, as many as the record keeps |
| StreamShare.BehindAgainExactly | src/stream_share.rs:149-181 | a departure is behind the read it joined exactly where another's look went past its place there between its picking the read and its joining it, and the read has not failed; fallen behind before, that is what it sees next |
| BehindAgain.MayBeBehindAgain | src/stream_share.rs:149-249 | a run in which a departure falls behind and is behind the next read it joins, another taking meanwhile in a take begun before |
| StreamShare.Pick | src/stream_share.rs:155-180 | of the reads seen, the first of those most departures take from that reached, or none where none did |
| StreamShare.LookKeepsRead | src/stream_share/one_read.rs:127-168 | one turn at a read keeps its window the Stream's own chunks, and a chunk lent is the Stream's at that place |
| Migration.MigrationEnds | src/stream_share.rs:186-209 | while no departure joins a read anew, those moving, falling behind and leaving number at most a bound on the counts of the reads it began with |
| Migration.MovedSums | src/stream_share.rs:186-209 | a move raises the sum of the squares of the counts, or leaves it and takes a departure to a read opened before, none being let go of |
| SharedReads.Lent.Read | src/stream_share.rs:251-272 | whatever the other departures take meanwhile, the bytes given are exactly those that follow; none only at the Stream's end; a failure gives nothing, and there is none while Storage answers and has what the record keeps |
| SharedReads.Shared.Joined | src/stream_share.rs:149-181 | the search joins the read it picked, the first of those most departures share of the ones that reached its place as each was looked at, or one opened for it, the others going on meanwhile; with none going on, it is not behind |
| SharedReads.Shared.Moved | src/stream_share.rs:186-209 | it moves to the first read that draws it, busy ones passed over, or stays, every other departure where it was |
| SharedReads.Shared.Chunk | src/stream_share/one_read.rs:127-168 | the loop ends with the Stream's chunk at that place, its end, a failure, or the departure behind, every departure that did not look where it was |
| Shares.SharedByStream | src/stream_share.rs:100-131 | of two departures in flight the reads are the same exactly where the Stream is |
| Shares.ReadAnew | src/stream_share.rs:100-131 | a Stream read again after its last departure let go is read anew |
| QueueNames.KeysAreOneToOne | src/work_step/keys.rs:56-88 | no two tuples of values write the same key |
| QueueNames.KeyReadsBack | src/work_step/keys.rs:56-88 | a key's text reads back as the values it was written from, whatever they hold |
| QueueNames.QueuesAreOneToOne | src/sequence.rs:120-128 | at points named without a slash, two queues' texts are equal exactly where the point, the Correlation and every value are |
| QueueNames.SharedExactlyBySlashes | src/sequence.rs:120-128 | a point's text is shared with another plainly named one exactly where its own name or its Correlation's holds a slash |
| Sequence.MemoIsSound | src/sequence.rs:266-316 | over every run, the memo's clearing and restarts included, a place held and taken once is answered to head exactly where all written before it were let go of, and a page read in the middle of a write lets nothing through that does not |
| Sequence.OneHeadsAQueue | src/sequence.rs:266-288 | at most one held place heads a queue |
| Sequence.PassInLedgerOrder | src/sequence.rs:266-288 | once a place heads, every place written before it has gone and never comes back |
| Sequence.LetOnOnlyOnceGone | src/sequence.rs:266-316 | a place taken no more than once is let on against the Ledger exactly where it is remembered, let go of, its queue not empty |
| Sequence.StreamHeadsThemAll | src/sequence.rs:330-341 | a Stream held once in each of its sequences is answered to head them all exactly where it does |
| Sequence.Memo.StreamHeads | src/sequence.rs:330-341 | the loop over a Stream's sequences, the memo changing on the way |
| Sequence.Received | src/sequence.rs:165-195 | the loop gives a Stream a place of its origin's in the queue of each of its points, in their order, or none at all where a key lacks a part; a failure lets the rest pass where any point says so |
| Sequence.Journey.Placed | src/sequence.rs:225-244 | the loop tells the Journey each place as it is found, up to the first key that lacks a part, and takes them only where every key is whole |
| SequenceProgress.SomeStreamHeads | src/sequence.rs:165-190 | in every reachable state with live Streams one heads every sequence it is in |
| GroupProgress.AlignedStepByStep | src/sequence.rs:201-218 | with every Message at its destination behind those of the deliveries before its own in their Group's sequence, a step leaves them so exactly where it takes no places at once through a Group in whose sequence a Message waits for its own |
| GroupProgress.AlignedExactly | src/work_step/acts.rs:186-248 | at every state of a run they are so exactly where no step of it took places so |
| GroupProgress.SomeMessageGoesOn | src/sequence/late.rs:39-120 | over end-to-end sequences, Send Port Groups' and destinations together, after a run no step of which took places so, with a Message still to end, one can take its delivery's place or its own, or end |
| GroupProgress.AllCanEnd | src/sequence/late.rs:39-120 | and a run from there ends every Message, every delivery and every Stream |
| GroupWaits.TheyWaitForEver | src/send_step/pass.rs:288-303 | of a Message holding a place at its destination and one of a delivery before its own that is to take, or has taken since, a later place in the same queue, neither ends in any later state |
| GroupWaits.ADeliveryIsOvertaken | src/work_step/acts.rs:186-248 | a run that comes to two such Messages: a Work Process publishes between the two writes of the other's places |
| Fences.LastClaimExactly | src/send_step/renewal.rs:77-86 | a departure that passes the check before a Location is tried is under an earlier claim than its Journey's last exactly where it passes by another claim's standing; any other's claim is the last, and held in Xmip Storage now; requests and answers late or lost, clocks apart |
| Fences.OwnedOnceExactly | src/send_step/admission.rs:120-129 | at every state of a run each Journey sent is owned under its departure's own claim exactly where no step owned a Journey its node owned already |
| Fences.OneNodeMaySend | src/send_step.rs:140-166 | two departures of one Journey, on whatever nodes, pass the check together only where one passes by another claim's standing; never where no Journey was owned twice |
| Fences.FencesRiseExactly | src/send_step/pass.rs:71-105 | the far end is told fences of a Journey that only rise exactly where no step started a send by another claim's standing after one under a later fence |
| Fences.FencesRise | src/send_step/pass.rs:71-105 | where no Journey was owned twice, of two sends of one the later carries the later fence, or both the same; on any run one fence is one claim's |
| Fences.HandOnUnderTheLiveClaim | src/send_step/pass.rs:186-258 | a hand-on takes effect only under the last claim granted, with no send under a later fence; a departure of the Journey passes the check then exactly where it passes by another claim's standing, none where no Journey was owned twice |
| Fences.NoSendOnceDone | src/send_step/under_claim.rs:35-60 | once a Journey's outcome is final a departure of it, from any node in any later state, passes the check exactly where it passes by another claim's standing; none where no Journey was owned twice |
| Fences.SendsAfterAnOutcome | src/send_step/pass.rs:71-150 | once an outcome was written under a fence, so with every departure under it or an earlier one |
| Fences.TheEarlierGoesOn | src/departure.rs:207-251 | from every reachable state in which a node is about to own a Journey it sends, the later claim's lease running: the run that owns it and sends under both tells an earlier fence after a later one, and the run that owns it and writes the later one's outcome, final or not, leaves the earlier departure passing the check |
| Fences.AJourneyIsTakenUpAgain | src/send_step/scan.rs:85-115 | a run that comes to such a state |
| SendStep.PlacesAreConserved | src/send_step/admission.rs:52-151 | over every run the places admitted are those a Publication, a move or a scan still has and one for each leak, and with what is owned never above the pool's most |
| SendStep.OrphansLeakOrAreTaken | src/send_step/scan.rs:85-115 | each Message marked by a scan that a move handed on meanwhile is being claimed still, was taken up all the same, or leaked the scan's place |
| SendStep.NoPlaceLeaksExactly | src/send_step/admission.rs:120-141 | at rest every place is free but those leaked, and all of them exactly where every such Message was taken up all the same |
| SendStep.APlaceLeaks | src/send_step/scan.rs:85-115 | a run in which a move's Message is scanned before its hand-on, and a place is gone at rest |
| SendStep.EveryPlaceLeakedIsForGood | src/send_step/admission.rs:110-119 | a node that leaked every place has room for none in any later state |
| SendStep.LinedUpIs | src/send_step.rs:298-335 | every Message queued in its order; those claimed are sent from here, each in its own queue under its own token, the first of them before the later |
| SendStep.Admission.LineUp | src/send_step.rs:298-335 | the loop claims exactly the first of those sent here that the pool admits |
| SendStep.HandedIsOwnedOrAsked | src/send_step.rs:344-387 | every Message queued is owned here once handed in, or its queue asked for; and the places become what is owned |
| SendStep.Admission.HandIn | src/send_step.rs:344-387 | the two loops of `handed`, over the state they change |
| SendStep.Admission.PickUp | src/held_work.rs:71-163 | whatever Storage answers a place taken is handed on or given back, a scan's mark for the Message taken with it; a Message moved is owned here or its queue asked for; any other outcome changes neither |
| SendStep.FreedAsksAgain | src/send_step/admission.rs:66-163 | every step that gives places back, an unused Publication's claims included, asks again for every queue left for want of one |
| SendStep.ForgottenStepByStep | src/send_step/dispatch.rs:50-84 | a queue noted and not read since stands with room and unasked after a step exactly where the step overlooked it, or it stood so and the step did not mend it, both told from the step's guard |
| SendStep.ForgottenExactly | src/send_step/dispatch.rs:50-84 | over every run exactly where some step overlooked the queue and none since mended it |
| SendStep.ANoteMayComeTooLate | src/send_step/scan.rs:100-115 | a run that leaves a queue so, everything at rest |
| Sending.Served | src/sending.rs:138-158 | the Ports served are exactly those with a Location here that are designed, or bound by a Location no Port names; the loop names none twice |
| Sending.ServedHasLocations | src/sending.rs:107-188 | a Port is served exactly where one of the Locations its design names, or its own, is on the node |
| Departure.TriesAreBounded | src/departure.rs:178-251 | over any passes each Location is tried at most as often as its Port allows, in configured order; the tries end, and at their most the send is over |
| Departure.PassKeeps | src/departure.rs:207-251 | one pass tries each Location once at most, consecutively from where it stood, each try taking one from the measure |
| Departure.RestartChangesNothing | src/departure.rs:138-162 | a send rebuilt from its Journey before any of its passes tries the same Locations and ends the same, its fence aside |
| Departure.UnwrittenPassesTryAgain | src/send_step/pass.rs:71-150 | a pass whose hand-on was not written adds at most one try of each Location |
| Departure.OverAtLast | src/departure.rs:178-251 | once as many passes were answered and written as the Locations have tries together, the send was sent or is given up |
| Departure.OverStaysOver | src/departure.rs:178-184 | sent and given up are absorbing: no later pass tries anything |
| Departure.Departing.DepartPort | src/departure.rs:207-251 | the loop over a Port's Locations, changing where the send stands |
| Ledger.WriteStream | src/ledger.rs:177-241 | whatever the chunk size and the short reads, what is kept is the content's chunks, the record written once, with the last of them and only after all was read; a failure leaves a proper prefix and no record |
| Ledger.ChunksAreTheContent | src/ledger.rs:177-223 | the chunks are the content in order, all but the last full, the last empty only where the content is, as many as its length says |
| Ledger.ReadsBack | src/ledger.rs:88-159 | what was written reads back as written exactly where no chunk was lost or nothing was written, and never as anything else |
| Ledger.Fill | src/ledger.rs:228-241 | a whole chunk however short the reads, or all that is left |
| Split.Whole | src/split.rs:214-238 | for a compositional unit the answer depends on the Sections' bytes alone, not on chunk size, Section ends or short reads |
| Split.AllOrNothing | src/split.rs:142-206 | every record a part in order, placed from one to the count; or exactly the refused records with their places, in their order, and nothing made |
| Split.TookIs | src/split.rs:142-161 | what is written is the parts before the first record refused, and every record is counted |
| Split.RefusedIs | src/split.rs:142-161 | the failures gathered are exactly the refused records at their places |
| Split.Splitting.Write | src/split.rs:142-161 | the loop over the records taken |
| Split.LinesAreCompositional | src/fixture/lines.rs:17-46 | a record a line is a compositional unit |
| MessagePath.AcknowledgedIsKept | src/message_path.rs:154-207 | whatever a crash leaves at any point of any run, a cycle acknowledged has its Publication, every chunk before it, and its Journeys or its Dead Message Queue entry |
| MessagePath.EverySurvivorIsWhole | src/ledger.rs:18-24 | every Publication a crash leaves has its whole Stream |
| MessagePath.SeenIsDurable | src/departure.rs:306-355 | whatever a far end was sent, handed on before its sync or taken up by a scan, survives every crash |
| MessagePath.PublishedOnce | src/ledger/publication.rs:138-232 | no two Publications are of one cycle |
| MessagePath.Node.Carry | src/message_path.rs:154-207 | a cycle ends Completed exactly where its Publication was taken and kept, its chunks and then its Publication synced; with a Dead Message Queue entry exactly where nothing matched; any other acknowledges nothing |
| HeldWork.EachInOneQueue | src/held_work.rs:71-163 | across publications, pauses, resumes, restarts and answers failed, lost or late, each held Message is in exactly one queue and moved at most once |
| HeldWork.NoneMovesAhead | src/held_work.rs:45-163 | a Message moved, or its move asked for, has none before it in the queue but those passed over as unreadable |
| HeldWork.NoneLandsAhead | src/held_work.rs:107-163 | one whose move lands late has none before it but those passed over when it was asked for |
| HeldWork.DepartsAtOnceExactly | src/pickup/holding.rs:48-90 | over every run a departure goes at once exactly where the Subscription runs and as many were taken off early as are here and counted, or counted and never taken off |
| HeldWork.OvertakesOnlyTheUncounted | src/pickup/holding.rs:48-115 | what departs at once passes only Messages not counted yet exactly where as many were taken off before they were counted as were counted and never taken off |
| HeldWork.AnUncountedHoldIsOvertaken | src/pickup/holding.rs:48-115 | a run in which one not counted is passed |
| HeldWork.ACountedHoldIsOvertaken | src/pickup/released.rs:88-95 | a run in which one counted is passed, one before it moved before its count |
| HeldWork.TheCountIsExact | src/pickup/released.rs:88-95 | the count is of what the queue holds and was counted exactly where as many moved early as were never taken off; and of all it holds, those uncounted beside it, exactly where none is stale and each moved uncounted was taken off |
| HeldWork.AnEmptyQueueHolds | src/pickup/holding.rs:92-115 | a run in which a Subscription holds what it matches with nothing in its queue and nothing to count |
| HeldWork.NothingWaitsUnnoticed | src/pickup/released.rs:34-86 | while no page read to the end is taken with more written and counted since it was read, what is counted and ahead of the reading is being read or is to be |
| HeldWork.TakenShortExactly | src/pickup/released.rs:34-86 | a page taken leaves a counted Message unnoticed exactly where it was read to the end and one numbered since it was read is counted and there |
| HeldWork.AHoldMayWaitUnnoticed | src/pickup/released.rs:34-86 | a run in which it does |
| HeldWork.PickUpReleased | src/held_work.rs:45-59 | a Message is picked up unless one before it of its Subscription failed; that one and all after it are read again, and no other Subscription waits |
| Pickups.Pickup.constructor | src/pickup.rs:95-147 | every Subscription stands as a restart leaves it: its standing kept, read from its start where it holds anything |
| Pickups.Pickup.Act | src/pickup.rs:178-243 | a pause or resume changes one Subscription as its step does, and none where it is not configured, stands so already, or was not written |
| Pickups.Pickup.Holding | src/pickup/holding.rs:48-90 | of a Publication's Messages exactly those of a Subscription paused or holding are held; every other departs |
| Pickups.HeldIs | src/pickup/holding.rs:56-90 | a Subscription paused or holding holds every Message opened for it, any other none |
| Pickups.Pickup.Published | src/pickup/holding.rs:97-115 | each Subscription counts as many as it held of the Publication, and one running is woken |
| Pickups.Pickup.Take | src/pickup/released.rs:34-86 | a page taken changes its Subscription as its step does, and nothing where it was paused or set back since |
| Pickups.Pickup.Again | src/pickup/released.rs:176-189 | a Message to be read again sets its Subscription back to its place, as its step does |
| Pickups.Pickup.Settle | src/pickup/released.rs:90-199 | a Message moved or passed over is settled, as its step does |

## Left out

- Fences.OneNodeMaySend: a request is served at most once, and clocks run at one rate; a send already under way when its claim lapses is not called back, here as in the source, so the statement is about sends starting.
- Fences.OwnedOnceExactly: a claim may be asked for at any time, as a Publication, a move and a scan each do without knowing what another has on its way; which of them asks when is SendStep's.
- Fences.NoSendOnceDone: an operator's Retry of a failed Message is a Journey not final, so it is outside this statement.
- Sequence.MemoIsSound: for a place taken once, as the source takes each, a late one only while its Journey has none.
- GroupProgress.SomeMessageGoesOn: a Message that blocks after failing is one still to end, as is one of a delivery with such a member; an operator's Retry or Dismiss is outside it.
- GroupProgress.AlignedExactly: it is of the order places are taken in; out of order, Messages wait for each other for ever where they share a queue at their destination, as stated, or through others in a longer circle, which is not.
- GroupWaits.ADeliveryIsOvertaken: a delivery has one place in its Group's sequence, however many of its members' writes name it; what Xmip Storage makes of the later ones is not part of this model.
- QueueNames.QueuesAreOneToOne: a text's own number (`named`) is taken to differ where the text does, and a value's length is counted in the model's characters, bytes in the source.
- Departure.TriesAreBounded: the Port's policy and Locations stay as they are over the run, and an operator's Retry, which sets a failed Journey's attempts back, begins a send anew outside it.
- Departure.OverStaysOver: an operator's Retry of a Journey given up is outside it, as it is a send begun anew.
- Ledger.WriteStream: the number of chunks is unbounded here and 32 bits in the source; the digest is what it took in, in order, not SHA-256.
- Ledger.ReadsBack: the chunk reader of Xmip Storage is not part of this model beyond its contract: the chunks in order to the first it has not, held to the record's length.
- Split.Whole: the Message each part becomes carries more context than its place and count.
- MessagePath.AcknowledgedIsKept: a crash leaves a prefix of what was written, at least as far as it was synced; what is written out of order on the medium is Xmip Storage's.
- HeldWork.EachInOneQueue: one Subscription, its queue numbered without gaps; it rests on Xmip Storage's contract that a hand-on lets go of one place and takes the other in one write, that a place let go of stays so, and that a Journey queued again where it has a place keeps that place.
- SendStep.PlacesAreConserved: what each send is audited and figured as is not modelled; owning a moved Message and putting it in the pool's queue, two sections of `hand`, are one step.
- StreamShare.BehindAgainExactly: a move's join and its leave, both under the lock of the reads, are one step; a read left may keep a departure's few chunks a look longer in the source.
- StreamShare.RefinesAPlainRead: the wait of a read for one behind it is a step not taken yet; how long it waits (`STREAM_STALL`) is not modelled.
- Receiving.NeverDeadlocks: it says a step can be taken, not that the scheduler takes it; fairness and freedom from starvation are not claimed, nor is how long a Location rests.
- Pools.EveryRunKeepsInv: a piece of work that panics ends like any other here; the counting guard that makes it so is not modelled.
- The identify, authenticate, authorize and promote gates, the transports, engines, audit text and the operate plane: environments that answer or refuse.
- A Work Process's turns (src/work_step.rs) beyond the Messages it opens and the places they take.
- Startup, configuration, certificates, secrets and the C boundary: finite checks and other crates' substance.
