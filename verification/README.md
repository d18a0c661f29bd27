# A trunking receiver, modelled and proved

This project models the control logic of a P25 trunking receiver: a radio that listens to a
control channel, collects the talkgroups announced there, hops to one of them, follows the call,
and comes back. Four parts are modelled as one system that exchanges messages on FIFO queues.

- **Policy** (`Policy.dfy`): a timed state machine (control, traffic, paused) with one running
  sample timer.
- **Talkgroup selection** (`Talkgroups.dfy`): candidates, frequencies, ages on a wrapping clock,
  encrypted groups, a filter, and a weighted-sum argmax.
- **Receiver task** (`Receiver.dfy`, `RecvTask.dfy`): the two parts above, the tuning, the channel
  parameters, and the messages sent to the hub, the SDR and the audio task.
- **Hub** (`Hub.dfy`): a copy of the receiver's state folded from its messages, and a broadcast to
  at most four subscribers.

Each object of the source is a class whose methods change its fields with the source's own
branches and loops. A method's contract equates the object's new `View()` with a function of the
old one. The properties are lemmas about those functions, over arbitrary runs:

| file | what is proved there |
|---|---|
| `Words.dfy` | wrapping arithmetic is arithmetic modulo the number of words |
| `Policy.dfy` | how often a choice is asked for, how voice units pay for pauses, what the timer holds |
| `TalkgroupLog.dfy` | the candidate state is a function of a log of accepted grants |
| `Scoring.dfy` | what ages and scores mean in true time, and exactly when the wrapping clock misleads |
| `Priorities.dfy` | what priority, age and reward are worth against each other, and when priorities decide |
| `Encryption.dfy` | encrypted groups die out |
| `Filtering.dfy` | exactly which groups are candidates, from the calls alone |
| `Decoding.dfy`, `Collecting.dfy` | what each kind of decoded message does to the receiver |
| `Holding.dfy` | how voice keeps a visit going |
| `Calls.dfy` | the receiver drives policy and selection only by calls, so the results above hold inside it |
| `Tuning.dfy`, `Pacing.dfy` | tuning invariant, exact timer, bounded return to control, spacing of selections |
| `Silence.dfy` | on which channel a long silence ends, exactly |
| `Reaching.dfy` | concrete runs from the start to a visit, used to show that counterexamples are reached |
| `Provenance.dfy` | site isolation; encrypted groups over the air |
| `Outline.dfy`, `HopLog.dfy`, `Audio.dfy` | order of messages, separation of visits, one decoder per visit |
| `Replica.dfy`, `Network.dfy` | the hub's copy with messages in flight, at every interleaving |

`Receiver.dfy` splits each incoming message into stimuli (a clock advance, a NID, a grant, a
timer tick and so on), in the order in which the code acts on them. `After(r, ms, n)` is the
receiver after the first `n` stimuli, `Boot(c)` a receiver that has just started, and a property
"of every run" quantifies over `c`, `ms` and `n`. The methods of `RecvTask` are proved to perform
exactly these stimuli.

## Assumptions

- The message decoder may return anything for each sample: a chunk of baseband is the list of what
  the decoder returns. Channel parameters map an id to a value, and the receive frequency of a
  channel is an arbitrary function `rxFreq` of the parameters and the channel number.
- Queues are unbounded and sends on them succeed. A message that announces channel parameters
  carries the decoded id and parameters instead of the raw block.
- `usize` is a word of `bits` bits, for any `bits`. The clock wraps, as the source says. The timer's
  plain addition is also written as wrapping (a release build); wherever a result depends on its
  not overflowing, the condition is `Fits`, and `TimerIsExact` shows that the sum then never
  reaches the end of the word (so that a debug build would not stop either).
- Scores are real numbers. The filter, the preempting set, the priorities and the weights are
  arbitrary but fixed for a run; the program itself leaves the preempting set empty
  (`src/main.rs`, line 242), which is the condition `preempt == {}` below.
- A task's handling of one received message is one step of the interleaving in `Network.dfy`. A
  receiver only appends to queues, so a consumer that takes a message earlier sees the same one.
  Other senders to the hub send no state messages.
- In the hub, `broken` is, for each event, an arbitrary set of connections whose write fails. The
  code offers some events without writing anything; for parameter updates the model says so, for
  the other kinds `broken` may be taken as empty, so every behaviour of the code is covered.

## Statements that look true and are not

Each has a lemma that gives the exact condition, and one that shows a run on which it fails.

- *No candidate is encrypted.* True of a run iff every call that recorded a candidate was followed
  by a successful selection or by clearing the state (`CleanIffMadeGood`, and `ReceiverCleanIff`
  for a running receiver; fails in `EncryptedCandidateIsSelected`).
- *The hub's state equals the receiver's.* The hub never forgets what an earlier site announced:
  equal iff nothing is stale (`ReplicaSimulation`; fails in `MovingLeavesCopyStale`).
- *Two visits are always separated by an end of transmission.* Iff the later one began on control
  (`TransmissionEndsIff`; fails in `SharedDecoderIsReachable`).
- *`oldest()` is the largest age.* Iff that age fits a word and no wrap of the clock lies between
  the candidates (`OldestExactIff`; fails in `OldestMisleads`).
- *A long silence ends on control.* It passes through control, but a choice made there can leave
  again. It ends on control iff the last visit begun in it, if any, was recalled by a termination,
  by encryption or by a change of site, or has lasted for the watchdog time (`SilenceEndsIff`;
  fails in `SilenceCanEndOffControl`).
- *Resuming from a pause goes on as before.* A terminator pauses iff a voice unit has come since
  the visit began or was resumed (`PausesIff`; fails in `ResumedIgnoresTerminator`). Counted over a
  visit this gives `PauseCounting`.

Where comments and code differ the code is followed: the comment on `recent` speaks of a set of
groups with time stamps (`src/talkgroups.rs`, line 119), but the field is a single group; and the
comment on `select_idle` speaks of non-preempting candidates (line 58), but it chooses among all.

## Model

| member | source | states |
|---|---|---|
| Words.WrappingIsModular | src/talkgroups.rs:128-153 | `wrapping_add` and `wrapping_sub`, written by repeated subtraction, are sum and difference modulo 2^bits |
| Words.WrapSubOnce | src/talkgroups.rs:167 | the wrapped difference of two wrapped stamps is the true difference wrapped once, however often the clock has wrapped |
| Words.WordSizes | src/talkgroups.rs:116 | words of 32 and 64 bits have the sizes of those machines |
| Policy.ReceiverPolicy.constructor | src/policy.rs:61-68 | a new policy is on control with a fresh selection timer |
| Policy.ReceiverPolicy.HandleElapsed | src/policy.rs:71-89 | new state and event for elapsed samples in each of the three states |
| Policy.ReceiverPolicy.HandleNid | src/policy.rs:92-136 | new state and event for each data unit in each state, including the initial traffic state |
| Policy.ReceiverPolicy.HandleCallTerm | src/policy.rs:139-151 | a call termination asks for a return unless on control, and changes nothing |
| Policy.ReceiverPolicy.EnterTraffic | src/policy.rs:154-156 | initial traffic state with a fresh watchdog |
| Policy.ReceiverPolicy.EnterControl | src/policy.rs:159-161 | control state with a fresh selection timer |
| Policy.ChoiceRate | src/policy.rs:71-79 | over a stay on control from a fresh timer, k choices and N samples in chunks of at most C satisfy k·select <= N <= k·(select-1+C) + (select-1) |
| Policy.PauseCounting | src/policy.rs:92-136 | within a visit with V voice units and P pauses: V >= 2P in the initial traffic state, V >= 2P+1 in the live one, V >= 2P-1 while paused; control is never entered |
| Policy.PausesIff | src/policy.rs:92-136 | after any calls, a terminator received on a traffic channel starts a pause iff a voice unit has come since the visit last began or was resumed |
| Policy.ResumedIgnoresTerminator | src/policy.rs:96-130 | a visit that pauses and is resumed ignores a terminator that comes before a further voice unit |
| Policy.TimerIsSumSinceRestart | src/policy.rs:195-215 | after any calls the timer is the sum of samples since the last call that restarted it, modulo the word |
| Talkgroups.MinStamp | src/talkgroups.rs:151-153 | the least value of the age map, or zero when it is empty |
| Talkgroups.TalkgroupFeatures.RecordElapsed | src/talkgroups.rs:129-131 | the clock advances with wrap-around and nothing else changes |
| Talkgroups.TalkgroupFeatures.Add | src/talkgroups.rs:134-136 | the group is stamped with the current clock |
| Talkgroups.TalkgroupFeatures.Select | src/talkgroups.rs:139-143 | ages are cleared, the group is the recent one, the clock restarts |
| Talkgroups.TalkgroupFeatures.Reset | src/talkgroups.rs:146-148 | a reset is the selection of group zero |
| Talkgroups.TalkgroupFeatures.Oldest | src/talkgroups.rs:151-153 | the search over the map returns the wrapped difference of the clock and the least stamp |
| Talkgroups.TalkgroupFeatures.MaxScore | src/talkgroups.rs:158-178 | the scan returns the left fold that keeps the later of equal maxima of the weighted sum |
| Talkgroups.LastArgMaxIsLastMax | src/talkgroups.rs:176-177 | that fold returns the last element that attains the maximum score |
| Talkgroups.LastArgMax | src/talkgroups.rs:176-177 | it returns nothing iff the list is empty, and else a member of the list |
| Talkgroups.TalkgroupSelection.RecordElapsed | src/talkgroups.rs:33-35 | advances the features' clock only |
| Talkgroups.TalkgroupSelection.AddTalkgroup | src/talkgroups.rs:38-56 | rejects encrypted and filtered groups, stamps and re-tunes a known one, appends a new one, also to the preempting list if it may preempt |
| Talkgroups.TalkgroupSelection.SelectIdle | src/talkgroups.rs:63-66 | returns the best candidate with its frequency and clears the candidates, or returns nothing and changes nothing |
| Talkgroups.TalkgroupSelection.SelectPreempt | src/talkgroups.rs:73-75 | the same over the preempting candidates |
| Talkgroups.TalkgroupSelection.RecordEncrypted | src/talkgroups.rs:78-81 | records the algorithm and leaves the candidates alone |
| Talkgroups.TalkgroupSelection.SelectTg | src/talkgroups.rs:84-93 | the group's frequency as it was, all candidates cleared, the features restarted |
| Talkgroups.TalkgroupSelection.ClearCandidates | src/talkgroups.rs:96-100 | empties both lists and the frequencies |
| Talkgroups.TalkgroupSelection.ClearState | src/talkgroups.rs:103-107 | also forgets the encrypted groups and resets the features |
| TalkgroupLog.CandidatesRefineLog | src/talkgroups.rs:38-107 | after any calls the whole state is that of a log of accepted grants since the last clear: candidates duplicate-free in first-heard order, the preempting ones its sub-list, frequency and stamp of each those of its last entry, equal key sets |
| TalkgroupLog.FirstHeard | src/talkgroups.rs:45-51 | the candidates' order: exactly the heard groups, by strictly increasing position of their first entry |
| TalkgroupLog.Latest | src/talkgroups.rs:43-47 | the entry for a group that no later entry for it follows |
| TalkgroupLog.SelectionReturnsLatest | src/talkgroups.rs:63-93 | a selection succeeds iff the log offers a group, and returns a logged group with the latest frequency accepted for it |
| Scoring.FeaturesAreTimed | src/talkgroups.rs:129-143 | after any calls clock and stamps are the true times since the last clear, wrapped |
| Scoring.AgeExactIff | src/talkgroups.rs:167 | a candidate's wrapped age is its true age iff that age is below 2^bits, even after the clock has wrapped |
| Scoring.OldestExactIff | src/talkgroups.rs:151-153 | `oldest()` is the largest candidate age iff that age is below 2^bits and the clock did not wrap between the times the candidates were last heard |
| Scoring.UnwrappedClockIsExact | src/talkgroups.rs:128-136 | fewer than 2^bits samples since the last selection or reset make all ages and `oldest()` exact |
| Scoring.FreshnessOrder | src/talkgroups.rs:159-167 | with exact ages every age term lies in [0,1] and is ordered as the times heard, also when `oldest()` is zero |
| Scoring.ScoreOrder | src/talkgroups.rs:165-174 | with equal priorities and neither group recent, scores are ordered by time heard for a positive age weight and against it for a negative one |
| Scoring.BestFollowsTime | src/talkgroups.rs:158-178 | then the winner is the latest (or earliest) heard candidate, ties to the last in the list |
| Scoring.RecentDominates | src/talkgroups.rs:139-178 | with equal priorities and recent weight >= age weight >= 0, the recent group attains the maximum, and is selected if the first inequality is strict |
| Scoring.OldestMisleads | src/talkgroups.rs:151-153 | from any fresh selection there is a run, a grant one sample before the clock wraps and another at the wrap, after which `oldest()` is zero and the largest age is one |
| Scoring.SelectionFollowsTime | src/talkgroups.rs:63-93 | in every run, with exact ages, equal priorities and the recent group not offered, a selection returns the latest heard of the offered groups for a positive age weight and the earliest for a negative one, ties to the one first heard last |
| Scoring.SelectionKeepsRecent | src/talkgroups.rs:63-93 | in every run, with exact ages, equal priorities and recent weight > age weight >= 0, a selection returns the recent group if it is offered |
| Priorities.ScoreGap | src/talkgroups.rs:159-174 | with exact ages two scores differ by the difference in priority (one if none is set), by how much later one was heard as a part of the largest age, and by the reward, each times its weight |
| Priorities.PriorityOrder | src/talkgroups.rs:165-174 | when ages do not tell two groups apart and neither is recent, their scores are ordered as their priorities for a positive priority weight and against them for a negative one |
| Priorities.BestFollowsPriority | src/talkgroups.rs:158-178 | then the winner is the last candidate of the highest, or lowest, priority |
| Priorities.SelectionFollowsPriority | src/talkgroups.rs:63-93 | in every run a selection among groups heard together, the recent one not offered, returns the offered group of the highest (lowest) priority, ties to the one first heard last |
| Filtering.AddedIffListened | src/talkgroups.rs:222-228 | a group that is neither candidate nor encrypted becomes a candidate iff it is off an exclusion list or on an inclusion list |
| Filtering.DefaultListens | src/talkgroups.rs:212-220 | the default filter listens to every group |
| Filtering.EncryptedIffKnown | src/talkgroups.rs:78-107 | after any calls a group counts as encrypted iff it was recorded and the state not cleared since |
| Filtering.CandidateIff | src/talkgroups.rs:38-107 | after any calls a group is a candidate iff it was added, while listened to and not known to be encrypted, since the last successful selection or clearing |
| Filtering.OnlyListenedAreSelected | src/talkgroups.rs:63-93 | in every run of calls a selected group is listened to and was so added since then |
| Filtering.ReceiverCandidateIff | src/recv.rs:330-342 | the exact condition for candidates inside every run of a receiver |
| Filtering.ReceiverFollowsListened | src/recv.rs:170-201 | a running receiver selects only groups that are listened to |
| Encryption.EncryptedGroupsDieOut | src/talkgroups.rs:38-100 | once recorded, and until the state is cleared, a group is returned only by the very next successful selection, and only if it was a candidate when recorded |
| Encryption.OnlyRecordingSpoils | src/talkgroups.rs:38-107 | every call but `record_encrypted` keeps encrypted groups out of the candidates |
| Encryption.RecordingSpoilsIff | src/talkgroups.rs:78-81 | recording a group keeps "no candidate is encrypted" iff the group is no candidate |
| Encryption.CleanIffMadeGood | src/talkgroups.rs:38-107 | after any calls from a clean state no candidate is encrypted iff every call that recorded a candidate was followed by a successful selection or by clearing the state |
| Encryption.EncryptedCandidateIsSelected | src/talkgroups.rs:63-93 | a group added and then recorded as encrypted is still selected |
| ReceiverTask.RecvTask.constructor | src/recv.rs:64-95 | a new receiver, with its first control channel announced and tuned to |
| ReceiverTask.RecvTask.SetControlFreq | src/recv.rs:100-112 | clears site state iff the frequency changes, announces it, then switches to it |
| ReceiverTask.RecvTask.SwitchControl | src/recv.rs:115-124 | ends the transmission, tunes to control, resets the policy |
| ReceiverTask.RecvTask.SetFreq | src/recv.rs:127-137 | records the frequency, reports it to hub and SDR, resynchronises the decoder |
| ReceiverTask.RecvTask.HandleEvents | src/recv.rs:140-167 | any finite sequence of messages performs exactly its stimuli in order |
| ReceiverTask.RecvTask.HandleEvent | src/recv.rs:144-160 | each message performs its stimuli |
| ReceiverTask.RecvTask.HandleChunk | src/recv.rs:145-157 | a chunk advances the clock, then handles its samples, then advances the policy timer |
| ReceiverTask.RecvTask.HandlePolicy | src/recv.rs:170-187 | resync, return to control, or select when idle and follow the result |
| ReceiverTask.RecvTask.SelectTalkgroup | src/recv.rs:190-201 | ignored without hopping; else tunes, enters traffic and reports the group |
| ReceiverTask.RecvTask.HandleSample | src/recv.rs:204-234 | dispatch of each decoded event |
| ReceiverTask.RecvTask.HandleTsbk | src/recv.rs:237-274 | foreign, corrupt and unknown blocks are ignored; others are reported and grants, updates and parameters acted on |
| ReceiverTask.RecvTask.HandleLc | src/recv.rs:277-306 | unknown words are ignored; terminations reach the policy; updates are collected and may preempt |
| ReceiverTask.RecvTask.Preempt | src/recv.rs:300-302 | a preempting selection is followed at once |
| ReceiverTask.RecvTask.HandleTrafficUpdates | src/recv.rs:309-313 | the updates are collected one after another |
| ReceiverTask.RecvTask.HandleCrypto | src/recv.rs:316-327 | encryption returns to control, records the current group and reports it, in that order |
| ReceiverTask.RecvTask.AddTalkgroup | src/recv.rs:330-342 | only a single group on a known channel is collected, at the frequency its parameters give |
| Decoding.UnitMovesPolicy | src/recv.rs:216-222 | a decoded data unit sends nothing and neither leaves nor enters the control channel |
| Decoding.VoiceRestartsWatchdog | src/recv.rs:216-222 | off control a decoded voice unit restarts the watchdog, makes a visit live, and resumes a paused one |
| Decoding.TerminatorPauses | src/recv.rs:216-222 | a decoded terminator pauses a live visit and changes nothing otherwise |
| Decoding.OtherUnitsAreIgnored | src/recv.rs:216-222 | other units, and all units on control, leave the policy as it is |
| Decoding.LeftoverRestartsDecoder | src/recv.rs:216-222 | exactly a trunking unit decoded in the initial traffic state restarts the decoder |
| Decoding.TerminationReturns | src/recv.rs:290-295 | a call termination decoded in either kind of packet is reported and ends a visit at once; on control it is only reported |
| Decoding.OtherWordsAreReported | src/recv.rs:277-305 | unknown link control words are ignored and words without a meaning here only reported |
| Decoding.EncryptionReturns | src/recv.rs:316-327 | a header or control word of an encrypted call returns to control, records the current group with its algorithm and reports it; one of a clear call changes nothing |
| Decoding.OnlyCryptoIsSeen | src/recv.rs:214-233 | exactly those messages count as a sign of encryption |
| Decoding.FrameIsPlayed | src/recv.rs:227-230 | a voice frame goes to the audio task and does nothing else |
| Decoding.NothingToDo | src/recv.rs:207-226 | samples without a message, errors and low-speed data change nothing |
| Decoding.RequestIsFollowed | src/recv.rs:100-112 | a request is followed at once, with its messages, and clears site state iff the frequency is another |
| Decoding.StatisticsAreApart | src/recv.rs:159 | clearing statistics changes nothing else |
| Decoding.NextSample | src/recv.rs:148-150 | a further sample is handled after all before it |
| Decoding.NextEvent | src/recv.rs:143-160 | a further message is handled after all before it |
| Decoding.NewReceiver | src/recv.rs:64-95 | the fields and messages of a new receiver |
| Decoding.RestartsAreCounted | src/recv.rs:127-179 | in every run the decoder is restarted once for each tuning and once for each leftover trunking unit |
| Collecting.ReachableIsComplete | src/talkgroups.rs:38-56 | in every run of a receiver exactly the candidates have frequencies, and exactly the preempting ones are in the preempting list |
| Collecting.UpdatesAreCollected | src/recv.rs:309-342 | an update makes exactly the accepted groups it names on known channels candidates, each at the frequency of its last entry and at the current time, and changes nothing else |
| Collecting.BadBlocksAreIgnored | src/recv.rs:237-249 | foreign, corrupt and unknown blocks change nothing |
| Collecting.OtherBlocksAreReported | src/recv.rs:253-273 | other sound blocks are reported and nothing else |
| Collecting.GrantsAreCollected | src/recv.rs:253-264 | sound blocks with a grant or an update are reported, and exactly what they name is collected as above |
| Collecting.ParamsAreKept | src/recv.rs:265-271 | announced parameters replace those of their channel and are passed on to the hub |
| Collecting.ParamsAreUsed | src/recv.rs:330-342 | the next grant on that channel is at the frequency they give |
| Collecting.WordsAreCollected | src/recv.rs:296-303 | an update in a link control word is reported and collected before a preempting candidate is looked for |
| Collecting.UpdateInterruptsIff | src/recv.rs:296-303 | with hopping, it begins a visit to a preempting group, at the frequency last given, iff one is a candidate or accepted and named; else it is only collected |
| Holding.ChunkHoldsIff | src/recv.rs:145-157 | off control, a chunk with a voice unit and no terminator, termination or encryption ends on control iff it is as long as the watchdog time |
| Holding.VoiceHoldsVisit | src/recv.rs:143-157 | while every chunk is such and shorter than the watchdog time the receiver is off control at every instant |
| Receiver.RunConcat | src/recv.rs:143-166 | handling more messages continues from the state reached |
| Calls.SelectionReplays | src/recv.rs:140-342 | inside any run the selection is the result of the receiver's calls on it and nothing else |
| Calls.PolicyReplays | src/recv.rs:140-342 | inside any run the policy is the result of the receiver's calls on it and nothing else |
| Calls.ReceiverRefinesLog | src/recv.rs:330-342 | in every run of a receiver the candidates refine the log of its calls, and clock and stamps are wrapped true times |
| Calls.ReceiverCleanIff | src/recv.rs:316-342 | the same exact condition for the candidates inside every run of a receiver |
| History.SelectionStep | src/recv.rs:145-342 | which call each stimulus makes on the selection |
| History.PolicyStep | src/recv.rs:145-342 | what each stimulus does to the policy, given whether a selection is followed |
| Tuning.TuningInvariant | src/recv.rs:99-201 | at every instant of every run: on control the receiver is tuned to control; off control hopping is on and group and frequency are the last pair selected; the last frequency sent to the SDR is the current one |
| Tuning.TimerIsExact | src/policy.rs:195-215 | in every run whose chunks fit, the timer is exactly the samples since its last restart, is zero or below its timeout between stimuli, and adding a chunk never overflows |
| Tuning.ReturnsToControl | src/policy.rs:71-136 | a stretch with a chunk, no voice unit and no preempting selection followed, of at least watchdog+pause-1 samples (watchdog+pause if either is zero), passes through control whatever is interleaved |
| Tuning.EndsOnControl | src/recv.rs:170-187 | if nothing selected in it is followed, such a stretch ends on control (the exact condition is Silence.EndsOnControlIff) |
| Tuning.ReturnBoundIsSharp | src/policy.rs:114-118 | one sample less is not enough: a terminator just before the watchdog starts the pause |
| Pacing.BoundedReturn | src/recv.rs:143-187 | the same bound for messages: from any reachable state off control, long enough silence passes through control |
| Pacing.SilenceEndsOnControl | src/recv.rs:143-187 | and ends there if nothing is followed meanwhile (the exact condition is Silence.SilenceEndsIff) |
| Silence.EndsIffOver | src/policy.rs:71-136 | without voice after the last visit of a stretch began, the stretch ends on control iff that visit was recalled by a termination, encryption or a change of site, or ticks for at least the watchdog time followed it |
| Silence.EndsOnControlIff | src/recv.rs:170-201 | from off control, silence of at least the bound ends on control iff the last visit begun in it, if any, is over in that sense, preemption included |
| Silence.SilenceEndsIff | src/recv.rs:143-201 | the same for messages, from every reachable state off control |
| Silence.SilenceCanEndOffControl | src/recv.rs:143-201 | whatever the timeouts, a new receiver on its first visit, given silence for the whole bound and then a chunk with a grant, ends off control |
| Reaching.FirstVisitBegins | src/recv.rs:170-201 | channel parameters, a grant and a tick of the selection time take any new receiver with hopping to a visit |
| Reaching.PreemptionIsReachable | src/recv.rs:300-342 | during that visit a grant for a preempting group makes it a preempting candidate |
| Pacing.EventsPaced | src/recv.rs:145-158 | in every sequence of messages the clock leads the policy timer by exactly one chunk while its samples are handled, and site changes fall between chunks |
| Pacing.ElapsedIsClock | src/talkgroups.rs:128-148 | in every run the features' clock is the samples since the last selection or site change, wrapped |
| Pacing.TimerBehindClock | src/recv.rs:145-158 | without preemption the policy's timer never exceeds that clock between messages |
| Pacing.SelectionsAreSpaced | src/recv.rs:145-187 | without preemption every selection comes at least `select` samples after the previous selection or site change, and unless the clock has wrapped it sees that many |
| Provenance.SiteIsolation | src/recv.rs:100-342 | every pair selected comes from the last grant heard for its group, by the last parameters announced for its channel, both after the last change of site and with no selection since the grant |
| Provenance.EncryptedGroupLeaves | src/recv.rs:316-327 | a group found encrypted on the air is selected at the same site only by the very next selection, and only if it was still a candidate |
| Outline.RunShown | src/recv.rs:99-342 | in every run the messages on all three queues, the site state and whether the receiver is on control are those of the effects of its stimuli |
| HopLog.HopGrammar | src/recv.rs:107-137 | in every run the tunings reported to the hub are those sent to the SDR; each new control frequency is immediately tuned to; each talkgroup is immediately preceded by a tuning, and the pairs of talkgroup and frequency so reported are exactly the pairs selected and followed, in order |
| HopLog.ReportsAreVisits | src/recv.rs:190-201 | that last statement by itself: the reported pairs of every run are its visits |
| HopLog.VisitsAreSeparated | src/recv.rs:190-201 | without preemption, between two talkgroups and before the second's tuning lies a retune to the control frequency then announced |
| Audio.TransmissionEndsIff | src/recv.rs:115-124 | a visit is cut off from the previous one by an end of transmission iff it began on control |
| Audio.DecodersServeOneVisit | src/audio.rs:39-49 | without preemption no voice decoder plays frames sent in two different visits |
| Audio.PreemptingVisitSharesDecoder | src/recv.rs:300-302 | from every reachable state off control with hopping and a preempting candidate, a frame, a preempting update and another frame are played by one decoder although sent in two visits |
| Audio.SharedDecoderIsReachable | src/recv.rs:300-302 | for any two accepted groups, the second preempting, there is a run of a new receiver in which that happens |
| Audio.PreemptionFollowsOffControl | src/recv.rs:300-302 | off control with hopping, any preempting candidate starts such a visit |
| Hub.StateCopy.constructor | src/hub.rs:485-493 | the copy starts with the invalid frequency and empty maps |
| Hub.StateCopy.Update | src/hub.rs:497-506 | each state message sets its frequency or one map entry; a new frequency clears nothing |
| Hub.HubTask.constructor | src/hub.rs:133-152 | a new hub has the initial copy and no subscribers |
| Hub.HubTask.HandleEvent | src/hub.rs:219-239 | the pop/push loop updates the copy, keeps exactly the streams that accept the event, in reverse order, and drops the others |
| Hub.HubTask.HandleChan | src/hub.rs:208-216 | handles the waiting messages and those that arrive meanwhile until none is left, and reports whether senders remain |
| Hub.DrainedInOrder | src/hub.rs:208-216 | the messages so handled are those waiting at first followed by all that arrived meanwhile, in order |
| Hub.HubTask.HandleSubscribe | src/hub.rs:260-276 | refuses a connection that cannot be duplicated and a fifth subscriber, else adds it last if its header could be written |
| Hub.SaneAfter | src/hub.rs:219-276 | whatever happens there are at most four streams, all different, none dropped before |
| Hub.FifthIsRefused | src/hub.rs:262-265 | with four subscribers a further one changes nothing |
| Hub.OfferOutcome | src/hub.rs:333-404 | offering an event keeps a stream iff its write does not fail or the event is a parameter update, which is not written, and drops it otherwise |
| Hub.SubscriberDelivery | src/hub.rs:219-239 | a subscriber is offered exactly the events up to its first failed write, once each and in order, and is dropped iff one fails |
| Hub.NewSubscriberDelivery | src/hub.rs:260-276 | a subscriber admitted to a running hub is offered exactly the events from then on, and is the only one with its identity |
| Hub.DeliveryReverses | src/hub.rs:227-238 | a delivery that nobody fails reverses the list |
| Replica.ReachedSiteState | src/recv.rs:99-112 | in every run the receiver's channels and encrypted groups are what its messages since the last change of frequency say |
| Replica.CopyAgrees | src/hub.rs:495-507 | a copy that has taken all messages has the receiver's frequency and contains its maps; it is equal iff everything announced before the last change of frequency was announced again |
| Replica.EqualIffNothingStale | src/hub.rs:495-507 | folding all messages and folding only the current site's agree iff nothing from an earlier site is stale |
| Replica.MovingLeavesCopyStale | src/hub.rs:501 | parameters heard just before a move stay in the hub's copy and not in the receiver |
| Network.InFlightAlways | src/hub.rs:208-239 | at every interleaving the messages under way take the hub's copy to the fold of everything sent, and the last frequency for the SDR is the last one sent |
| Network.ReplicaSimulation | src/hub.rs:495-507 | at every interleaving, applying the messages in flight gives the receiver's frequency and maps that contain the receiver's; equal iff nothing is stale |
| Network.ReplicaEqualAtFirstSite | src/hub.rs:495-507 | all three are equal as long as the frequency has not changed since the start |
| Network.ReplicaEqualWithoutMoves | src/hub.rs:495-507 | all three are equal, at every interleaving, as long as every requested control frequency is the first one |
| Network.SdrFollows | src/sdr.rs:61-68 | at every interleaving the last frequency sent to the SDR, counting those still queued, is the receiver's current one |

## Left out

- Bit-level decoding of NIDs, trunking blocks and link control words, their checksums, and the formula for a channel's frequency: they belong to crates that are not part of this model.
- Rounding and not-a-number in `f32` scores: scores are reals, so ties and order are those of exact arithmetic.
- Statistics, their throttled message from `run`, the baseband callback, logging, and the payload of signal power messages: they affect none of the state described here.
- Demodulation, voice decoding, audio output and driver calls: only the queue of frequencies and the replacement of the decoder at an end of transmission are modelled.
- HTTP parsing, JSON and event-stream text, the polling loop, tokens and file descriptors: a subscription is the decision to admit it, and offering an event is recorded instead of written.
- Command line, thread start-up and replay: the model starts with a newly constructed receiver and hub.
- Timer: modelled as a value inside the policy's state, as the source's timer is a plain copyable record; its two methods are functions used by the policy's methods.
- Failing sends: the source stops the task when a queue's receiver is gone; here sends succeed.
- HandleEvents: covers every finite sequence of messages of the receiver's endless loop, which itself never returns, and omits the throttled statistics message that the loop sends to the hub after some of them; in `Network.dfy` it is one of the messages that other senders may put on the hub's queue at any such point.
