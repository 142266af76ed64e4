# Stageflow: a verified model of its stateful cores

Stageflow runs agents as pipelines of stages and as chat sessions that people approve, watch and reply
to. The modules here model the parts of it where many steps interleave or where an algorithm has to be
exactly right, and state what those parts are for as theorems over every input or every run.

| module | what it models |
|---|---|
| `LineDiff`, `Lines` | the line diff shown between two revisions of an agent, with its table and walk |
| `TurnMachine`, `ApprovalProofs`, `TurnProofs`, `GateProofs`, `ActiveTurns`, `TurnEffects`, `GateOutcomes`, `AgentHost` | turns, sessions, approvals, the approval broker, ask-first tool calls, transcripts, Host restarts |
| `Deliveries` | replies on channels: claims, attempts, retries, marks by a person |
| `Outbound` | sends under an operation key |
| `AgentFiles`, `Revisions`, `RevisionEffects`, `AgentService` | agent files, cached syncs, saves, restores, archives, pinned sessions |
| `SessionPaging` | session lists page by page |
| `JsonValues`, `CanonicalJson`, `JsonReader` | the canonical text of an approval payload, and a JSON reader that it is read back with |
| `DraftMerge` | the three-way merge of an agent draft |
| `A2aStore`, `A2aEffects`, `RateLimiter` | frozen A2A tasks with their artifacts, and the token bucket |
| `LiveViewRelay` | input batches of the browser live view |
| `Utf16`, `Utf8`, `LineWrap`, `ToolBudget` | tool output: cutting by bytes, wrapping lines, the token ledger of a turn |
| `SubAgents` | the consumer check of an agent's sub-agents |
| `Options` | `Option` and `Result` |

A protocol is a state machine: one action per stretch of code that runs without an `await`, and a run is
any list of actions, so every interleaving is covered. Where the program changes state in place there is
a class beside the machine. The contract of each of its methods ties the fields after the call to the
machine's action on the fields before it, and the theorems are about all runs of the machine. What each
action means is stated once more without naming the function that makes it: what it changes in the rows,
when it does so, what it refuses, and that nothing else changes (`TurnEffects`, `GateOutcomes`,
`RevisionEffects`, `A2aEffects`, and the lemmas named ...Means).

## What is false, and exactly when

Some properties one would expect do not hold of the code. For each the exact condition under which it does
hold is proved for all inputs, and a run or an input shows the failure.

- A session can have two active turns, although the lifecycle's own comment
  (src/agents/turnLifecycle.ts:22-31) says one. A decision or an expiry opens the session under its turn: while
  the turn waits, until it resumes; or between the request and the parking, after which the call is answered
  at once, nothing resumes, and the session stays open while the turn runs on. `ActiveTurns.TwoActive` has
  a run of each kind with a decision. A session has at most one active turn throughout a run if and only if each
  of its turns begins while no turn of it is running or waiting (`ActiveTurns.OneActiveIff`). One that is not
  busy has an active turn only since a decision, an expiry or a closing of one of its approvals, or the end of
  another of its turns, opened it under that turn (`ActiveTurns.OpenedUnder`).
- A reply that a person marked delivered can become failed again, when a send of it was under way at that
  moment (`Deliveries.MarkedInFlight`). "Delivered" is for good if and only if no send is under way
  (`Deliveries.DeliveredIsFinalIff`).
- A skipped sync can leave the database behind the files even when equal stamps always mean equal texts: a
  file that is replaced while a sync reads it, and then put back, is skipped (`Revisions.PutBackIsMissed`).
  It leaves what a full sync would if and only if each stored hash is that of the text, and every agent
  without a file is archived; that is, if and only if the earlier sync had read the texts that it took the
  stamps of (`Revisions.SkipIsFullIff`), as it has when no one edited a file meanwhile
  (`Revisions.SkipIsFull`).
- The draft merge does not keep the order of object keys (`DraftMerge.KeyOrderLost`). Up to key order its
  laws hold for all drafts. merge(s, e, s) is e itself, merge(s, s, e) is e itself, and merge(s, e, e) is e
  itself, if and only if e lists the keys it shares with s in the order of s and ahead of its own, at every
  depth (`DraftMerge.MergeWithStartIff`, `DraftMerge.MergeUnchangedIff`, `DraftMerge.MergeStoredIff`).
  Merging twice is exactly merging once if and only if that is so for the objects that the turn changed and
  that something else than an object is stored over (`DraftMerge.MergeIdempotentIff`). That it does not
  matter which side is the turn's (`DraftMerge.MergeCommutes`) is claimed up to key order only.
- The token budget of a turn bounds text and capped results, not images and notices: those are charged but
  never refused (`ToolBudget.ImagesUnbounded`). The whole turn stays inside the room if and only if each
  such charge, and a capped result that meets the empty ledger, fits into the room left when it comes
  (`ToolBudget.InsideIff`); without that it is over by no more than those charges (`ToolBudget.WholeTurn`).
- Cutting a text to a number of bytes yields a prefix of it if and only if none of the code points it keeps
  is an unpaired surrogate (`Utf8.CutIsPrefixIff`).
- Below a limit of 4 bytes the flag of the line wrapper can be set for an unchanged text
  (`LineWrap.FlagTooEager`). The flag says whether the text changed if and only if, when a line is too long,
  one that has more than one code point is (`LineWrap.FlagRightIff`).

Two properties hold under a condition that the program meets by how it is written.

- Each waiter on an approval is told the stored outcome, or that it was stopped
  (`GateProofs.WaiterToldStored`), in every run in which no decision of a session falls between the parking
  of a call of it and the call's registering with the broker. A decision waits for a readdir before it looks
  at anything (src/agents/service.ts:219-222, 1239-1240), and a call registers before anything is read
  (src/agents/sessions.ts:247-250). Without the condition a decision could be missed
  (`GateProofs.MissedDecision`), and exactly so (`GateProofs.WaiterHearsStored`).
- An approval stands for its session and payload. The tool's name is not part of the key, and
  `ApprovalProofs.ApproveOnce` holds for a later call of any tool with that payload.

## Assumptions

- Hashes are injective: a stored hash is modelled by the text it is of, or by a number that stands for it.
- One Host process has the database; a second one over it would have its own lock, broker and memory of stamps.
- Random ids are fresh, and "newest" is by order of insertion.
- The clock is a parameter. Turns and approvals have one that does not run backwards; the token bucket has
  any, and `RateLimiter.WindowBound` states the bound for one that does not.
- Token counts are integers, fractions of the window and bucket levels are reals.
- A YAML text is modelled by the definition it spells. `Revisions.SkipIsFull` assumes that stamps old enough
  to be trusted tell file contents apart.

## Model

| member | source | states |
|---|---|---|
| `LineDiff.DiffLines` | src/agents/lineDiff.ts:8-36 | the diff is the one numbered script that spells both texts with the fewest changes and comes first in the order same, removed, added; no common subsequence is longer than its same lines |
| `LineDiff.FillTable` | src/agents/lineDiff.ts:11-16 | entry (i, j) of the table is the longest common subsequence length of the two rests |
| `LineDiff.EmitScript` | src/agents/lineDiff.ts:17-35 | the loops over the table emit the walk of the specification |
| `LineDiff.EmitCommon` | src/agents/lineDiff.ts:20-32 | the first loop stops when one text is used up, and what it has emitted and what is left make the walk |
| `LineDiff.LcsBound` | src/agents/lineDiff.ts:12-16 | no common subsequence, given by positions in both texts, is longer than the table entry |
| `LineDiff.WalkIsDiff` | src/agents/lineDiff.ts:17-35 | the walk is a minimal numbered script, the first of them, and keeps as many lines as the table says |
| `LineDiff.DiffUnique` | src/agents/lineDiff.ts:8-36 | two texts have at most one such diff |
| `LineDiff.ScriptBound` | src/agents/lineDiff.ts:8-36 | no script at all keeps more lines than the longest common subsequence has |
| `LineDiff.SplitLinesRoundTrip` | src/agents/lineDiff.ts:38-43 | joining the lines gives the text back, with its last line terminated |
| `LineDiff.SplitLinesInjective` | src/agents/lineDiff.ts:38-43 | two texts have the same lines exactly when they differ at most in a final newline |
| `ApprovalProofs.OnePending` | src/agents/service.ts:1205-1230 | in every run a session has at most one pending approval, its newest |
| `ApprovalProofs.DecisionFinal` | src/agents/store.ts:1027-1059 | in every run a decided approval never changes, and no request is rewritten |
| `ApprovalProofs.ApproveOnce` | src/agents/service.ts:1200-1204 | once a payload is approved in a session, however the run goes on, each later request for it is answered with that approval and raises no prompt |
| `ApprovalProofs.PromptIff` | src/agents/service.ts:1194-1229 | a call raises a prompt exactly when it is not refused and its session has neither an approval for the payload nor anything pending |
| `ApprovalProofs.AnswerNamesRequest` | src/agents/service.ts:1200-1229 | an answered request names a row of its own session and payload that is approved or pending |
| `TurnProofs.TurnFinal` | src/agents/turnLifecycle.ts:69-102 | a finished turn never becomes active again; only the reply marker moves, and it follows the last delivery report |
| `TurnProofs.StepApproves` | src/agents/turnLifecycle.ts:133-148 | only a permitted decision, before the deadline and on a turn that is not over, approves a row |
| `TurnProofs.NeverApprovedLate` | src/agents/turnLifecycle.ts:119-148 | an approval whose deadline has passed or whose turn has ended never becomes approved |
| `TurnProofs.TranscriptInEveryRun` | src/agents/store.ts:705-720 | in every run the messages of a session are numbered 1 to n, a turn has at most one message of each role, and only a finished turn has a reply |
| `TurnProofs.TranscriptAppendOnly` | src/agents/service.ts:993-1024 | messages are never lost or changed, but for the turn of a user message |
| `TurnProofs.RetryMoves` | src/agents/service.ts:994-1015 | a retry takes over the earlier turn's message: nothing is added, and the earlier turn is left without one |
| `ActiveTurns.OneActiveIff` | src/agents/service.ts:986-1030 | a session has at most one active turn throughout a run exactly when each of its turns begins while none is running or waiting |
| `ActiveTurns.OpenedUnder` | src/agents/turnLifecycle.ts:119-148 | a session that is not busy has an active turn only since some step, of named kinds, opened it under the turn |
| `ActiveTurns.TwoActive` | src/agents/turnLifecycle.ts:141-145 | two runs whose decisions stay out of the gap before registering, in which a turn begins while another of its session is active: decided while it waits, and decided before it parks |
| `TurnEffects.FinishEnds` | src/agents/turnLifecycle.ts:69-102 | an ended turn has the asked status, error and reply, its session the asked status; its pending approvals have expired and their waiters are told; nothing else changes |
| `TurnEffects.EndedLetsBegin` | src/agents/turnLifecycle.ts:93-99 | after an ending that opens the session, the next turn of an enabled agent within its limits is not refused |
| `TurnEffects.TurnHasSession` | src/agents/service.ts:986-1030 | in every run the session of a turn is there |
| `TurnEffects.BeginBegins` | src/agents/service.ts:979-1033 | a begun turn runs in a running session, with the retried turn's user message moved to it, or one new message with exactly the given text; nothing else changes |
| `TurnEffects.BeginIff` | src/agents/service.ts:984-992 | when a turn may begin, and for each refusal exactly when it is the answer |
| `TurnEffects.AnswerMeans` | src/agents/service.ts:1200-1229 | in every run, what a call that is not refused is answered, by the rows of its session: the approved row of its payload, else the pending one or busy, else a new row with its tool, payload, turn and deadline |
| `TurnEffects.RefusedMeans` | src/agents/service.ts:1194-1199 | the refusals of a call in their order |
| `TurnEffects.DecideIff` | src/agents/service.ts:1233-1260 | in every run, a decision leaves the pending approval approved or denied as asked exactly when it is permitted, in time, on a known session and for a turn that is not over |
| `TurnEffects.DecideAnswers` | src/agents/service.ts:1233-1260 | in every run, what a decision answers: the pending approval of the session, or exactly which check refused |
| `TurnEffects.DecideDecides` | src/agents/turnLifecycle.ts:133-148 | such a decision is recorded with its time, opens the session, and tells exactly the waiters of that approval |
| `TurnEffects.ExpireExpires` | src/agents/turnLifecycle.ts:119-126 | exactly the pending approvals whose deadline has come expire; their waiters are told, and waiting sessions of theirs open |
| `TurnEffects.CloseMeans` | src/agents/service.ts:1080-1089 | closing expires that approval if it is pending and opens its session if it waits |
| `TurnEffects.WaitResumeMean` | src/agents/turnLifecycle.ts:40-62 | waiting takes a running turn with its session to waiting, unless its approval is decided already; resuming takes a waiting one back; otherwise neither changes anything |
| `TurnEffects.RestartMeans` | src/agents/store.ts:881-897 | after a restart no turn is active, no session busy, no approval pending and nobody waits; what was over stays as it was |
| `TurnEffects.ReplyMeans` | src/agents/turnLifecycle.ts:154-163 | a reply that does not arrive turns its turn's success into the failure agent.reply_undelivered, its arrival turns that back, and no other turn changes |
| `GateProofs.AllowedMeansApproved` | src/agents/sessions.ts:240-269 | in every run a call that was let through has an approval of its session and payload, given before its deadline |
| `GateProofs.ResolvedOnce` | src/agents/approvalBroker.ts:11-40 | a waiter is told one outcome, which never changes, and never waits again |
| `GateProofs.WaiterToldStored` | src/agents/approvalBroker.ts:11-40 | in every run whose decisions stay out of the gap between parking and registering, each waiter is told the stored outcome or that it was stopped |
| `GateProofs.WaiterHearsStored` | src/agents/approvalBroker.ts:11-40 | in any run, a waiter that was not stopped is told the stored outcome exactly when its approval was pending or expired at registration |
| `GateProofs.MissedDecision` | src/agents/sessions.ts:247-254 | were a decision to fall between parking and registering, the call would be refused although approved: why the condition of WaiterToldStored is there |
| `GateOutcomes.StepFinishes` | src/agents/sessions.ts:240-269 | a step lets a call through, or refuses it, exactly in the named cases: approved at the request, when it would park, or when told; refused as denied, expired, stopped, or with its turn not running |
| `GateOutcomes.FinishedWhy` | src/agents/sessions.ts:240-269 | in every run a finished call was finished by such a step, with what that step says |
| `GateOutcomes.FinishedLast` | src/agents/sessions.ts:240-269 | a call that such a step finished stays so until the Host restarts |
| `GateOutcomes.ToldApprovedPasses` | src/agents/sessions.ts:250-268 | in every run a call that was told of its approval and has woken was let through, and one told anything else was not |
| `GateOutcomes.OpenMeans` | src/agents/sessions.ts:240-245 | a new call is let through when its request finds an approved approval, has asked otherwise, and is not there when refused |
| `GateOutcomes.ParkMeans` | src/agents/sessions.ts:247-256 | a call whose approval is pending parks its running turn with its session; approvals and waiters stay as they were |
| `GateOutcomes.ListenMeans` | src/agents/sessions.ts:250-250 | a parked call registers with the broker, or is told at once that it was stopped |
| `GateOutcomes.StopAndTimerMean` | src/agents/approvalBroker.ts:22-34 | a stop tells a waiting call so; its timer tells it "expired" exactly once the deadline has come |
| `GateOutcomes.WakeMeans` | src/agents/sessions.ts:250-269 | a decided call resumes its turn and is finished as decided; a stopped one closes its approval and is refused; an expired one lets what is due expire first |
| `AgentHost.ApprovalBroker.Wait` | src/agents/approvalBroker.ts:11-36 | a waiter joins the listeners of its approval, or is told at once that it was stopped |
| `AgentHost.ApprovalBroker.FinishOne` | src/agents/approvalBroker.ts:14-20 | exactly that waiter is told and forgotten, and no empty set of listeners is left |
| `AgentHost.ApprovalBroker.Settle` | src/agents/approvalBroker.ts:38-40 | exactly the waiters on the approval are told the outcome and forgotten |
| `AgentHost.Host.ExpireAll` | src/agents/turnLifecycle.ts:119-126 | exactly what is due expires, sessions that wait on it open, its waiters are told |
| `AgentHost.Host.WaitOn` | src/agents/turnLifecycle.ts:40-51 | parks a running turn on an open approval; answers parked, the decision that is there, or inactive |
| `AgentHost.Host.ResumeTurn` | src/agents/turnLifecycle.ts:54-62 | runs a waiting turn again and nothing else |
| `AgentHost.Host.FinishTurn` | src/agents/turnLifecycle.ts:69-102 | ends an active turn with its reply, closes its approvals and wakes their waiters; refuses a finished one |
| `AgentHost.Host.CloseApproval` | src/agents/turnLifecycle.ts:110-116 | expires one pending approval and wakes its waiters |
| `AgentHost.Host.CloseStopped` | src/agents/service.ts:1080-1089 | the same, and the session opens if it still waits |
| `AgentHost.Host.DecidePending` | src/agents/turnLifecycle.ts:133-148 | records a decision, or closes the approval when its turn is over |
| `AgentHost.Host.DecideApproval` | src/agents/service.ts:1233-1260 | decides the pending approval after the checks on session, actor, deadline and agent; answers which one, or which check refused |
| `AgentHost.Host.RequestApproval` | src/agents/service.ts:1186-1231 | what is due expires, then the call is answered |
| `AgentHost.Host.AnswerCall` | src/agents/service.ts:1194-1229 | refuses by session, agent, grant and ask-first in that order, then answers with the prior, the pending or a new approval, or busy |
| `AgentHost.Host.BeginTurn` | src/agents/service.ts:979-1033 | starts a turn with the moved or a new user message; answers no session, disabled, busy or over its limits, in that order |
| `AgentHost.Host.RestartHost` | src/agents/store.ts:881-897 | active turns fail, active sessions open, pending approvals expire, waiters are gone |
| `AgentHost.Host.ReportReply` | src/agents/turnLifecycle.ts:154-163 | moves the one reply marker, or nothing |
| `AgentHost.Host.OpenGate` | src/agents/sessions.ts:240-245 | the answer to the request of a call; an approved approval lets it through |
| `AgentHost.Host.ParkGate` | src/agents/sessions.ts:247-256 | parks the turn, or takes the outcome that is there already |
| `AgentHost.Host.TimerGate` | src/agents/approvalBroker.ts:28-34 | a waiter's timer says "expired" only once the deadline has passed |
| `AgentHost.Host.WakeGate` | src/agents/sessions.ts:250-269 | closes the approval of a stopped call, expires what is due, or resumes the turn and answers |
| `Deliveries.OneInFlight` | src/agents/communications/delivery.ts:67-91 | in every run at most one send of a reply is under way |
| `Deliveries.ClaimsApart` | src/agents/store.ts:813-825 | between two won claims of a reply its send ended, a person marked it, or a Host restarted; a delivered reply is never claimed |
| `Deliveries.KeysDistinct` | src/agents/communications/delivery.ts:71-75 | no two sends of a reply have the same operation key |
| `Deliveries.AutomaticBound` | src/agents/communications/delivery.ts:78-80 | a send that may be retried by itself is one of the first four attempts |
| `Deliveries.TurnTellsDelivery` | src/agents/communications/delivery.ts:81-90 | a turn counts as succeeded when its reply is delivered, and as failed when the reply is unconfirmed or failed for good |
| `Deliveries.DeliveredIsFinalIff` | src/agents/communications/delivery.ts:147-154 | "delivered" stays in every continuation exactly when no send is under way |
| `Deliveries.MarkedInFlight` | src/agents/communications/delivery.ts:81-83 | a run in which a mark by a person is overwritten by the failure of a send under way |
| `Deliveries.UnknownWaitsForPerson` | src/agents/ledgers.ts:33-40 | a reply whose outcome is unknown stays as it is until a person acts |
| `Deliveries.MaybeSentOnce` | src/agents/communications/delivery.ts:18-28 | after a send that may have gone out, no attempt is begun until a person acts |
| `Deliveries.TransientIsRetried` | src/agents/communications/delivery.ts:77-84 | a definite transient failure of one of the first three automatic attempts leaves the turn as it was, and a retry wins exactly once its backoff is over |
| `Deliveries.CutOffIsUnknown` | src/agents/store.ts:835-841 | a send that a restart cut off is unknown once a Host that listens has started, and is not begun again until a person acts |
| `Deliveries.AttemptMeans` | src/agents/ledgers.ts:33-40 | an attempt begins a send, under the next number, exactly on a pending reply for a first attempt, a failed or unknown one for a person, and a due failed one for a retry; otherwise it changes nothing |
| `Deliveries.PersonMayResend` | src/agents/communications/delivery.ts:139-144 | in every run a person's attempt on a failed or unknown reply sends it, once |
| `Deliveries.ArriveMeans` | src/agents/communications/delivery.ts:88-90 | a send that returned, or a person's mark, leaves the reply delivered and its turn right, and other sends alone |
| `Deliveries.FailMeans` | src/agents/communications/delivery.ts:76-87 | a send that threw leaves the reply unknown or failed as the error says, with the time of the next attempt exactly for a transient failure of the first three automatic ones, and the turn failed otherwise |
| `Deliveries.ReplyDelivery.Record` | src/agents/communications/delivery.ts:53-59 | records a reply once per turn |
| `Deliveries.ReplyDelivery.Attempt` | src/agents/ledgers.ts:33-40 | a claim is won exactly in a state this kind of attempt may start from, and counts the attempt |
| `Deliveries.ReplyDelivery.AttemptFailed` | src/agents/communications/delivery.ts:76-87 | stores failed or unknown with its retry, and marks the turn when no retry comes |
| `Deliveries.ReplyDelivery.AttemptArrived` | src/agents/communications/delivery.ts:88-90 | stores delivered and puts the turn right |
| `Deliveries.ReplyDelivery.MarkDelivered` | src/agents/communications/delivery.ts:147-154 | a person's mark, or not found |
| `Deliveries.ReplyDelivery.Start` | src/agents/service.ts:1165-1169 | the sends a restart cut off become unknown and their turns unconfirmed |
| `Outbound.SubmittedAtMostOnce` | src/agents/service.ts:1321-1333 | `submit` runs at most once per session and operation key, with a stop of the Host allowed between any two steps |
| `Outbound.ReportedIsTrue` | src/agents/service.ts:1323-1334 | "submitted" is answered only after `submit` was run and returned |
| `Outbound.UnknownIsFinal` | src/agents/service.ts:1324-1331 | a send left unknown is never sent again and never reported submitted |
| `Outbound.StoppedIsUnknown` | src/agents/service.ts:1325-1333 | a stop of the Host leaves the sends it was working on unknown and the rest as they were |
| `Outbound.FreshIsSent` | src/agents/service.ts:1322-1327 | a call under an unused key records it as unknown and runs `submit` |
| `Outbound.SentIsSubmitted` | src/agents/service.ts:1326-1334 | a returned `submit` leaves the key submitted and reported, one that threw leaves it unknown |
| `Outbound.SubmittedIsFinal` | src/agents/service.ts:1322-1323 | a submitted key stays so, with the one run of `submit` that it took, and each later call reports it |
| `Outbound.Sends.Begin` | src/agents/service.ts:1322-1327 | a call goes on to `submit` exactly when the key has no stored state, and records it first |
| `Outbound.Sends.End` | src/agents/service.ts:1326-1334 | a returned `submit` is recorded and reported, a failed one leaves the outcome unknown |
| `AgentFiles.FullSyncOk` | src/agents/service.ts:252-277 | after a full sync the database stands for exactly the files, keeping revisions 1 to the current one |
| `AgentFiles.FullSyncReads` | src/agents/service.ts:279-314 | a file that cannot become a revision only marks its agent; any other becomes the current definition, in one new revision unless it was so already |
| `AgentFiles.NothingToDoIff` | src/agents/service.ts:252-277 | a full sync changes nothing exactly when the database already stands for the files |
| `AgentFiles.SecondSyncChangesNothing` | src/agents/service.ts:252-277 | a second full sync over the same files changes nothing |
| `AgentFiles.AgentTables.Sync` | src/agents/service.ts:252-277 | the two loops, in any order of the names, make the full sync of the specification |
| `AgentFiles.AgentTables.ApplyFile` | src/agents/service.ts:279-314 | an acceptable file that differs becomes the next revision; any other only moves hash and issues |
| `AgentFiles.AgentTables.AppendRevision` | src/agents/store.ts:396-451 | the next number is current plus one, becomes current, and clears the issues |
| `Revisions.RevisionsComplete` | src/agents/store.ts:396-451 | in every run the revisions of an agent are numbered exactly 1 to the current one |
| `Revisions.HistoryOnlyGrows` | src/agents/store.ts:396-451 | in every run no agent goes, and no revision changes or goes |
| `Revisions.PinsLast` | src/agents/service.ts:842-877 | a session's pin never moves, and the revision it names is there from then on, unchanged |
| `Revisions.WritesOnBase` | src/agents/service.ts:690-840 | a write adds the revision after the one that was current, which a save or restore was based on; it holds what was asked for and is a change, whatever was edited meanwhile |
| `Revisions.CurrentIsTheFile` | src/agents/service.ts:279-314 | the file last read or written of an agent without issues spells its current revision |
| `Revisions.SkipIsFullIff` | src/agents/service.ts:242-250 | with equal texts under equal stamps, a skipped sync leaves what a full one would exactly when the sync that recorded the stamps had read the texts it took them of |
| `Revisions.SkipIsFull` | src/agents/service.ts:213-250 | so it does over every run with trustworthy stamps in which no one edited a file during that sync |
| `Revisions.PutBackIsMissed` | src/agents/service.ts:242-250 | a file replaced during a sync and then put back is skipped, with any two texts |
| `RevisionEffects.OpenedIff` | src/agents/service.ts:842-877 | in every run a new session is added exactly when its agent is there, not archived, has the wanted revision and, unless it is an eval session, that is enabled; it is pinned to the agent's current revision, or the one an eval session asks for |
| `RevisionEffects.PinnedTo` | src/agents/service.ts:849-863 | in every run the session that a step adds is pinned to the revision that was current before the step, or the one asked for |
| `RevisionEffects.OpenErrors` | src/agents/service.ts:850-857 | the error for each other case, in order |
| `RevisionEffects.WritesIff` | src/agents/service.ts:690-840 | a write begins exactly for a request that is allowed, based on the current revision, and would change something; any other changes nothing |
| `RevisionEffects.WriteIsAsked` | src/agents/service.ts:690-840 | the write that begins is of what was asked for, over the current revision |
| `RevisionEffects.StaleIsConflict` | src/agents/service.ts:726-737 | a save or restore is a conflict exactly when the agent has moved on from its base |
| `RevisionEffects.WriteKeepsLine` | src/agents/service.ts:317-343 | an undisturbed write makes what was asked for the next revision and the file, keeps the earlier revisions, and leaves database and files in line |
| `RevisionEffects.ArchiveEnds` | src/agents/service.ts:769-776 | an undisturbed archive removes the file, archives the agent with its history, and changes nothing else |
| `RevisionEffects.ArchiveKeepsLine` | src/agents/service.ts:769-776 | it leaves database and files in line |
| `AgentService.SyncStepsAreFullSync` | src/agents/service.ts:213-277 | the steps of an undisturbed sync, one stat and one read per file in any order of names, are a full sync, or nothing when the stamps are unchanged |
| `AgentService.Service.SyncFiles` | src/agents/service.ts:242-277 | an undisturbed sync makes its steps, and then the database stands for the files unless nothing was done |
| `AgentService.Service.BeginChange` | src/agents/service.ts:690-743 | the checks of create, save, enable and restore: an error, nothing to write, or a write of exactly the checked revision begins |
| `AgentService.Service.PutFile` | src/agents/service.ts:324-329 | the file of a write that has begun, and nothing else |
| `AgentService.Service.CommitChange` | src/agents/service.ts:330-342 | whatever was edited since, the revision after the one that was current at the checks, as it was asked for |
| `AgentService.Service.EditFiles` | src/agents/service.ts:248-249 | edits of others between those parts change the files only |
| `AgentService.Service.Write` | src/agents/service.ts:690-745 | the same three in a row: an error, nothing, or the number of the revision written |
| `AgentService.Service.OpenPinned` | src/agents/service.ts:842-877 | a new session is pinned to the current revision, or an eval session to the one it names |
| `SessionPaging.PageMeans` | src/agents/store.ts:546-606 | a page shows the topmost rows of what is left, and its cursor exactly separates the rest |
| `SessionPaging.PagesListAll` | src/agents/store.ts:546-606 | following cursors with any page size of at least 1 ends, and lists every matching session exactly once, latest first |
| `SessionPaging.AnyPageSize` | src/agents/store.ts:546-606 | the list does not depend on the page size |
| `SessionPaging.PagesShow` | src/agents/store.ts:572-577 | when rows change between pages, nothing is listed twice or out of order, and a row that stays is listed |
| `SessionPaging.NoSessionTwice` | src/agents/store.ts:572-577 | while sessions only move up, no session is listed twice even with another time |
| `SessionPaging.ListedMeans` | src/agents/store.ts:550-581 | the pages list exactly the rows that pass each filter of the query, by falling time of the last update and then falling session id |
| `SessionPaging.PageIs` | src/agents/store.ts:573-606 | a page has as many rows as are left, up to the limit, and a cursor at its last row exactly when more are left |
| `CanonicalJson.CanonicalTextIff` | src/agents/service.ts:1354-1366 | two payloads have the same canonical text exactly when they are the same value up to key order |
| `CanonicalJson.PrintUnique` | src/agents/service.ts:1358-1366 | a printed value followed by anything that may follow one is read in one way |
| `CanonicalJson.QuoteUnique` | src/agents/service.ts:1359-1364 | quoted text, as in section 7 of RFC 8259 with lone surrogates escaped, is read in one way |
| `CanonicalJson.SortKeysSorts` | src/agents/service.ts:1362-1363 | the keys are sorted by code unit, none lost |
| `JsonReader.CanonicalReadsBack` | src/agents/service.ts:1358-1366 | a reader of RFC 8259 reads the canonical text back as the payload up to key order, with the keys of every object sorted, at every depth |
| `JsonReader.QuoteReads` | src/agents/service.ts:1359-1364 | a quoted string reads back as that string, by the escapes of section 7 of RFC 8259 |
| `JsonReader.PrintReadPrint` | src/agents/service.ts:1354-1366 | what is read back has the same canonical text |
| `JsonValues.LessMeans` | src/agents/service.ts:1362-1363 | the order of keys is by the first unit in which they differ; a proper prefix comes first |
| `DraftMerge.MergeTurnDraft` | src/agents/authorChat.ts:46-77 | the loop computes the merge of the specification, keys in the order the source writes them |
| `DraftMerge.MergeIsRight` | src/agents/authorChat.ts:46-77 | at every depth: what the turn changed is stored as the turn left it, removals included, and what it did not change stays as stored; where both ends of the turn and the store hold objects the same holds inside |
| `DraftMerge.RightUnique` | src/agents/authorChat.ts:46-77 | two merges that do so are the same value up to key order |
| `DraftMerge.TurnChangeWins` | src/agents/authorChat.ts:70-74 | a field that the turn added, removed or replaced is as the turn left it, whatever is stored under it |
| `DraftMerge.NoLostUpdate` | src/agents/authorChat.ts:46-77 | under each key, the side that alone changed it wins, removals included |
| `DraftMerge.MergeWithStart` | src/agents/authorChat.ts:46-77 | merge(s, e, s) = e |
| `DraftMerge.MergeUnchanged` | src/agents/authorChat.ts:46-77 | merge(s, s, d) = d |
| `DraftMerge.MergeStored` | src/agents/authorChat.ts:46-77 | merge(s, e, e) = e |
| `DraftMerge.MergeIdempotent` | src/agents/authorChat.ts:46-77 | merge(s, e, merge(s, e, d)) = merge(s, e, d) |
| `DraftMerge.MergeCommutes` | src/agents/authorChat.ts:46-77 | without a conflict it does not matter which side is the turn's |
| `DraftMerge.MergeWithStartIff` | src/agents/authorChat.ts:46-77 | merge(s, e, s) = e, key order included, exactly when e keeps the order of s at every depth |
| `DraftMerge.MergeUnchangedIff` | src/agents/authorChat.ts:46-77 | merge(s, s, d) = d, key order included, exactly when d keeps the order of s |
| `DraftMerge.MergeStoredIff` | src/agents/authorChat.ts:46-77 | merge(s, e, e) = e, key order included, exactly when e keeps the order of s |
| `DraftMerge.MergeIdempotentIff` | src/agents/authorChat.ts:46-77 | merging twice is merging once, key order included, exactly when the objects that the turn changed over something else keep the order of the start |
| `DraftMerge.KeyOrderLost` | src/agents/authorChat.ts:47-49 | a turn that only swaps two keys is stored in the old order, and does not keep the order |
| `DraftMerge.MergeWellFormed` | src/agents/authorChat.ts:46-77 | the merge of well-formed drafts has each key once, with a well-formed value |
| `A2aStore.NoOrphanRows` | src/a2a/store.ts:242-334 | in every run an artifact row has its task row, and that task is terminal |
| `A2aStore.FrozenStaysFixed` | src/a2a/store.ts:242-334 | a terminal task keeps state, result and artifact rows until it is removed, and is then gone for good |
| `A2aStore.FrozenByOneFreeze` | src/a2a/store.ts:267-280 | a task becomes terminal by the commit of one freeze, and its rows are exactly that freeze's |
| `A2aStore.LosingFreeze` | src/a2a/store.ts:267-280 | a freeze that commits on a terminal or missing task changes no row then or later; its files are never named by a row, and stay |
| `A2aStore.PruneRemovesExpired` | src/a2a/store.ts:295-317 | pruning removes only tasks that are terminal and past the cutoff at that moment |
| `A2aStore.ArtifactIntact` | src/a2a/store.ts:245-280 | the file of an artifact row has the row's content while no removal has selected its A2A task |
| `A2aEffects.FreezeBegins` | src/a2a/store.ts:243-246 | a freeze begins exactly on a task that is there and not terminal, with artifacts only when it completes |
| `A2aEffects.WritesAll` | src/a2a/store.ts:247-264 | writing a freeze's artifacts makes one row and one file for each, under its id, with its name and content, and changes no other |
| `A2aEffects.CommitMeans` | src/a2a/store.ts:267-280 | in every run a freeze commits exactly when its task is open: the task gets its state, result, time and rows, and no other task or row changes |
| `A2aEffects.FreezeStores` | src/a2a/store.ts:242-281 | an undisturbed freeze of an open task completes it with its result and exactly one row and file for each artifact |
| `A2aEffects.SelectedAre` | src/a2a/store.ts:300-322 | a pruning selects exactly the terminal tasks before its cutoff, a deletion those of its run |
| `A2aEffects.RemovesAll` | src/a2a/store.ts:305-332 | a removal that comes to its end has removed exactly the selected tasks, each with its rows |
| `A2aEffects.PruneExact` | src/a2a/store.ts:295-317 | an undisturbed pruning keeps exactly the tasks that are not terminal or not past the cutoff, unchanged, with their rows |
| `A2aEffects.UnlinkMeans` | src/a2a/store.ts:305-308 | a file goes only as one that a row of the task next to be removed names |
| `A2aStore.A2aStore.CommitFreeze` | src/a2a/store.ts:267-280 | the guarded transaction: rows go in only with the change of state |
| `A2aStore.A2aStore.SelectExpired` | src/a2a/store.ts:300-304 | exactly the terminal tasks before the cutoff, in row order |
| `A2aStore.A2aStore.RemoveTask` | src/a2a/store.ts:309-313 | removes one task with its artifact rows and nothing else |
| `RateLimiter.RateLimiter.TryConsume` | src/a2a/limits.ts:20-31 | the answer and the bucket are those of the specification; other keys stay |
| `RateLimiter.KeysIndependent` | src/a2a/limits.ts:20-31 | a key's bucket is that of its own calls alone |
| `RateLimiter.AnswerIsOwnHistory` | src/a2a/limits.ts:20-31 | the answer after any history of all keys is the answer to the key's own history |
| `RateLimiter.AcceptedIffEveryWindowHasRoom` | src/a2a/limits.ts:20-31 | a call is accepted exactly when every window ending with it has room for one more |
| `RateLimiter.WindowBoundAnyClock` | src/a2a/limits.ts:20-31 | accepts between two calls are at most capacity plus rate times the time counted forward |
| `RateLimiter.WindowBound` | src/a2a/limits.ts:20-31 | with a clock that does not run back, at most capacity plus rate times elapsed |
| `RateLimiter.RejectedLeavesNoTrace` | src/a2a/limits.ts:20-31 | deleting a rejected call from a history changes no other answer |
| `LiveViewRelay.QueueInEveryRun` | src/browser/agentBrowserLiveViewRelay.ts:805-825 | at most 16 batches wait, only while the stream is being moved and the relay is open; each batch is answered or waits, never both |
| `LiveViewRelay.QuietMeansAnswered` | src/browser/agentBrowserLiveViewRelay.ts:549-616 | when nothing moves the stream, or the relay is closed, every batch has been answered |
| `LiveViewRelay.AnsweredOnce` | src/browser/agentBrowserLiveViewRelay.ts:583-592 | an answer never changes |
| `LiveViewRelay.StreamInAcceptanceOrder` | src/browser/agentBrowserLiveViewRelay.ts:583-592 | the stream is exactly the batches answered ok, in the order they were accepted |
| `LiveViewRelay.WithinRate` | src/browser/agentBrowserLiveViewRelay.ts:810-822 | what is accepted within a window stays within the rate |
| `LiveViewRelay.QueueIsFlushed` | src/browser/agentBrowserLiveViewRelay.ts:583-616 | in every run, a step that ends the waiting answers each waiting batch: if the relay closes, closed; if the socket is open, its number of events, and exactly their events are added to the stream in queue order; otherwise upstream_unavailable |
| `LiveViewRelay.SendMeans` | src/browser/agentBrowserLiveViewRelay.ts:805-825 | a batch is answered with the first check that it fails; one that fails none waits while the stream is moved, at most 16 of them, and is else sent at once and accepted |
| `LiveViewRelay.WindowMeans` | src/browser/agentBrowserLiveViewRelay.ts:810-822 | a batch that gets to the rate check starts a new window at its own time when the last one is over, and is counted only when it fails no check |
| `LiveViewRelay.WantMeans` | src/browser/agentBrowserLiveViewRelay.ts:549-621 | a wanted tab that is another one that still exists is moved to at once, unless something owns the stream, which then goes on to it |
| `LiveViewRelay.NudgeEndMeans` | src/browser/agentBrowserLiveViewRelay.ts:549-562 | a nudge that went well leaves the stream at rest or goes on to a wanted tab; one that failed closes the relay |
| `LiveViewRelay.ResumeMeans` | src/browser/agentBrowserLiveViewRelay.ts:594-616 | the same for a move to a tab |
| `LiveViewRelay.Relay.Submit` | src/browser/agentBrowserLiveViewRelay.ts:805-825 | refuses, queues or sends a batch as the machine does |
| `LiveViewRelay.Relay.Flush` | src/browser/agentBrowserLiveViewRelay.ts:583-592 | sends or gives up the queue in order |
| `LiveViewRelay.Relay.Terminate` | src/browser/agentBrowserLiveViewRelay.ts:342-365 | closes once, answering what waits with "closed" |
| `LiveViewRelay.Relay.BeginLoop` | src/browser/agentBrowserLiveViewRelay.ts:594-616 | the head of the retarget loop: on to the wanted tab, or out with a flush |
| `LiveViewRelay.Relay.NudgeEnded` | src/browser/agentBrowserLiveViewRelay.ts:549-562 | a nudge ends in a flush and a waiting retarget, or closes the relay |
| `LineWrap.WrapLongLines` | src/agent/toolOutputSpill.ts:48-77 | text and flag are those of the specification |
| `LineWrap.CutLine` | src/agent/toolOutputSpill.ts:60-74 | the loop over start, offset and bytes pushes the greedy chunks of the line |
| `LineWrap.ChunksOfLine` | src/agent/toolOutputSpill.ts:60-74 | the chunks join to the line, split no code point, fit or are one code point, and no fitting list is shorter |
| `LineWrap.WrapLineMeans` | src/agent/toolOutputSpill.ts:54-75 | the output lines of one line join to it, and fit with a limit of at least 4 bytes |
| `LineWrap.OnePieceIff` | src/agent/toolOutputSpill.ts:55-58 | a line stays in one piece exactly when it fits or has at most one code point |
| `LineWrap.ChangedIff` | src/agent/toolOutputSpill.ts:48-77 | the text changes exactly when a line is too long and has more than one code point |
| `LineWrap.FlagRightIff` | src/agent/toolOutputSpill.ts:52-76 | the flag says whether the text changed exactly when, if a line is too long, one of more than one code point is |
| `LineWrap.FlagTooEager` | src/agent/toolOutputSpill.ts:55-59 | a text of one code point of 3 bytes with a limit of 2 is flagged and left as it is |
| `LineWrap.FlagMeansChanged` | src/agent/toolOutputSpill.ts:52-76 | with a limit of at least 4 bytes the flag is set exactly when the text changed |
| `LineWrap.WrapAgain` | src/agent/toolOutputSpill.ts:48-77 | with a limit of at least 4 bytes every line fits, and wrapping again changes nothing |
| `Utf8.TruncateUtf8` | src/agent/toolOutputBudget.ts:87-93 | a text that fits is returned as it is, otherwise the longest prefix of whole code points within the limit, at most 3 bytes below it |
| `Utf8.LongestPrefixUnique` | src/agent/toolOutputBudget.ts:87-93 | there is one such prefix |
| `Utf8.ByteAt` | src/agent/toolOutputBudget.ts:91-91 | a byte is a continuation byte exactly when it is not the first of its code point, section 3 of RFC 3629 |
| `Utf8.DecodeEncode` | src/agent/toolOutputBudget.ts:88-92 | decoding an encoded text gives it back |
| `Utf8.CutIsPrefixIff` | src/agent/toolOutputBudget.ts:88-92 | what is cut off leaves a prefix of the text exactly when no kept code point is an unpaired surrogate |
| `ToolBudget.TurnBudget` | src/agent/toolOutputBudgetExtension.ts:84-170 | at one known usage, what a turn keeps inline totals at most the room of the window, or the capped result that met the empty ledger; capped results likewise within their share; in any order of steps |
| `ToolBudget.OneFirst` | src/agent/toolOutputBudget.ts:76-76 | at most one result with any tokens meets an empty ledger in a turn |
| `ToolBudget.LedgerIsTotal` | src/agent/toolOutputBudgetExtension.ts:84-232 | the ledger is exactly what the turn put into the context, at every step of every run |
| `ToolBudget.TurnStartsEmpty` | src/agent/toolOutputBudgetExtension.ts:86-91 | an assistant message starts an empty turn, whatever was pending |
| `ToolBudget.DeferredIff` | src/agent/toolOutputBudget.ts:73-81 | a capped result is kept exactly when the turn is empty or stays within its share with it |
| `ToolBudget.KeptIff` | src/agent/toolOutputBudget.ts:38-56 | an ordinary result is kept exactly when it is at most 3 tenths of the window and the turn stays within the room with it |
| `ToolBudget.WholeTurn` | src/agent/toolOutputBudgetExtension.ts:84-232 | the ledger of a turn at one known usage is at most the room, or the capped result that met the empty ledger, and on top of that images and notices |
| `ToolBudget.InsideIff` | src/agent/toolOutputBudgetExtension.ts:84-232 | a turn at one known usage stays inside the room throughout exactly when there is room and each charge that nothing asks about fits into what is left of it |
| `ToolBudget.ImagesUnbounded` | src/agent/toolOutputBudgetExtension.ts:146-149 | after any run, images still add any number of tokens, and none of it is text or a capped result |
| `ToolBudget.RoomIs` | src/agent/toolOutputBudget.ts:48-50 | the room is the window less what is in use and the larger of 16000 tokens and a quarter of it; capped results share at most 2 fifths of the window |
| `ToolBudget.CappedIs` | src/agent/toolOutputBudget.ts:73-81 | after any run, when a capped result is charged and when its notice is, in numbers, for a usage that is known or not |
| `ToolBudget.TextIs` | src/agent/toolOutputBudget.ts:38-56 | after any run, when the text of another tool is kept and charged, in numbers: 51200 bytes without a known usage, never when the adapter cut it |
| `ToolBudget.SpillIs` | src/agent/toolOutputBudget.ts:38-56 | the reason for each spill |
| `ToolBudget.EstimateTokens` | src/agent/toolOutputBudget.ts:34-36 | the least number of tokens of 3 bytes that hold the bytes |
| `ToolBudget.Extension.CapTurnTotal` | src/agent/toolOutputBudgetExtension.ts:93-137 | keeps or defers a capped result and charges what the model sees |
| `ToolBudget.Extension.DecideResult` | src/agent/toolOutputBudgetExtension.ts:157-170 | keeps a result and charges it, or hands it on to be spilled |
| `ToolBudget.Extension.ReplaceResult` | src/agent/toolOutputBudgetExtension.ts:232-232 | charges what replaces a spilled result |
| `SubAgents.LoadConsumerSubAgents` | src/agents/consumerSafety.ts:22-34 | the direct sub-agents exactly when every reachable agent is defined and safe and what is reachable is a tree, and nothing otherwise |
| `SubAgents.Walk.ChildIsSafe` | src/agents/consumerSafety.ts:36-50 | ends on every graph; true means the part below is explored and safe, false that the graph is not good |
| `SubAgents.AllFinishedIsGood` | src/agents/consumerSafety.ts:22-50 | when every seen agent is safe with all entries followed, everything reachable is seen and a tree |
| `SubAgents.SeenTwice` | src/agents/consumerSafety.ts:37-38 | an entry that names a seen agent is a second entry to it, or names the root |

## Left out

- SQL text, transactions' rollback on errors, file permissions, hashing and random ids.
- The order in which the event loop runs callbacks: a machine allows any other step between two awaits, so
  it has runs the program never produces. The theorems hold for them too, but for
  `GateProofs.WaiterToldStored`, whose condition on the run is stated.
- The consumer and eval branches of `gateOne`, guardrails, spans, and `on_timeout`: a call is allowed or not.
- AgentHost.Host.DecideApproval: that the actor may approve and that the agent is enabled are flags; the refusal of
  eval sessions is left out with those sessions.
- AgentHost.Host.RequestApproval: that the agent is enabled, granted the tool and has to ask are flags of the call.
- AgentHost.Host.AnswerCall: the same flags.
- AgentHost.Host.BeginTurn: that the agent is enabled and the session within its limits are flags.
- GateProofs.MissedDecision: is a run of the machine, not of the program, and says why the condition is there.
- Who may approve, whether an agent is enabled, granted a tool, must ask for it, and is within the limits of a
  session are flags of the action; the order of the checks and what each answers are modelled.
- Awaits inside the lock that read the database only are no steps, but for the one between expiry and
  answer of a request, where an expiry outside the lock may fall. In `beginTurn` such an expiry between the
  checks and the writing finds nothing to change, as it opens waiting sessions only, which are refused before.
- Eval session overrides, deletion of eval sessions, and sessions opened by an inbound message.
- `save` filling in `web_chat`, the actor, author and summary of a revision, and change listeners.
- Parsing and printing of YAML: a text spells a definition or is malformed, and a definition is equal to
  another when their printed texts are.
- Names in the agents directory that are not `.agent.yaml` files, and errors of `readdir` and `stat`.
- The `LIKE` search of session lists is the set of ids it finds; rollup columns and statistics are not listed.
- The text of a page cursor is a pair; one that does not decode is no cursor.
- Texts in columns are ordered by unit, which is SQLite's byte order for the ASCII ids and times it sorts.
- JSON values with `undefined`, `NaN`, or keys that JavaScript orders as integers; and drafts with a key
  `__proto__`, where the source's assignment sets the prototype of the merged object and loses the field.
- The a2a message table, publications, submission keys and the cap on unfinished tasks.
- Screencast frames, CDP messages, dialogs, subscribers and the text of reasons in the live view relay.
- LiveViewRelay.Relay.Submit: ids stand for calls, so a repeated id is ignored.
- The conjuncts of `isConsumerSafeAgent` are one flag of an agent; loading is a map that stays fixed.
- Results of exempt tools and of nested calls, which the token ledger never sees.
- Byte limits that are `NaN` or infinite.
- The ledger of sends inside a channel connection, and the sweep's list of due deliveries; a retry claim
  itself checks that it is due.
- The Pi and Claude adapters, MCP, providers, CLI, HTTP and JSON-RPC routing, and the user interface.
