# A model of SCV's protocols

SCV is an agent daemon with chat channels. This project models the parts of it whose behaviour is hard to see
from one function at a time, and proves what they promise.

| part | files |
|---|---|
| the bridge of one chat account: claims, replies, crash recovery, refused replies, retries, reactions, mail chats | `Seen`, `Held`, `Delivery`, `ChatState`, `Bridge`, `BridgeClaims`, `BridgeReplies`, `BridgeParts`, `BridgeReactions`, `BridgeMail`, `BridgeRuns`, `BridgeAnswers`, `BridgeCases` |
| what the bridge does with a message, and questions to the owner | `Words`, `Verdicts`, `Questions`, `QuestionRuns` |
| the session that interleaves turns on one stream | `Sessions`, `SessionLives`, `SessionTells`, `SessionClient` |
| an account's credentials, state and settings | `Accounts` |
| context selection, history trimming, turns with rollback, and the encoder | `Messages`, `Json`, `Contexts`, `HistoryLimits`, `Turns`, `Runtime`, `Encoder`, `Requests` |
| the line decoder | `Frames` |
| calendar arithmetic | `Calendar` |
| text by bytes, splitting, and code blocks | `Text`, `CodeBlocks` |
| shared names | `Wrappers`, `Ids` |

Text is a sequence of characters, each one to four bytes wide. A crash reloads the last saved state. Concurrent
tasks are steps that interleave where the source releases its lock. What the outside decides (the platform, the
model, the clock, the sink, cancellation, whether a save works) is a parameter or an event.

The bridge is one state machine (`Bridge.Next`) over saved state, memory, the platform and a history of the run.
Each `Bridge…` module has an invariant that every step keeps, and `BridgeRuns` states what follows in every run
from an empty account. `ChatState.Chat` holds the same state in fields and changes it with the source's loops;
each method is proved equal to the step function the state machine uses.

Where the code and its documentation disagree, the model follows the code:

- `append_capped` says "up to `max_bytes`"; an answer can be longer by the 18 bytes of its note. `Sessions.CappedExactly` says exactly when, `Sessions.CapExceeded` shows such answers under every limit.
- The encoder says it shows the newest eight images; it shows whole messages, so a message that does not fit is skipped and older ones may be shown. `Encoder.NewestShownWhen` says exactly when the documentation holds, `Encoder.NewestNotAlwaysShown` shows a case where it does not.
- The count of a trimmed history includes the notes earlier rounds put in. `HistoryLimits.CountExactWhen` says exactly when it is the number of messages gone, `HistoryLimits.CountTooHigh` shows a case where it is not.
- A key does not always give its chat back. `Verdicts.ChatReadBackWhen` says exactly when; for IDs without NULs it fails only in a group's thread by a sender whose ID is the mark's own word (`Verdicts.ChatReadBack`), and there always (`Verdicts.ThreadSenderMisread`).
- A working reaction is lost when an add ends for a claim that already has one, whether or not the new one can be saved. `BridgeReactions.OverwriteLoses` says exactly when, `BridgeCases.OverwriteReached` and `BridgeCases.FirstReactionLost` show a run: the message was answered and forgotten while its first add still ran.
- A part whose send arrived unseen can be refused when tried again; then it is delivered and held too. `BridgeParts.RefusedExact` says exactly when, `BridgeParts.CarryingRefused` what then waits of a reply that carries others, `BridgeCases.DeliveredAndHeld` shows a run.
- A body sent in code blocks loses a carriage return at the end of a block. `CodeBlocks.PartsReadAsBody` says exactly when, `CodeBlocks.ReturnLost` shows a body. An agent's reply goes out unedited, so a cut after the first half of a Windows line ending is such a case.

## Model

| member | source | states |
|---|---|---|
| `Seen.SeenIsRecent` | crates/scv-channels/src/lib.rs:2980-2987 | the list always is the last 4096 distinct IDs of the whole history of marks, by most recent mark |
| `Seen.RememberedWhile` | crates/scv-channels/src/lib.rs:2980-2987 | an ID is remembered if and only if fewer than the window's number of other IDs were marked since its last mark |
| `Held.PruneIs` | crates/scv-channels/src/lib.rs:2847-2878 | pruning is an order-preserving subsequence within age, count, byte and total limits, leaves alone exactly what is within them, and is idempotent |
| `Held.PruneKeeps` | crates/scv-channels/src/lib.rs:2847-2878 | pruning keeps exactly the replies younger than a week that find room beside the newer ones kept: 128 in all, 4 and 32768 bytes for the conversation |
| `Held.KeepsRoomOnce` | crates/scv-channels/src/lib.rs:2854-2868 | there is only one choice with that property |
| `Held.NewestKept` | crates/scv-channels/src/lib.rs:2854-2868 | the newest fresh reply is kept if it is within the bytes of a conversation |
| `Held.PrunedAwayIs` | crates/scv-channels/src/lib.rs:2847-2878 | what pruning leaves out was stale or had no room |
| `Held.Truncate` | crates/scv-channels/src/lib.rs:2837-2845 | a held reply fits half a message: unchanged, or its longest prefix before the marker |
| `Held.TakeParts` | crates/scv-channels/src/lib.rs:2766-2786 | taking held replies along loses and repeats none, and takes only the conversation's own |
| `Held.TakeOrders` | crates/scv-channels/src/lib.rs:2766-2786 | what is taken and what is left both keep their order |
| `Held.TakeLongest` | crates/scv-channels/src/lib.rs:2766-2786 | what is taken is as many of the conversation's oldest held replies as fit in the room; the rest and those of other conversations stay |
| `Held.CarryingFitsOnePart` | crates/scv-channels/src/lib.rs:2755-2806 | a reply that carries anything is a single part |
| `Held.CarriesLongest` | crates/scv-channels/src/lib.rs:2755-2806 | a reply carries as many of them as one message has room for beside its own text |
| `Held.ComposedSays` | crates/scv-channels/src/lib.rs:2785-2806 | a reply that carries nothing is its own text, and any other is each carried text under its header, in order, and then its own under the last header |
| `Held.SortIs` | crates/scv-channels/src/lib.rs:2832-2833 | putting replies back sorts them by age and keeps each as often |
| `Held.SortStable` | crates/scv-channels/src/lib.rs:2832-2833 | replies of the same age keep their order |
| `Held.RestoredIs` | crates/scv-channels/src/lib.rs:2808-2835 | a refused reply, what it carried and what was held make up what then waits and what pruning leaves out, in order |
| `ChatState.ChooseKept` | crates/scv-channels/src/lib.rs:2854-2868 | the backward loop with running counts per conversation keeps what the recursive rule keeps |
| `ChatState.RetainFresh` | crates/scv-channels/src/lib.rs:2849-2853 | the loop keeps exactly the replies within their age |
| `ChatState.RetainFlagged` | crates/scv-channels/src/lib.rs:2869-2870 | the loop keeps exactly the flagged replies, in order |
| `ChatState.FirstJobs` | crates/scv-channels/src/lib.rs:2924-2937 | the loop finds the first job of each conversation |
| `ChatState.Chat.MarkSeen` | crates/scv-channels/src/lib.rs:2980-2987 | removing, appending and draining in place is the mark step, and no ID is listed twice |
| `ChatState.Chat.PruneHeld` | crates/scv-channels/src/lib.rs:2849-2878 | the three loops prune as specified |
| `ChatState.Chat.TakeHeld` | crates/scv-channels/src/lib.rs:2766-2786 | removing by index while scanning takes and leaves what the recursive rule does, and quotes it in order |
| `ChatState.Chat.ComposePending` | crates/scv-channels/src/lib.rs:2758-2806 | the reply, the held replies left and the client IDs used |
| `ChatState.Chat.HoldRefused` | crates/scv-channels/src/lib.rs:2810-2835 | what is held after a refusal, for whole and partly delivered replies and for transient ones |
| `ChatState.Chat.FinishFirst` | crates/scv-channels/src/lib.rs:2634-2663 | the whole state after the oldest reply is done with |
| `ChatState.Chat.EndClaim` | crates/scv-channels/src/lib.rs:1982-1996 | the whole state after a claim became a reply in one write |
| `ChatState.Chat.RecoverInterrupted` | crates/scv-channels/src/lib.rs:2901-2959 | the whole state a new run starts from |
| `BridgeClaims.StepKeeps` | crates/scv-channels/src/lib.rs:1347-1530 | every step keeps claims, replies, seen IDs and the history in agreement |
| `BridgeClaims.TurnHasClaim` | crates/scv-channels/src/lib.rs:1982-1996 | a turn that runs finds its claim |
| `BridgeClaims.NeverLost` | crates/scv-channels/src/lib.rs:1347-1530 | what was taken on is claimed, pending, or was marked seen since |
| `BridgeClaims.OncePerWindow` | crates/scv-channels/src/lib.rs:1347-1530 | between two times a message is taken on, two turns of it or two replies to it, it was marked, and the window's number of others was marked before it was taken on again |
| `BridgeClaims.EachAnswered` | crates/scv-channels/src/lib.rs:1982-1996 | each time a message was taken on it was answered exactly once or is still claimed, and ran at most once |
| `BridgeClaims.AnswerKept` | crates/scv-channels/src/lib.rs:1622-1651 | a message answered when it was taken on has its reply pending, or was marked since |
| `BridgeReplies.ComposeOk` | crates/scv-channels/src/lib.rs:2755-2806 | a reply that carries others is one part made of them and its own text |
| `BridgeReplies.EndClaimWaiting` | crates/scv-channels/src/lib.rs:2755-2806 | when a claim becomes a reply, what waited is what then waits, held or carried, and what pruning leaves out |
| `BridgeReplies.HoldWaiting` | crates/scv-channels/src/lib.rs:2808-2835 | when a reply is done with, a refused one waits with all it carried and a delivered one took what it carried along; only pruning leaves any out |
| `BridgeReplies.StepKeeps` | crates/scv-channels/src/lib.rs:2524-2684 | every step keeps the account of refused replies, whose drops are only what pruning leaves out |
| `BridgeReplies.CarryingRefusedWhole` | crates/scv-channels/src/lib.rs:2808-2835 | a reply that carries others is refused at its first part, so all it carried is restored |
| `BridgeReplies.PlainReplyWhole` | crates/scv-channels/src/lib.rs:2820-2825 | the delivered parts and the stored remainder of a plain reply are the reply |
| `BridgeReplies.PlainRefused` | crates/scv-channels/src/lib.rs:2808-2835 | a refused plain reply is held, under its conversation and address, for exactly what was not recorded as sent; a transient one is not held |
| `BridgeReplies.RecoverDropsOnce` | crates/scv-channels/src/lib.rs:2901-2922 | recovery drops no more than one pruning of what was held |
| `BridgeReplies.StepDrops` | crates/scv-channels/src/lib.rs:2847-2878 | what a step drops was stale, or had no room, in the list it prunes |
| `BridgeParts.ReceiveNext` | crates/scv-channels/src/lib.rs:2571-2594 | sending the next part again changes nothing if it arrived and completes the prefix if not |
| `BridgeParts.StepKeeps` | crates/scv-channels/src/lib.rs:2530-2594 | every step keeps what the platform has of each reply a prefix of its parts |
| `BridgeParts.TextWhole` | crates/scv-channels/src/lib.rs:2571-2602 | a reply whose last part is recorded as sent is whole on the platform, at its address, before its files are |
| `BridgeParts.FinishedWhole` | crates/scv-channels/src/lib.rs:2530-2637 | a reply that is done with and was not refused arrived whole, at its address, and all its files were sent |
| `BridgeParts.PartsSent` | crates/scv-channels/src/lib.rs:2530-2570 | a reply of files alone has no text part, and no part of another is empty unless the reply is |
| `BridgeParts.RefusedExact` | crates/scv-channels/src/lib.rs:2808-2835 | what the platform has of a refused plain reply and what is held of it are the reply if and only if it did not have the part it refused, or the reply is empty |
| `BridgeParts.CarryingRefused` | crates/scv-channels/src/lib.rs:2808-2835 | a refused reply that carries others is put back with all of them; the platform has all of it if its one part had arrived, and else nothing |
| `BridgeParts.PastStays` | crates/scv-channels/src/lib.rs:2962-2978 | no step changes what the platform has of a reply that is no longer pending |
| `BridgeReactions.StepKeeps` | crates/scv-channels/src/lib.rs:1693-1783 | every step for which no claim gets a second reaction keeps the account: each reaction saved, or put back by a crash, is in one place or was tried |
| `BridgeReactions.OverwriteLoses` | crates/scv-channels/src/lib.rs:1693-1724 | the end of an add breaks the account if and only if the claim already has a reaction, whether or not the new one is saved |
| `BridgeReactions.StepAdds` | crates/scv-channels/src/lib.rs:1653-1724 | if no message is taken on while its last add runs, at most one add runs for each and its claim has no reaction; an add that ends with nothing no longer runs |
| `BridgeReactions.AddsNeverOverwrite` | crates/scv-channels/src/lib.rs:1693-1724 | then no reaction is replaced |
| `BridgeReactions.EndPlaces` | crates/scv-channels/src/lib.rs:2800-2800 | a reply takes over its claim's reaction |
| `BridgeReactions.FinishPlaces` | crates/scv-channels/src/lib.rs:2635-2643 | a finished reply's reaction moves to the list to take off |
| `BridgeReactions.UntriedInPlace` | crates/scv-channels/src/lib.rs:1762-1783 | a reaction whose removal was not tried is saved in exactly as many places as it was saved times |
| `BridgeReactions.TakenOff` | crates/scv-channels/src/lib.rs:1762-1783 | trying the oldest waiting removal takes it off the list, and off the saved one if that save works |
| `BridgeCases.OverwriteReached` | crates/scv-channels/src/lib.rs:1693-1724 | a run from an empty account that reaches a second reaction for a claim that has one |
| `BridgeCases.FirstReactionLost` | crates/scv-channels/src/lib.rs:1693-1724 | after it the first reaction, saved and never tried, is in no place |
| `BridgeCases.DeliveredAndHeld` | crates/scv-channels/src/lib.rs:2571-2594 | a run from an empty account in which a part is delivered and, refused when tried again, held too |
| `BridgeMail.StepMailNotice` | crates/scv-channels/src/lib.rs:2463-2497 | a notice key is stored at most once and is known afterwards |
| `BridgeMail.KeysRemembered` | crates/scv-channels/src/lib.rs:2463-2497 | a stored key is remembered while it is less than a week old and among the newest 512 |
| `BridgeMail.StepBoot` | crates/scv-channels/src/lib.rs:675-685 | only an account without an ordinary chat's state, position or log becomes a mail chat, and starting one again changes nothing |
| `BridgeMail.StepKeeps` | crates/scv-channels/src/lib.rs:2424-2497 | every step keeps each kind of chat as it is |
| `BridgeRuns.EveryRun` | crates/scv-channels/src/lib.rs:655-765 | every run from an empty account, with crashes anywhere, keeps all of these invariants |
| `BridgeRuns.OncePerWindow` | crates/scv-channels/src/lib.rs:1347-1530 | in every run, between two times a message is taken on, two turns of it or two replies to it, it was marked, and the window's number of others was marked before it was taken on again |
| `BridgeRuns.TurnsAndReplies` | crates/scv-channels/src/lib.rs:1982-1996 | in every run each time a message was taken on it was answered exactly once or is still claimed, and ran at most once |
| `BridgeRuns.NothingLost` | crates/scv-channels/src/lib.rs:2901-2922 | in every run what was taken on is claimed, pending or marked since, across crashes |
| `BridgeRuns.ClaimedApart` | crates/scv-channels/src/intake.rs:128-141 | in every run a claimed message is neither pending nor seen, and none is held twice |
| `BridgeRuns.TurnsKeepTheirClaims` | crates/scv-channels/src/lib.rs:1982-1996 | in every run a running turn finds its claim |
| `BridgeRuns.EditsWhatItRead` | crates/scv-channels/src/lib.rs:2524-2594 | in every run the reply the delivery loop edits as the oldest is the one it read |
| `BridgeRuns.RepliesAccounted` | crates/scv-channels/src/lib.rs:2755-2878 | in every run each refused reply waits, went out inside a later one, or was left out by pruning, as often as it was refused |
| `BridgeRuns.DroppedWhen` | crates/scv-channels/src/lib.rs:2847-2878 | in every run what pruning left out was, at some event, stale or without room beside the newer ones kept |
| `BridgeRuns.PartsInOrder` | crates/scv-channels/src/lib.rs:2530-2594 | in every run the platform has of the oldest reply its recorded parts or one more, in order and each once, and nothing of later ones |
| `BridgeRuns.FinishedStaysWhole` | crates/scv-channels/src/lib.rs:2530-2637 | in every run a reply done with and not refused is whole on the platform, once, in order and at its address, whatever happens later, and its files were sent |
| `BridgeRuns.SettledForGood` | crates/scv-channels/src/lib.rs:2962-2978 | whatever happens later, what the platform has of a finished reply stays |
| `BridgeRuns.ReactionsInOnePlace` | crates/scv-channels/src/lib.rs:1693-1783 | in every run in which none is replaced a reaction not yet tried is saved in exactly as many of claims, replies and removals as it was saved times |
| `BridgeRuns.UnhurriedNeverOverwrites` | crates/scv-channels/src/lib.rs:1653-1724 | in every run none is replaced if no message is taken on while the last add of its reaction runs |
| `BridgeRuns.KindsOfChat` | crates/scv-channels/src/lib.rs:675-685 | in every run a mail chat holds only transient replies, one per key, and nothing else, and an ordinary chat no keyed notice |
| `BridgeRuns.ChatNeverBecomesMail` | crates/scv-channels/src/lib.rs:767-811 | in every run an account that ever handled a message as an ordinary chat never becomes a mail chat |
| `BridgeAnswers.EndClaimAnswers` | crates/scv-channels/src/lib.rs:1982-1996 | the reply to a claim answers its message, at its address and for its conversation, and says the turn's text behind the held replies that fit; the others stay held |
| `BridgeAnswers.RecoverAnswers` | crates/scv-channels/src/lib.rs:2901-2922 | recovery answers every claim, in order, with the failure |
| `BridgeAnswers.StoppedJobsAre` | crates/scv-channels/src/lib.rs:2924-2937 | exactly the first job of each conversation is told of |
| `BridgeAnswers.BootAnswers` | crates/scv-channels/src/lib.rs:2901-2959 | a new run queues, behind what waits, the failure for each claim and then its notice for each conversation that lost jobs |
| `BridgeAnswers.AtOnce` | crates/scv-channels/src/lib.rs:1622-1651 | an answer without a turn, a message SCV queues and a mail notice are queued last and say what they were given, at the address given |
| `BridgeAnswers.RecordsPosition` | crates/scv-channels/src/lib.rs:1330-1340 | the position polled up to is saved |
| `BridgeAnswers.RecordsJobs` | crates/scv-channels/src/lib.rs:1250-1305 | the jobs that run are saved as given |
| `BridgeAnswers.StepKeepsReplies` | crates/scv-channels/src/lib.rs:2524-2684 | no step changes a waiting reply, but for how much of it is recorded as sent, or overtakes an older one |
| `BridgeAnswers.TakenOnAt` | crates/scv-channels/src/lib.rs:1430-1530 | in every run every claim was taken on at some event, at its address and for its conversation |
| `BridgeAnswers.EveryReply` | crates/scv-channels/src/lib.rs:2524-2684 | in every run a reply that is queued waits at the end, or the platform refused it, or has all of it for good; only a question can be dropped before |
| `BridgeAnswers.EveryAnswer` | crates/scv-channels/src/lib.rs:1982-1996 | in every run, when a message's turn ends with a text, its reply waits, or was refused, or the platform has that text, behind what it carries, at the address the message was taken on with |
| `Verdicts.SameConversation` | crates/scv-channels/src/intake.rs:56-75 | for IDs without NULs, two messages share a conversation if and only if group, sender and thread agree |
| `Verdicts.SamePieces` | crates/scv-channels/src/intake.rs:56-75 | for any IDs, two messages share a conversation if and only if their IDs have the same pieces between NULs |
| `Verdicts.NulCollides` | crates/scv-channels/src/intake.rs:56-75 | with a NUL in an ID every conversation in a group has the key of a direct chat |
| `Verdicts.ChatReadBack` | crates/scv-channels/src/intake.rs:77-83 | for IDs without NULs, a conversation's chat is read back from its key except for exactly one family of senders |
| `Verdicts.ChatReadBackWhen` | crates/scv-channels/src/intake.rs:77-83 | for any IDs, it is read back if and only if no mark ends before the thread's own |
| `Verdicts.ThreadSenderMisread` | crates/scv-channels/src/intake.rs:77-83 | every group's thread by a sender with the ID "thread" reads back as the group alone |
| `Verdicts.EvictsOldest` | crates/scv-channels/src/intake.rs:240-254 | the conversation closed is the least recently used of those with nothing to do, and none only if there is none |
| `Verdicts.TurnWithinLimits` | crates/scv-channels/src/intake.rs:179-206 | a turn's verdict keeps all three limits and is given only for a message the state does not hold |
| `Verdicts.AnswersWhen` | crates/scv-channels/src/intake.rs:161-174 | exactly when a message answers the waiting question |
| `Verdicts.VerdictWhen` | crates/scv-channels/src/intake.rs:119-206 | exactly when each verdict is given to a message, by the message's and the situation's fields |
| `Verdicts.VerdictSays` | crates/scv-channels/src/intake.rs:148-205 | the conversation a verdict names; yes exactly for a word for yes; tools exactly in a direct chat of the owner who has them; and the least recently used idle conversation to close exactly when there is no other place |
| `Verdicts.OnlyOwner` | crates/scv-channels/src/intake.rs:143-146 | on an account for its owner alone nobody else's message gets a turn, an answer or an excuse |
| `Verdicts.OtherPassed` | crates/scv-channels/src/intake.rs:128-141 | what is no message is passed over, unless it is held already |
| `Words.AnswerSays` | crates/scv-channels/src/intake.rs:222-238 | a text answers yes, or no, if and only if it is one of the words for it, in any case, with spaces around it and perhaps full stops or exclamation marks behind |
| `Verdicts.VerdictsAreSteps` | crates/scv-channels/src/lib.rs:1347-1530 | each verdict's steps, also those after a task is offered the message, can be taken and leave the state the verdict says: marked, answered, claimed, or as it was |
| `Verdicts.Accept` | crates/scv-channels/src/lib.rs:1358-1427 | the loop ends after at most two classifications, and an answer stands exactly if the question could be taken |
| `Questions.Hub.Ask` | crates/scv-channels/src/hub.rs:832-850 | a chat holds at most one question |
| `Questions.Hub.Withdraw` | crates/scv-channels/src/hub.rs:852-866 | the question is gone, and where it stood |
| `Questions.Hub.TakeQuestion` | crates/scv-channels/src/hub.rs:1110-1121 | taken exactly if it reached the chat no later than the message was sent |
| `Questions.Hub.QuestionDelivered` | crates/scv-channels/src/hub.rs:1133-1141 | only the first arrival counts |
| `Questions.Hub.QuestionUndelivered` | crates/scv-channels/src/hub.rs:1145-1151 | the question is gone |
| `Questions.FirstArrivalCounts` | crates/scv-channels/src/hub.rs:1133-1141 | a question keeps the time of its first arrival, and others are untouched |
| `Questions.WithoutOnly` | crates/scv-channels/src/hub.rs:852-866 | a question withdrawn is in no chat, and every other chat holds what it did |
| `QuestionRuns.SettledOnce` | crates/scv-channels/src/hub.rs:832-866 | in every run a question is settled at most once, and until then it waits or its answer is in hand |
| `QuestionRuns.AnsweredInTime` | crates/scv-channels/src/hub.rs:1110-1121 | in every run an answer is given only to a question whose whole text the platform had, each part once and in order, no later than the answering message was sent |
| `QuestionRuns.AskedWhole` | crates/scv-channels/src/lib.rs:2571-2602 | when the bridge tells the hub that a question was delivered, the whole text is on the platform |
| `QuestionRuns.AnsweredAsTaken` | crates/scv-channels/src/lib.rs:1358-1427 | in every run an answer given is the one taken: the account's bridge took that question, in one of the account's chats, for the message it heard, and what the message says is what is given |
| `QuestionRuns.AnswerAcks` | crates/scv-channels/src/lib.rs:1622-1651 | saving the acknowledgement leaves it as the newest saved reply, to the message the bridge hears |
| `QuestionRuns.AnsweredIsAcknowledged` | crates/scv-channels/src/lib.rs:1622-1651 | in every run of the hub and its bridges, when an answer has been given its acknowledgement is among the saved pending replies or is done with |
| `QuestionRuns.StepKeeps` | crates/scv-channels/src/lib.rs:1361-1396 | every step keeps each question in one place, every answer in time and every given answer acknowledged |
| `Sessions.CappedExactly` | crates/scv-channels/src/session.rs:638-653 | an answer exceeds the limit if and only if something is cut with less room than the note needs, and never by more than the note |
| `Sessions.CapExceeded` | crates/scv-channels/src/session.rs:638-653 | under every limit an answer that uses it up comes out longer by the note once anything follows |
| `Sessions.TextBounded` | crates/scv-channels/src/session.rs:536-544 | a whole turn's text is within the limit, or ends with the note and is within the limit and the note |
| `Sessions.TextShows` | crates/scv-channels/src/session.rs:536-544 | a turn's text is what it wrote since, and with, its last complete answer: all of it up to the piece that goes over the limit, cut there to the longest prefix that leaves room for the note, but no shorter than it was, and the note |
| `Sessions.ShownWhole` | crates/scv-channels/src/session.rs:639-653 | so what stays within the limit and never ends like a cut answer is shown whole |
| `Sessions.FilesInOrder` | crates/scv-channels/src/session.rs:289-299 | a turn's files are those its tool calls attached, each once and in order |
| `SessionLives.EveryLife` | crates/scv-channels/src/session.rs:249-437 | in every life every turn's answer so far is the one its own events give |
| `SessionLives.AnswersAreTheirOwn` | crates/scv-channels/src/session.rs:512-590 | in every life the answer a turn ended with is that turn's own: what it wrote, as far as its limit goes, and the files it attached |
| `SessionLives.OthersDoNotMatter` | crates/scv-channels/src/session.rs:512-590 | two lives that give a turn the same events give it the same text and files |
| `SessionLives.TurnAnswers` | crates/scv-channels/src/session.rs:554-562 | a turn ends with its own answer when its completion comes: what it wrote, as far as its limit goes, and the files it attached |
| `SessionLives.ReportAnswers` | crates/scv-channels/src/session.rs:409-420 | a report hands over what its own turn wrote, up to 64 KiB, and attached, after SCV's lines, unless it is empty |
| `SessionLives.ReportsInOrder` | crates/scv-channels/src/session.rs:226-243 | in every life the reports handed over and waiting are those the server's completed turns give, each from its own events, in order and none twice |
| `SessionLives.AbandonedDenied` | crates/scv-channels/src/session.rs:380-397 | nothing an abandoned turn asks for is approved |
| `SessionLives.StrayText` | crates/scv-channels/src/session.rs:372-377 | text of another turn stays out of an answer exactly while that turn is known |
| `SessionTells.EveryLifeTells` | crates/scv-channels/src/session.rs:244-437 | in every life the responses handed over and waiting are, in order, exactly those the inputs give; each approval is answered once, yes exactly with tools and for a turn not abandoned; the client's turns end as the server says; and the jobs tracked are those last said to run |
| `SessionTells.EveryCancel` | crates/scv-channels/src/session.rs:450-465 | in every life the server is asked to cancel exactly the turns given up that it had said it runs, each by its own run |
| `SessionClient.Session.Observe` | crates/scv-channels/src/session.rs:244-370 | the loops over jobs and outcomes make the observing step |
| `SessionClient.Session.Absorb` | crates/scv-channels/src/session.rs:379-437 | handling another turn's event makes the absorbing step |
| `SessionClient.Session.HearOne` | crates/scv-channels/src/session.rs:512-590 | one event heard while a turn of the client runs makes the hearing step, and ends the turn when it is that turn's end |
| `SessionClient.Session.Turn` | crates/scv-channels/src/session.rs:512-590 | the loop hears events until the turn ends, and reports that end |
| `SessionClient.Session.NextReport` | crates/scv-channels/src/session.rs:231-243 | the loop hears events until a report waits and hands over the oldest |
| `SessionClient.Session.TakeReports` | crates/scv-channels/src/session.rs:226-229 | all that waits is handed over |
| `SessionClient.Session.CancelCurrent` | crates/scv-channels/src/session.rs:450-465 | the abandoned turn's late events are ignored from then on, the server is asked to cancel it if it runs, and else the session is to be replaced |
| `Accounts.Store.SaveAccount` | crates/scv-channels/src/state.rs:634-653 | the files after a login, a refused one, and one cut off between its two writes |
| `Accounts.Store.BindState` | crates/scv-channels/src/state.rs:884-903 | when a run gets the state, and that it is bound then |
| `Accounts.Store.SaveState` | crates/scv-channels/src/state.rs:862-866 | a state is saved exactly if it matches the saved credentials |
| `Accounts.Store.SaveSettings` | crates/scv-channels/src/state.rs:700-703 | the settings become those given |
| `Accounts.Store.Remove` | crates/scv-channels/src/state.rs:937-951 | credentials, state and settings after a logout and after one cut off anywhere |
| `Accounts.RunKeeps` | crates/scv-channels/src/state.rs:370-378 | over every run saved credentials come with a state bound to them and made under them |
| `Accounts.NoOtherIdentity` | crates/scv-channels/src/state.rs:884-903 | in every run a bridge works only with what runs of its own identity left |
| `Accounts.SameFingerprint` | crates/scv-channels/src/state.rs:634-653 | in every run saved credentials and saved state have the same fingerprint |
| `Accounts.LoginWhen` | crates/scv-channels/src/state.rs:634-653 | in every run a login succeeds if and only if nothing is saved or the same identity is |
| `Accounts.SettingsOutlive` | crates/scv-channels/src/state.rs:937-951 | in every run an account with credentials has the settings last chosen for it, so a logout cut off anywhere never leaves it enabled by default |
| `Accounts.ItemsStay` | crates/scv-channels/src/state.rs:862-903 | only a bridge's own save and a logout change what is kept for an account; a bridge starts with all of it |
| `Accounts.FailsClosed` | crates/scv-channels/src/state.rs:937-951 | after an interrupted login or logout nothing starts or logs in until a logout gets as far as the state |
| `Contexts.GroupMessages` | crates/scv-core/src/context.rs:119-132 | the groups are whole, in order, and each starts at a user message |
| `Contexts.LongestIs` | crates/scv-core/src/context.rs:286-310 | trying every length finds the longest prefix that fits, and none exactly when the empty note does not fit |
| `Contexts.FitHistoryNote` | crates/scv-core/src/context.rs:286-310 | the binary search gives the same answer as trying every length |
| `Contexts.Select` | crates/scv-core/src/context.rs:183-281 | the selection is the longest group-aligned suffix that fits with the note for what is removed, a cut note beside the newest group alone, or the right error |
| `Contexts.KeepWithNote` | crates/scv-core/src/context.rs:229-281 | giving up groups until the note fits keeps the longest suffix that does |
| `Contexts.KeepNewest` | crates/scv-core/src/context.rs:229-281 | beside the newest group alone the note is cut to the longest that fits |
| `Contexts.SelectionFits` | crates/scv-core/src/context.rs:183-281 | whatever is selected fits the window beside the system prompt, the tools, the reserve and the margin, ends with the newest group whole, counts exactly what is removed, and its note is the summary of that, or a prefix of it |
| `HistoryLimits.EnforceRound` | crates/scv-core/src/history.rs:31-75 | each round of the loop, and the measure that makes it end |
| `HistoryLimits.EnforceSucceeds` | crates/scv-core/src/history.rs:26-84 | for every history trimming succeeds if and only if what it cannot take away is within both limits |
| `HistoryLimits.ActiveTurnDecides` | crates/scv-core/src/history.rs:26-84 | for histories the runtime makes that is the active turn |
| `HistoryLimits.EnforceTrims` | crates/scv-core/src/history.rs:26-84 | only a prefix goes behind at most one note, the active turn stays, and the result is within the limits |
| `HistoryLimits.CountExactWhen` | crates/scv-core/src/history.rs:31-83 | the count of a successful trimming is the number of messages gone if and only if nothing is trimmed, there is no older turn, or trimming the oldest one was enough |
| `HistoryLimits.CountTooHigh` | crates/scv-core/src/history.rs:31-83 | two turns, one of which is trimmed, counted as two messages gone |
| `HistoryLimits.EnforceNotes` | crates/scv-core/src/history.rs:31-83 | what stands for removed turns is one note, made of what it stands for, behind the last note, and of the count so far |
| `Json.MessageIs` | crates/scv-core/src/message.rs:8-31 | the bytes of a message are those of its JSON text |
| `Json.HistoryIs` | crates/scv-core/src/history.rs:86-88 | the bytes of a history are those of its JSON text |
| `Json.TokensAre` | crates/scv-core/src/message.rs:43-60 | a message costs the bytes of its JSON text in tokens, rounded up, and 4, and 1600 for each image |
| `Runtime.Session.EnforceLimits` | crates/scv-core/src/history.rs:26-84 | the loop in place trims as specified, and fails if the sink does |
| `Runtime.Session.RunCall` | crates/scv-core/src/runtime.rs:183-301 | one call is answered by one result, whose content and error flag are the call's outcome; a failure is what the last question was answered with |
| `Runtime.Session.AskModel` | crates/scv-core/src/runtime.rs:136-175 | the model is asked about what the context policy chooses of the history, and its answer is recorded with its calls |
| `Runtime.Session.RunCalls` | crates/scv-core/src/runtime.rs:177-276 | each call is made, in order and once, and followed by its result |
| `Runtime.Session.RunStep` | crates/scv-core/src/runtime.rs:136-276 | one model answer with exactly its content and calls, and the result of each call in order |
| `Runtime.Session.RunSteps` | crates/scv-core/src/runtime.rs:117-277 | the turn is the prompt and then what each step recorded, each step about this turn so far behind a group-aligned part of the old history; it ends at the first answer without calls, and only there, or at the step limit |
| `Runtime.Session.RunTurn` | crates/scv-core/src/runtime.rs:99-115 | success leaves a group-aligned part of the old history and exactly this turn, which is what the model and the tools said; failure leaves history as it was, and says why |
| `Runtime.TrimBeforeTurn` | crates/scv-core/src/history.rs:26-84 | trimming never reaches into the turn and cuts in front of a turn |
| `Runtime.AlignedTwice` | crates/scv-core/src/history.rs:26-84 | trimming again is a trimming of the first history |
| `Runtime.AlignedKeepsShape` | crates/scv-core/src/history.rs:26-84 | the kept part of well-formed history is well-formed |
| `Runtime.TurnKeepsShape` | crates/scv-core/src/runtime.rs:99-277 | history stays whole turns behind at most one note |
| `Encoder.InputBalanced` | crates/scv-provider-openai/src/encode.rs:26-88 | for every message list each output answers an open call and none is open at a role item or at the end |
| `Encoder.InputKeepsAll` | crates/scv-provider-openai/src/encode.rs:26-88 | without what the encoder adds, the input is what the messages ask for, each once, in order |
| `Encoder.InputTells` | crates/scv-provider-openai/src/encode.rs:26-88 | for every message list the input tells everything each side said, every call with its name and arguments, every result under its call, and every message with images, each kind once and in order |
| `Encoder.NothingInvented` | crates/scv-provider-openai/src/encode.rs:26-88 | for whole turns, perhaps with one that waits for the model, it adds nothing |
| `Encoder.SelectionNeedsNothing` | crates/scv-core/src/context.rs:119-132 | nor for anything the context policy selects from such a history |
| `Encoder.ShowWithinBudget` | crates/scv-provider-openai/src/encode.rs:29-40 | at most the budget's number of images is shown |
| `Encoder.NewestShownWhen` | crates/scv-provider-openai/src/encode.rs:29-40 | the newest images are shown if and only if whole messages at the end hold exactly the budget, or all there is |
| `Encoder.NewestNotAlwaysShown` | crates/scv-provider-openai/src/encode.rs:29-40 | an older image is shown and the newest ones are not |
| `Encoder.ExactSuffixShown` | crates/scv-provider-openai/src/encode.rs:29-40 | messages that use the budget up exactly are the ones shown |
| `Encoder.WhichToShow` | crates/scv-provider-openai/src/encode.rs:29-40 | the loop from the end chooses as specified |
| `Encoder.CloseUnanswered` | crates/scv-provider-openai/src/encode.rs:132-139 | every open call gets one made-up result, in order |
| `Encoder.EncodeOne` | crates/scv-provider-openai/src/encode.rs:42-85 | one message's items and the calls open after it |
| `Encoder.ResponseInput` | crates/scv-provider-openai/src/encode.rs:26-88 | the loop builds the specified input and counts the images it shows |
| `Requests.TurnAtStep` | crates/scv-core/src/runtime.rs:117-150 | what a turn holds when it asks the model is whole turns and this one waiting |
| `Requests.RequestAsRecorded` | crates/scv-core/src/runtime.rs:136-163 | for any selection the encoder adds no call and no result to what the runtime recorded |
| `Frames.DecodeIsSplit` | crates/scv-protocol/src/frame.rs:80-125 | for every stream and every way to cut it into buffers the decoder reports what the whole-stream split does, in Stop mode up to the first overflow |
| `Frames.DecodeReports` | crates/scv-protocol/src/frame.rs:80-125 | for every stream, cut in any way, each line is reported, as too large exactly when it goes over the limit with its newline, and then what follows the last newline: too large, cut short, or the end |
| `Frames.EveryStream` | crates/scv-protocol/src/frame.rs:80-81 | every stream is lines and what follows the last newline |
| `Frames.BufferBounded` | crates/scv-protocol/src/frame.rs:80-115 | the buffer never exceeds the limit |
| `Frames.RoundTrip` | crates/scv-protocol/src/frame.rs:138-143 | in both modes decoding encoded payloads returns them if and only if each is one line under the limit |
| `Frames.FrameDecoder.Position` | crates/scv-protocol/src/frame.rs:81-81 | the search finds the first newline |
| `Frames.FrameDecoder.Take` | crates/scv-protocol/src/frame.rs:80-114 | the fields and the report after one buffer |
| `Frames.FrameDecoder.AtEnd` | crates/scv-protocol/src/frame.rs:116-125 | what was left at the end of input |
| `Frames.Connection.ReadFrame` | crates/scv-client/src/connection.rs:13-28 | the next frame of the unread stream, whatever buffers it comes in |
| `Frames.Connection.ReadBuffer` | crates/scv-client/src/connection.rs:17-27 | one buffer completes the next frame or joins the line in progress |
| `Calendar.CivilOfDays` | crates/scv-client/src/history.rs:214-241 | a valid date comes back from its day number |
| `Calendar.DaysOfCivil` | crates/scv-client/src/history.rs:214-241 | every day number names a valid date and comes back from it |
| `Calendar.DaysCountDays` | crates/scv-client/src/history.rs:212-222 | the next calendar day has the next number |
| `Calendar.EpochIsDayZero` | crates/scv-client/src/history.rs:212-222 | the epoch is day zero |
| `Calendar.MondaysAre` | crates/scv-client/src/history.rs:187-194 | Mondays are every seventh day from 5 January 1970 |
| `Calendar.CivilAddsDays` | crates/scv-client/src/history.rs:224-241 | counting day numbers and turning calendar pages agree |
| `Calendar.SameWeek` | crates/scv-client/src/history.rs:187-194 | two days share a week if and only if no Monday separates them |
| `Calendar.WeekHoldsDay` | crates/scv-client/src/history.rs:187-194 | a week runs from a Monday to the sixth day after it and holds the day |
| `Calendar.WeekAt` | crates/scv-client/src/history.rs:187-194 | for every 64-bit time and 32-bit offset, the week in 64-bit arithmetic without overflow |
| `Calendar.Days64` | crates/scv-client/src/history.rs:214-222 | 64-bit arithmetic gives the same day number without overflow |
| `Calendar.Civil64` | crates/scv-client/src/history.rs:224-241 | 64-bit arithmetic gives the same date without overflow |
| `Calendar.At` | crates/scv-client/src/history.rs:146-160 | for every 64-bit time and 32-bit offset the reading is the date and time of day, without overflow |
| `Text.FloorBoundary` | crates/scv-client/src/text.rs:5-14 | the loop finds the last character boundary at or before the limit |
| `Text.Prefix` | crates/scv-client/src/text.rs:5-14 | the longest prefix within the limit |
| `Text.SplitUtf8` | crates/scv-channels/src/lib.rs:2991-3016 | the loop splits as specified |
| `Text.SplitParts` | crates/scv-channels/src/lib.rs:2989-3016 | the parts join to the text, and each is within the limit or one character |
| `Text.SplitLongest` | crates/scv-channels/src/lib.rs:2989-3016 | each part but the last is as long as fits |
| `Text.SplitExactParts` | crates/scv-channels/src/lib.rs:2989-3016 | parts that fill the limit are cut where they were joined |
| `CodeBlocks.MarkBody` | crates/scv-channels/src/lib.rs:176-203 | the loop pads and joins the blocks as specified |
| `CodeBlocks.PartsAreBlocks` | crates/scv-channels/src/lib.rs:170-203 | whenever the body goes out fenced, each part the splitter cuts is one complete code block within the limit, full but for the last, that reads as one piece of the body, but for a carriage return at a piece's end |
| `CodeBlocks.PartsReadAsBody` | crates/scv-channels/src/lib.rs:170-203 | the contents of the blocks sent join to the body if and only if no piece the body is cut into ends with a carriage return |
| `CodeBlocks.PlainReadAsBody` | crates/scv-channels/src/lib.rs:170-203 | so every body without a carriage return reads back whole |
| `CodeBlocks.ReturnLost` | crates/scv-channels/src/lib.rs:170-203 | a body that does not |
| `CodeBlocks.BlockRenders` | crates/scv-channels/src/lib.rs:170-203 | a block whose fence is longer than every run inside reads back as its content by section 4.5 of CommonMark, with every kind of line ending, but for a carriage return at its end |
| `CodeBlocks.UnfencedIsBare` | crates/scv-channels/src/lib.rs:176-203 | a body that cannot be fenced is sent as it is |
| `CodeBlocks.RunBounded` | crates/scv-channels/src/lib.rs:176-203 | no run of backticks is longer than the one the fence is made for |
| `CodeBlocks.FenceShortest` | crates/scv-channels/src/lib.rs:176-179 | the fence is longer than every run of backticks in the body, and no longer than it must be |

## Left out

- Liveness: the model says what no run does and what a new run recovers, not that a reply is sent in time.
- Transports, sockets, timers and locks: sending is delivered, refused or unsure; saving is atomic or the run ends.
- State saved by older releases: replies with too few client IDs or a position past their parts, empty conversation keys, IDs listed twice. Runs start from an empty account.
- Messages without an ID: transports hand over none.
- Files of a reply are counted and sent after its text; which files the platform has is not tracked.
- The chat log beside the bridge, and the outcome of a keyed notice in the hub's mirror.
- The texts of notices, summaries and job reports are parameters.
- Contexts.Select: a number of tokens or bytes is unbounded, where the source saturates at the width of `usize`.
- SessionLives.AnswersAreTheirOwn: turn IDs are fresh and the server sends a turn's events only while it runs; without that, `SessionLives.StrayText` says what happens.
- Verdicts.SameConversation: for IDs without NULs, as the platforms make them; `Verdicts.SamePieces` is the case of any IDs, and `Verdicts.NulCollides` shows conversations of one key.
- Verdicts.ChatReadBack: for IDs without NULs; `Verdicts.ChatReadBackWhen` is the case of any IDs.
- Accounts.Store.Remove: the sidecar file and the private working files, which go between the credentials and the settings, are not modelled.
- Verdicts.TurnWithinLimits: follow-ups handed back are claimed without these limits.
- Frames.DecodeIsSplit: the limit is fixed for a stream; changing it in the middle of a line is not modelled.
- Whether two adds of one reaction to one message count as one on the platform: the model counts each that was saved.
- Session start, clearing and settling, mail commands, mail drains and claim codes of the hub: they would add state without a deeper invariant.
- The chat log files of the client beside its calendar, and the records in them.
- The command line, the daemon, media, provider wire formats and delegated agents.
