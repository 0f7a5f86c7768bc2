# zap-party: parties, timed invitations and party chat

This project models the core of the zap-party Minecraft server plugin:

- **Parties** (`party.dfy`). A party keeps its members keyed by player id, a nullable owner, join and leave handler lists, spy audiences, a mute flag and an invitation manager.
  - Its operations are: add, remove, kick offline members, disband, mute the party, mute a member, and transfer ownership.
  - When the owner leaves, a new owner is chosen: an online member if one exists, otherwise any remaining member.
- **Timed invitations** (`invitation.dfy`). The manager maps each invitee to the id of a scheduler task that expires the invitation.
- **Party chat** (`chat.dfy`). The chat handler decides what happens to each line a player types. The line is either left alone, or cancelled with a notice to the sender, or forwarded only to party members and the party's spies.

Some things are inputs to each operation rather than state:

- Which players are online is a set of ids.
- The random pick of a new owner, and the iteration order of the member hash map, are nondeterministic choices (`:|`).

Messages and handler invocations are appended to an event log (`PartyTypes.Event`). Each message records:

- the set of players it reaches;
- the spy audiences it reaches, in list order;
- the kind of notice.

The server scheduler is a map from each live task id to the invitee whose entry that task's callback removes, plus a counter that hands out fresh ids. An expiry runs when `Expire` is called with its task id; time itself is not modelled.

Every operation that changes state is a method. The party and invitation operations are methods on their classes (`Party`, `TimedInvitationManager`). The chat handler (`Chat.OnAsyncChat`), its two loops (`Chat.RemoveNonMembers`, `Chat.AddSpies`) and the test helpers (`Chat.FixtureParty`, `Chat.RunChat`) are module-level methods that update the `ChatEvent` or `Party` they are given. Each method's postcondition ties the new state to the old one. The invitation operations are also given as functions on the value `InviteState`, and the lemmas are proved about those functions.

The invariant every `Party` operation keeps is `Parties.OwnerInvariant`: an owner, when present, is a member, and a party with members has an owner. The one exception is `AddMember` on a party that has already lost its owner (see `Parties.Party.AddMember` under "Left out").

## Model

| member | source | states |
|---|---|---|
| PartyTypes.HandlerCalls | src/main/java/io/github/zap/party/Party.java:122-124 | one invocation per registered handler, in registration order, each with the same member |
| PartyTypes.RemoveFirst | src/main/java/io/github/zap/party/Party.java:117 | List.remove(Object): an absent element leaves the list as it is; a present one shortens it by one; nothing new appears |
| PartyTypes.RemoveFirstMultiset | src/main/java/io/github/zap/party/Party.java:117 | removing a joining player's spy audience drops exactly one occurrence and keeps every other audience (which occurrence, and the order of the rest, is RemoveFirstOrder) |
| PartyTypes.RemoveFirstOrder | src/main/java/io/github/zap/party/Party.java:117 | List.remove(Object) on a list holding the element: the result is the list with its first occurrence cut out, everything before and after it in the original order |
| PartyTypes.RemoveFirstNoDup | src/main/java/io/github/zap/party/Party.java:117 | in a spy list without duplicates, a player who joins no longer spies on the party |
| Invitation.Invite | src/main/java/io/github/zap/party/invitation/TimedInvitationManager.java:101-117 | a successful invite stores a fresh task for the invitee, overwrites only that entry, and keeps every earlier task live; the live tasks are the old ones plus the new one |
| Invitation.Withdraw | src/main/java/io/github/zap/party/invitation/TimedInvitationManager.java:121-129 | removing an invitation drops only that entry, and cancels only that entry's task |
| Invitation.CancelAll | src/main/java/io/github/zap/party/invitation/TimedInvitationManager.java:132-142 | the map ends empty, and exactly the tasks stored in it are cancelled; every surviving task keeps its invitee, and the task counter is unchanged |
| Invitation.Fire | src/main/java/io/github/zap/party/invitation/TimedInvitationManager.java:101-106 | a firing timer is gone afterwards and removes its invitee's current entry, whichever task that entry holds; every other entry and every other live task stays as it was |
| Invitation.CancelAllAfterWithdraw | src/main/java/io/github/zap/party/invitation/TimedInvitationManager.java:133-141 | one iteration of the cancel loop does not change what cancelling everything leaves |
| Invitation.CancelAllOfEmpty | src/main/java/io/github/zap/party/invitation/TimedInvitationManager.java:132-142 | cancelling all on an empty table changes nothing |
| Invitation.StaleTimerRemovesReplacement | src/main/java/io/github/zap/party/invitation/TimedInvitationManager.java:101-117 | after a re-invite the superseded timer is still live; when it fires, it deletes the new invitation while the new timer is still pending |
| Invitation.ReinviteThenFirstTimerFires | src/main/java/io/github/zap/party/invitation/TimedInvitationManager.java:101-117 | concrete case: invite u twice; task 0 then removes u's invitation while task 1 is still pending |
| Invitation.InviteBreaksTight | src/main/java/io/github/zap/party/invitation/TimedInvitationManager.java:101-117 | re-inviting leaves two live timers for one invitee |
| Invitation.InviteReplacing | src/main/java/io/github/zap/party/invitation/TimedInvitationManager.java:101-117 | the corrected invite: same entries, and the superseded timer is cancelled |
| Invitation.InviteReplacingKeepsTight | src/main/java/io/github/zap/party/invitation/TimedInvitationManager.java:101-117 | with the corrected invite, every live timer is its invitee's current invitation |
| Invitation.WithdrawKeepsTight | src/main/java/io/github/zap/party/invitation/TimedInvitationManager.java:121-129 | removing an invitation keeps the one-timer-per-invitee invariant |
| Invitation.CancelAllKeepsTight | src/main/java/io/github/zap/party/invitation/TimedInvitationManager.java:132-142 | from a table with one timer per invitee, cancelling all leaves no live timer |
| Invitation.FireKeepsTight | src/main/java/io/github/zap/party/invitation/TimedInvitationManager.java:101-106 | an expiry keeps the one-timer-per-invitee invariant |
| Invitation.TightFireRemovesOwnEntry | src/main/java/io/github/zap/party/invitation/TimedInvitationManager.java:101-102 | under that invariant, a timer only ever removes its own invitation |
| Invitation.InvitationConsumed | src/main/java/io/github/zap/party/invitation/TimedInvitationManager.java:101-129 | inviting and then joining leaves no entry for the invitee and cancels the expiry task; other invitations stay |
| Invitation.TimedInvitationManager.constructor | src/main/java/io/github/zap/party/invitation/TimedInvitationManager.java:41-44 | a new manager has no invitations and no tasks |
| Invitation.TimedInvitationManager.HasInvitation | src/main/java/io/github/zap/party/invitation/TimedInvitationManager.java:47-49 | true exactly when the user has an entry; that entry's task is live |
| Invitation.TimedInvitationManager.GetInvitations | src/main/java/io/github/zap/party/invitation/TimedInvitationManager.java:52-54 | the set of invitees, with no change of state |
| Invitation.TimedInvitationManager.AddInvitation | src/main/java/io/github/zap/party/invitation/TimedInvitationManager.java:57-118 | nothing changes and nothing is sent when the inviter is not a member or the party has no owner; otherwise the state becomes Invite, and the messages are the invitee's notice (owner or member variant, only when online) followed by the party broadcast |
| Invitation.TimedInvitationManager.Expire | src/main/java/io/github/zap/party/invitation/TimedInvitationManager.java:101-116 | the timer's effect is Fire; nothing is sent if the invitee has joined; otherwise the party is told, and then the invitee if online |
| Invitation.TimedInvitationManager.RemoveInvitation | src/main/java/io/github/zap/party/invitation/TimedInvitationManager.java:121-129 | returns true iff an entry existed; the state becomes Withdraw |
| Invitation.TimedInvitationManager.CancelAllOutgoingInvitations | src/main/java/io/github/zap/party/invitation/TimedInvitationManager.java:132-142 | the iterator loop's final state is CancelAll of the initial one |
| Parties.DisbandTraceHandlers | src/main/java/io/github/zap/party/Party.java:322-337 | disband's log holds, besides notices, exactly the leave handlers called once per former member, member after member |
| Parties.KickTrace | src/main/java/io/github/zap/party/Party.java:198-225 | each kick adds exactly the kicked member's leave-handler calls to the handler trace |
| Parties.KickNotices | src/main/java/io/github/zap/party/Party.java:203-211 | the only messages kickOffline's loop sends are new-owner announcements |
| Parties.Party.constructor | src/main/java/io/github/zap/party/Party.java:70-84 | a new party has exactly its owner as member, no handlers, and satisfies the owner invariant |
| Parties.Party.RegisterJoinHandler | src/main/java/io/github/zap/party/Party.java:90-92 | appends the handler |
| Parties.Party.RegisterLeaveHandler | src/main/java/io/github/zap/party/Party.java:98-100 | appends the handler |
| Parties.Party.HasMember | src/main/java/io/github/zap/party/Party.java:439-441 | true iff the user is a key of the member map; in a valid party the owner then exists and is a member |
| Parties.Party.IsOwner | src/main/java/io/github/zap/party/Party.java:368-374 | false when there is no owner; otherwise compares ids; an owner is a member |
| Parties.Party.GetOwner | src/main/java/io/github/zap/party/Party.java:380-382 | present exactly when the party has members, and then it is a member |
| Parties.Party.GetMember | src/main/java/io/github/zap/party/Party.java:407-409 | present iff the user is a member, and then it is that member's entry |
| Parties.Party.OnlineMembers | src/main/java/io/github/zap/party/Party.java:423-432 | exactly the members who are online |
| Parties.Party.BroadcastMessage | src/main/java/io/github/zap/party/Party.java:447-454 | one message to every online member and to every spy audience, in list order |
| Parties.Party.InvokeHandlers | src/main/java/io/github/zap/party/Party.java:179-181 | each handler of the list is called once with the member, in order |
| Parties.Party.AddMember | src/main/java/io/github/zap/party/Party.java:107-127 | an existing member: returns empty and nothing changes. A new user: exactly that key is added, the user's invitation is withdrawn, the user's spy audience is removed, the join is announced, and each join handler runs once in order |
| Parties.Party.SuccessionCandidates | src/main/java/io/github/zap/party/Party.java:285-296 | the candidate lists: every member but the owner, and those of them online |
| Parties.Party.ChooseNewOwner | src/main/java/io/github/zap/party/Party.java:280-307 | no members gives no owner. Otherwise the new owner is another member whenever one exists, and is online whenever another member is online |
| Parties.Party.ReplaceOwner | src/main/java/io/github/zap/party/Party.java:143-154 | when the owner leaves, the new owner is announced, or if nobody is left, every invitation is cancelled and the handlers are marked for clearing |
| Parties.Party.AnnounceDeparture | src/main/java/io/github/zap/party/Party.java:156-181 | the removed/left broadcast, the private notice if the user is online, then the leave handlers |
| Parties.Party.RemoveMember | src/main/java/io/github/zap/party/Party.java:133-187 | a non-member: no change. Otherwise the user is gone and the owner invariant holds. A departing owner is replaced by a remaining member, an online one when possible. If nobody remains: owner none, invitations cancelled, handler lists cleared after the leave handlers ran once. The full log is given |
| Parties.Party.KickMember | src/main/java/io/github/zap/party/Party.java:200-225 | one offline member leaves. If it owned the party, a new owner is chosen before removal (announced), or all invitations are cancelled. Then the leave handlers run |
| Parties.Party.KickEach | src/main/java/io/github/zap/party/Party.java:196-226 | exactly the offline members are kicked, each once. Online members stay with their entries. An online owner is kept. The handler trace is one leave call per kicked member |
| Parties.Party.KickOffline | src/main/java/io/github/zap/party/Party.java:194-244 | returns exactly the members that were offline and leaves only online ones, with an online owner whenever members remain. Handlers and invitations are cleared only if the party ended up without an owner. Ends with the count sent to the online members |
| Parties.Party.Mute | src/main/java/io/github/zap/party/Party.java:249-257 | toggles the party flag, so two calls restore it, and announces the new value |
| Parties.Party.MutePlayer | src/main/java/io/github/zap/party/Party.java:263-278 | toggles and announces the flag of a member who is not the owner; otherwise nothing changes |
| Parties.Party.TransferPartyToPlayer | src/main/java/io/github/zap/party/Party.java:388-400 | IllegalArgument exactly for a non-member, with nothing changed. Otherwise the owner becomes that member and the members are untouched |
| Parties.Party.DisbandMember | src/main/java/io/github/zap/party/Party.java:324-337 | one member is notified if online, removed, and handed to each leave handler |
| Parties.Party.DisbandMembers | src/main/java/io/github/zap/party/Party.java:322-338 | every member is removed exactly once, and the log is DisbandTrace of the removal order |
| Parties.Party.Disband | src/main/java/io/github/zap/party/Party.java:314-345 | returns the prior members, each once. Leaves owner none, members empty, invitations cancelled and both handler lists empty. A second call returns nothing |
| Chat.Decide | src/main/java/io/github/zap/party/plugin/chat/BasicAsyncChatHandler.java:53-79 | untouched iff no member entry or not in party chat. Forwarded iff in party chat, not muted, and the party is not muted or the sender owns it. A muted member is refused with the member-muted notice before the party mute is looked at; an unmuted non-owner in a muted party is refused with the party-muted notice |
| Chat.PartyChatViewers | src/main/java/io/github/zap/party/plugin/chat/BasicAsyncChatHandler.java:80-104 | member viewers are kept. When removal is refused, every viewer stays. When removal is supported, only members remain, plus the spies if addition is supported too (a spy that is not a member is removed and, without addition, not put back). When addition is supported, every spy is added. Nobody else is added |
| Chat.ChatEvent.PrefixFor | src/main/java/io/github/zap/party/plugin/chat/BasicAsyncChatHandler.java:106-116 | after wrapping, a viewer on the party's spy list gets the spy prefix and everyone else the party prefix |
| Chat.RemoveNonMembers | src/main/java/io/github/zap/party/plugin/chat/BasicAsyncChatHandler.java:80-93 | the iterator loop keeps exactly the viewers that are connected party members, or all viewers when removal is unsupported |
| Chat.AddSpies | src/main/java/io/github/zap/party/plugin/chat/BasicAsyncChatHandler.java:95-104 | the loop adds exactly the spy audiences, or none when addition is unsupported |
| Chat.OnAsyncChat | src/main/java/io/github/zap/party/plugin/chat/BasicAsyncChatHandler.java:52-118 | with no party, or an untouched decision, the event is unchanged. A refused line is cancelled with exactly one notice to the sender. A forwarded line stays uncancelled, goes to PartyChatViewers and is rendered with the party's prefixes |
| Chat.FixtureParty | src/test/java/io/github/zap/party/party/PartyAsyncChatTest.java:66-112 | the chat test fixture: a fresh party owned by player 1 with the spy list [Spy], muted or not, with player 2 joined with the given flags |
| Chat.RunChat | src/test/java/io/github/zap/party/party/PartyAsyncChatTest.java:131-135 | one test line: a fresh event from the sender seen by the three test players, passed to the handler; the result follows Decide and PartyChatViewers |
| Chat.ScenarioNoParty | src/test/java/io/github/zap/party/party/PartyAsyncChatTest.java:114-125 | a player in no party: viewers unchanged, not cancelled |
| Chat.ScenarioNotInPartyChat | src/test/java/io/github/zap/party/party/PartyAsyncChatTest.java:127-140 | a member outside party chat, muted or not, in a muted party or not: viewers unchanged, not cancelled (also the cases at lines 167-182 and 213-226) |
| Chat.ScenarioPartyChat | src/test/java/io/github/zap/party/party/PartyAsyncChatTest.java:142-165 | a member in party chat: the viewers become owner, member and spy, not cancelled |
| Chat.ScenarioMutedMember | src/test/java/io/github/zap/party/party/PartyAsyncChatTest.java:184-211 | a muted member in party chat: cancelled, exactly one notice |
| Chat.ScenarioMutedParty | src/test/java/io/github/zap/party/party/PartyAsyncChatTest.java:228-255 | a member in party chat of a muted party: cancelled, exactly one notice |
| Chat.ScenarioOwnerSpy | src/test/java/io/github/zap/party/party/PartyAsyncChatTest.java:257-283 | the spy sees the owner's line exactly when the owner is in party chat, whether or not the party is muted |

## Left out

- Parties.Party.AddMember: ensures the owner invariant afterwards only when the party had an owner. addMember has no guard, so a user added to an emptied, ownerless party becomes a member of a party with no owner. The party tracker, which is not part of this model, is what keeps such parties out of use.
- Parties.Party.ChooseNewOwner: the pick among the candidates is a nondeterministic choice, not a uniform random one.
- Parties.Party.KickOffline: the log of the removal loop is described by its handler trace and by the fact that its only messages are new-owner announcements; the interleaving of those announcements with the handler calls is stated per step in KickMember, not as one closed formula.
- Parties.Party.OnlineMembers: returns a set; the list order of getOnlinePlayers, which follows hash-map order, is not modelled.
- Invitation.TimedInvitationManager.Expire: the owner name that the expiry notice shows is captured when the invitation is created; message content is not modelled.
- Chat.ChatEvent.PrefixFor: only which prefix wraps a viewer's line is modelled, not the text the original renderer produces.
- Message content: translation keys, colours, player names, hover and click events, the ICU plural rule of the kick count, and the `%.1f` expiry seconds.
- Time: invitation expiry delays and ticks. A timer fires when `Expire` is called for a live task.
- Logger warnings when a chat event's viewer set refuses removal or addition. Only the refusal itself is modelled: the viewer stays, or the spy is not added.
- The party tracker's lookup of a player's party is an input to `OnAsyncChat` (a `Party?`).
- The member factory: `Party` builds each new member through an injected `PartyMemberBuilder`, and the owner's `PartyMember` comes from the caller. The model always creates `NewMember` (not muted, not in party chat), which is what `PartyMember::new` produces.
- Member flag setters (PartyMember is not part of this model). The chat scenarios set a member's flags by updating its entry in the member map.
- The scheduler as a server-wide service shared between managers. Each manager has its own task ids.
- Aliasing of the spy list that the party shares with its creator.
- Party settings other than the mute flag, such as the invite expiry time.
- The party's random uuid, `equals`/`hashCode`, `getMembers`, `getSpyAudiences`, the lister and the namer.
- Commands, the plugin bootstrap and configuration.

## Findings

| source | as written | input that shows it | evidently intended | confidence | as-written member | corrected member |
|---|---|---|---|---|---|---|
| src/main/java/io/github/zap/party/invitation/TimedInvitationManager.java:101-117 | a re-invite overwrites the invitee's entry without cancelling the earlier expiry task; when the earlier task runs, it removes the invitee's entry, which is now the new invitation | invite u (task 0), invite u again (task 1), task 0 fires: u has no invitation although task 1 is still pending | a re-invite cancels the superseded timer, so each live timer is its invitee's current invitation | medium, not executed | Invitation.StaleTimerRemovesReplacement | Invitation.InviteReplacingKeepsTight |

The `TimedInvitationManager` class follows the code as written, because `AddInvitation` and `Expire` use `Invitation.Invite` and `Invitation.Fire`. `Invitation.InviteReplacing` is the corrected operation. `Invitation.InviteReplacingKeepsTight`, `WithdrawKeepsTight`, `CancelAllKeepsTight` and `FireKeepsTight` show that the corrected operation and the others keep the invariant `Tight`: at most one live timer per invitee. `Invitation.InviteBreaksTight` shows that the operation as written breaks it.
