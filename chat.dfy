/** The party chat handler: how a chat line a player sends is kept public,
    refused, or turned into a party chat line seen only by members and spies. */
module Chat {
  import opened PartyTypes
  import opened Invitation
  import opened Parties

  /** How the handler treats one chat line. */
  datatype ChatOutcome = Untouched | Refused(reason: Notice) | PartyChat

  /** The prefix a viewer's rendering of a party chat line carries. */
  datatype Prefix = SpyPrefix | PartyPrefix

  /** The decision chain of onAsyncChat. `member` is the sender's member entry in
      the party the tracker found for them (None when there is no such party or
      the sender is not one of its members). A line leaves public chat only when
      the member is in party chat, and it is forwarded only when the member is not
      muted and the party is not muted for them. */
  function Decide(member: Option<MemberState>, partyMuted: bool, senderIsOwner: bool): (r: ChatOutcome)
    ensures r == Untouched <==> member.None? || !member.value.inPartyChat
    ensures r == PartyChat <==>
              member.Some? && member.value.inPartyChat && !member.value.muted && (!partyMuted || senderIsOwner)
    ensures member.Some? && member.value.inPartyChat && member.value.muted ==> r == Refused(ChatMemberMuted)
    ensures r.Refused? ==> r.reason == ChatMemberMuted || r.reason == ChatPartyMuted
    ensures member.Some? && member.value.inPartyChat && !member.value.muted && partyMuted && !senderIsOwner ==>
              r == Refused(ChatPartyMuted)
  {
    if member.None? || !member.value.inPartyChat then Untouched
    else if member.value.muted then Refused(ChatMemberMuted)
    else if partyMuted && !senderIsOwner then Refused(ChatPartyMuted)
    else PartyChat
  }

  /** The viewers that are party members, as connected players. */
  function MembersOnly(viewers: set<Audience>, members: set<UserId>): set<Audience> {
    set a | a in viewers && a.Player? && a.id in members
  }

  /** The audiences of the party's spy list, as a set. */
  function SpySet(spies: seq<Audience>): set<Audience> {
    set a | a in spies
  }

  /** Who sees a forwarded party chat line: the viewers that are members (every
      viewer when the viewer set refuses removal) plus every spy (none when it
      refuses additions). */
  function PartyChatViewers(viewers: set<Audience>, members: set<UserId>, spies: seq<Audience>,
                            removable: bool, extendable: bool): (r: set<Audience>)
    ensures forall a :: a in r && a !in spies ==> a in viewers
    ensures removable ==> forall a :: a in r ==> (a.Player? && a.id in members) || (extendable && a in spies)
    ensures !removable ==> viewers <= r
    ensures forall u :: u in members && Player(u) in viewers ==> Player(u) in r
    ensures extendable ==> forall a :: a in spies ==> a in r
    ensures !extendable ==> r <= viewers
  {
    (if removable then MembersOnly(viewers, members) else viewers) + (if extendable then SpySet(spies) else {})
  }

  /** A chat event as the server hands it to the handler. `removable` and
      `extendable` say whether its viewer set supports removal and addition (an
      unsupported one throws, and the handler logs a warning and goes on).
      `renderParty` is null while the original renderer is in place; the handler
      wraps the renderer with a prefix that looks up that party's spies. */
  class ChatEvent {
    const sender: UserId
    var viewers: set<Audience>
    var cancelled: bool
    /** Messages sent back to the sender, in order. */
    var toSender: seq<Notice>
    var renderParty: Party?
    const removable: bool
    const extendable: bool

    constructor (from: UserId, initialViewers: set<Audience>, canRemove: bool, canAdd: bool)
      ensures sender == from && viewers == initialViewers && removable == canRemove && extendable == canAdd
      ensures !cancelled && toSender == [] && renderParty == null
    {
      sender := from;
      viewers := initialViewers;
      cancelled := false;
      toSender := [];
      renderParty := null;
      removable := canRemove;
      extendable := canAdd;
    }

    /** The prefix the current renderer adds for `viewer`: none before the
        handler wrapped it; then the spy prefix for an audience on the party's
        spy list at render time, and the party prefix for anyone else. */
    function PrefixFor(viewer: Audience): (p: Option<Prefix>)
      reads this, renderParty
      ensures p.None? <==> renderParty == null
      ensures p == Some(SpyPrefix) <==> renderParty != null && viewer in renderParty.spies
    {
      if renderParty == null then None
      else if viewer in renderParty.spies then Some(SpyPrefix)
      else Some(PartyPrefix)
    }
  }

  /** The first loop of onAsyncChat: drop every viewer that is not a connected
      player in the party, unless the viewer set refuses removal. */
  method RemoveNonMembers(event: ChatEvent, party: Party)
    modifies event`viewers
    ensures event.viewers == if event.removable then MembersOnly(old(event.viewers), party.members.Keys)
                             else old(event.viewers)
  {
    var rest := event.viewers;
    while rest != {}
      invariant rest <= old(event.viewers)
      invariant forall a :: a in event.viewers <==>
                  a in old(event.viewers) && (a in rest || !event.removable || (a.Player? && a.id in party.members))
      decreases |rest|
    {
      var a :| a in rest;
      if !(a.Player? && party.HasMember(a.id)) {
        if event.removable {
          event.viewers := event.viewers - {a};
        }
      }
      rest := rest - {a};
    }
  }

  /** The second loop of onAsyncChat: add each spy, in list order, unless the
      viewer set refuses additions. */
  method AddSpies(event: ChatEvent, party: Party)
    modifies event`viewers
    ensures event.viewers == old(event.viewers) + (if event.extendable then SpySet(party.spies) else {})
  {
    for i := 0 to |party.spies|
      invariant event.viewers == old(event.viewers) + (if event.extendable then SpySet(party.spies[..i]) else {})
    {
      assert party.spies[..i + 1] == party.spies[..i] + [party.spies[i]];
      if event.extendable {
        event.viewers := event.viewers + {party.spies[i]};
      }
    }
    assert party.spies[..|party.spies|] == party.spies;
  }

  /** onAsyncChat. `party` is the party the tracker finds for the sender, or null.
      An untouched line stays as it was; a refused one is cancelled and the sender
      told why; a party chat line goes to PartyChatViewers and is rendered with the
      party's prefixes. */
  method OnAsyncChat(event: ChatEvent, party: Party?)
    modifies event
    ensures party == null ==> unchanged(event)
    ensures party != null ==>
              var d := Decide(party.GetMember(event.sender), party.muted, party.IsOwner(event.sender));
              (d == Untouched ==> unchanged(event)) &&
              (d.Refused? ==>
                 event.cancelled && event.toSender == old(event.toSender) + [d.reason] &&
                 event.viewers == old(event.viewers) && event.renderParty == old(event.renderParty)) &&
              (d == PartyChat ==>
                 event.viewers == PartyChatViewers(old(event.viewers), party.members.Keys, party.spies,
                                                   event.removable, event.extendable) &&
                 event.renderParty == party &&
                 event.cancelled == old(event.cancelled) && event.toSender == old(event.toSender))
  {
    if party == null {
      return;
    }
    var member := party.GetMember(event.sender);
    if member.None? {
      return;
    }
    if !member.value.inPartyChat {
      return;
    }
    if member.value.muted {
      event.toSender := event.toSender + [ChatMemberMuted];
      event.cancelled := true;
    } else if party.muted && !party.IsOwner(event.sender) {
      event.toSender := event.toSender + [ChatPartyMuted];
      event.cancelled := true;
    } else {
      RemoveNonMembers(event, party);
      AddSpies(event, party);
      event.renderParty := party;
    }
  }

  // The chat test fixture: an owner, a second member and an outsider, all
  // online, and one spy audience on the party's spy list.
  const Owner: UserId := 1
  const Member: UserId := 2
  const Noob: UserId := 3
  const Spy: Audience := Other(0)
  const Everyone: set<UserId> := {Owner, Member, Noob}

  /** A party owned by Owner with the spy list [Spy], muted or not, with Member
      joined and given the flags `flags` when `flags` is present. */
  method FixtureParty(partyMuted: bool, flags: Option<MemberState>) returns (party: Party)
    ensures fresh(party)
    ensures party.owner == Some(Owner) && party.spies == [Spy] && party.muted == partyMuted
    ensures party.members == if flags.Some? then map[Owner := NewMember, Member := flags.value]
                             else map[Owner := NewMember]
  {
    var manager := new TimedInvitationManager();
    party := new Party(Owner, partyMuted, manager, [Spy]);
    if flags.Some? {
      var _ := party.AddMember(Member, Everyone);
      // stands for the member's own flag setters
      party.members := party.members[Member := flags.value];
    }
  }

  /** Runs the handler on a line from `sender` seen by everyone, with a viewer
      set that supports removal and addition. */
  method RunChat(party: Party?, sender: UserId) returns (viewers: set<Audience>, cancelled: bool, told: seq<Notice>)
    ensures party == null ==> viewers == {Player(Owner), Player(Member), Player(Noob)} && !cancelled && told == []
    ensures party != null ==>
              var d := Decide(party.GetMember(sender), party.muted, party.IsOwner(sender));
              (d == Untouched ==> viewers == {Player(Owner), Player(Member), Player(Noob)} && !cancelled && told == []) &&
              (d.Refused? ==> viewers == {Player(Owner), Player(Member), Player(Noob)} && cancelled && told == [d.reason]) &&
              (d == PartyChat ==>
                 viewers == PartyChatViewers({Player(Owner), Player(Member), Player(Noob)}, party.members.Keys,
                                             party.spies, true, true) &&
                 !cancelled && told == [])
  {
    var event := new ChatEvent(sender, {Player(Owner), Player(Member), Player(Noob)}, true, true);
    OnAsyncChat(event, party);
    viewers, cancelled, told := event.viewers, event.cancelled, event.toSender;
  }

  /** A player with no party chats publicly. */
  method ScenarioNoParty() returns (viewers: set<Audience>, cancelled: bool)
    ensures viewers == {Player(Owner), Player(Member), Player(Noob)} && !cancelled
  {
    var told;
    viewers, cancelled, told := RunChat(null, Noob);
  }

  /** A member outside party chat chats publicly, muted or not, in a muted party or not. */
  method ScenarioNotInPartyChat(memberMuted: bool, partyMuted: bool) returns (viewers: set<Audience>, cancelled: bool)
    ensures viewers == {Player(Owner), Player(Member), Player(Noob)} && !cancelled
  {
    var party := FixtureParty(partyMuted, Some(MemberState(memberMuted, false)));
    var told;
    viewers, cancelled, told := RunChat(party, Member);
  }

  /** A member in party chat reaches the members and the spy, and not the outsider. */
  method ScenarioPartyChat() returns (viewers: set<Audience>, cancelled: bool)
    ensures viewers == {Player(Owner), Player(Member), Spy} && !cancelled
  {
    var party := FixtureParty(false, Some(MemberState(false, true)));
    var told;
    viewers, cancelled, told := RunChat(party, Member);
    assert Player(Noob) !in viewers;
  }

  /** A muted member in party chat is refused with one message. */
  method ScenarioMutedMember() returns (cancelled: bool, told: seq<Notice>)
    ensures cancelled && told == [ChatMemberMuted]
  {
    var party := FixtureParty(false, Some(MemberState(true, true)));
    var viewers;
    viewers, cancelled, told := RunChat(party, Member);
  }

  /** A member in party chat of a muted party is refused with one message. */
  method ScenarioMutedParty() returns (cancelled: bool, told: seq<Notice>)
    ensures cancelled && told == [ChatPartyMuted]
  {
    var party := FixtureParty(true, Some(MemberState(false, true)));
    var viewers;
    viewers, cancelled, told := RunChat(party, Member);
  }

  /** The owner's line reaches the spy exactly when the owner is in party chat;
      a muted party does not stop the owner. */
  method ScenarioOwnerSpy(inPartyChat: bool, partyMuted: bool) returns (viewers: set<Audience>)
    ensures Spy in viewers <==> inPartyChat
  {
    var party := FixtureParty(partyMuted, None);
    party.members := party.members[Owner := MemberState(false, inPartyChat)];
    var cancelled, told;
    viewers, cancelled, told := RunChat(party, Owner);
  }
}
