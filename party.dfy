/** A party (Party): its members keyed by user id, its owner, its join and leave
    handler lists, its spy audiences, its mute setting and its invitation
    manager. Messages and handler invocations are appended to `log`; which users
    are connected is an input to each operation; the random choice of a new
    owner is a nondeterministic choice. */
module Parties {
  import opened PartyTypes
  import opened Invitation

  /** An owner, when present, is a member; a party with members has an owner. */
  predicate OwnerInvariant(members: set<UserId>, owner: Option<UserId>) {
    (owner.Some? ==> owner.value in members) && (members != {} ==> owner.Some?)
  }

  /** The messages and leave-handler calls disband produces for one member. */
  function DisbandStep(u: UserId, online: set<UserId>, hs: seq<HandlerId>): seq<Event> {
    (if u in online then [Private(u, Disbanded)] else []) + HandlerCalls(OnLeave, hs, u)
  }

  /** What disband logs for the members visited in `order`. */
  function DisbandTrace(order: seq<UserId>, online: set<UserId>, hs: seq<HandlerId>): seq<Event> {
    if order == [] then []
    else DisbandTrace(order[..|order| - 1], online, hs) + DisbandStep(order[|order| - 1], online, hs)
  }

  /** Disband invokes every leave handler exactly once per former member, member by member. */
  lemma {:induction false} DisbandTraceHandlers(order: seq<UserId>, online: set<UserId>, hs: seq<HandlerId>)
    ensures HandlerTrace(DisbandTrace(order, online, hs)) == LeaveCallsFor(hs, order)
    decreases |order|
  {
    if order != [] {
      var u := order[|order| - 1];
      var front := order[..|order| - 1];
      var notice: seq<Event> := if u in online then [Private(u, Disbanded)] else [];
      assert order == front + [u];
      DisbandTraceHandlers(front, online, hs);
      HandlerTraceAppend(DisbandTrace(front, online, hs), DisbandStep(u, online, hs));
      HandlerTraceOfStep(notice, OnLeave, hs, u);
      LeaveCallsForSnoc(hs, front, u);
    }
  }

  /** What kickOffline's loop logs: leave-handler calls and, besides them, only
      new-owner announcements. */
  predicate OnlyOwnerNotices(es: seq<Event>) {
    forall i :: 0 <= i < |es| && es[i].Message? ==> es[i].notice.NewOwnerAfterKick?
  }

  /** One kick step extends the handler trace by exactly the kicked member's
      leave calls: the new-owner announcements logged before them add nothing. */
  lemma {:induction false} KickTrace(out: seq<Event>, announced: seq<Event>, hs: seq<HandlerId>,
                                     kicked: seq<UserId>, u: UserId)
    requires HandlerTrace(out) == LeaveCallsFor(hs, kicked)
    requires forall i :: 0 <= i < |announced| ==> announced[i].Message?
    ensures HandlerTrace(out + (announced + HandlerCalls(OnLeave, hs, u))) == LeaveCallsFor(hs, kicked + [u])
  {
    HandlerTraceAppend(out, announced + HandlerCalls(OnLeave, hs, u));
    HandlerTraceOfStep(announced, OnLeave, hs, u);
    LeaveCallsForSnoc(hs, kicked, u);
  }

  /** One kick step logs no message other than new-owner announcements. */
  lemma KickNotices(out: seq<Event>, announced: seq<Event>, hs: seq<HandlerId>, u: UserId)
    requires OnlyOwnerNotices(out)
    requires forall i :: 0 <= i < |announced| ==>
               announced[i].Message? && announced[i].notice.NewOwnerAfterKick?
    ensures OnlyOwnerNotices(out + (announced + HandlerCalls(OnLeave, hs, u)))
  {
  }

  datatype TransferOutcome = Done | IllegalArgument

  class Party {
    var members: map<UserId, MemberState>
    var owner: Option<UserId>
    var joinHandlers: seq<HandlerId>
    var leaveHandlers: seq<HandlerId>
    var spies: seq<Audience>
    var muted: bool
    const invitations: TimedInvitationManager
    var log: seq<Event>

    ghost predicate Valid()
      reads this, invitations
    {
      OwnerInvariant(members.Keys, owner) && invitations.Valid()
    }

    function View(): PartyView
      reads this
    {
      PartyView(members.Keys, owner, spies)
    }

    /** The event a broadcast of `n` produces now. */
    function Announce(n: Notice, online: set<UserId>): Event
      reads this
    {
      Broadcast(View(), online, n)
    }

    /** A new party whose only member is its owner. */
    constructor (ownerId: UserId, partyMuted: bool, invitationManager: TimedInvitationManager,
                 spyAudiences: seq<Audience>)
      requires invitationManager.Valid()
      ensures Valid()
      ensures members == map[ownerId := NewMember] && owner == Some(ownerId)
      ensures joinHandlers == [] && leaveHandlers == [] && log == []
      ensures spies == spyAudiences && muted == partyMuted && invitations == invitationManager
    {
      members := map[ownerId := NewMember];
      owner := Some(ownerId);
      joinHandlers, leaveHandlers := [], [];
      spies := spyAudiences;
      muted := partyMuted;
      invitations := invitationManager;
      log := [];
    }

    method RegisterJoinHandler(h: HandlerId)
      modifies this`joinHandlers
      ensures joinHandlers == old(joinHandlers) + [h]
    {
      joinHandlers := joinHandlers + [h];
    }

    method RegisterLeaveHandler(h: HandlerId)
      modifies this`leaveHandlers
      ensures leaveHandlers == old(leaveHandlers) + [h]
    {
      leaveHandlers := leaveHandlers + [h];
    }

    /** hasMember; in a valid party any member implies an owner. */
    function HasMember(u: UserId): (b: bool)
      reads this, invitations
      ensures b <==> u in members
      ensures b && Valid() ==> owner.Some? && owner.value in members
    {
      u in members
    }

    /** isOwner; in a valid party the owner is always a member. */
    function IsOwner(u: UserId): (b: bool)
      reads this, invitations
      ensures b <==> owner == Some(u)
      ensures b && Valid() ==> u in members
    {
      owner.Some? && owner.value == u
    }

    /** getOwner: present exactly when the party has members. */
    function GetOwner(): (r: Option<UserId>)
      reads this, invitations
      requires Valid()
      ensures r.Some? <==> members != map[]
      ensures r.Some? ==> r.value in members
    {
      assert members != map[] ==> exists u :: u in members.Keys;
      owner
    }

    /** getMember: the member's flags, if the user is a member. */
    function GetMember(u: UserId): (r: Option<MemberState>)
      reads this
      ensures r.Some? <==> u in members
      ensures r.Some? ==> r.value == members[u]
    {
      if u in members then Some(members[u]) else None
    }

    /** The online members, as broadcastMessage and getOnlinePlayers collect them. */
    method OnlineMembers(online: set<UserId>) returns (players: set<UserId>)
      ensures forall u :: u in players <==> u in members && u in online
    {
      players := {};
      var rest := members.Keys;
      while rest != {}
        invariant rest <= members.Keys
        invariant forall u :: u in players <==> u in members && u !in rest && u in online
        decreases |rest|
      {
        var u :| u in rest;
        if u in online {
          players := players + {u};
        }
        rest := rest - {u};
      }
    }

    /** broadcastMessage: one delivery to every online member and every spy audience. */
    method BroadcastMessage(n: Notice, online: set<UserId>)
      modifies this`log
      ensures log == old(log) + [Announce(n, online)]
    {
      var players := OnlineMembers(online);
      assert players == members.Keys * online;
      log := log + [Message(players, spies, n)];
    }

    /** Invoke each handler of `hs` once with member `u`, in registration order. */
    method InvokeHandlers(kind: HandlerKind, hs: seq<HandlerId>, u: UserId)
      modifies this`log
      ensures log == old(log) + HandlerCalls(kind, hs, u)
    {
      var i := 0;
      while i < |hs|
        invariant 0 <= i <= |hs|
        invariant log == old(log) + HandlerCalls(kind, hs[..i], u)
      {
        assert hs[..i + 1][..i] == hs[..i];
        log := log + [Handled(kind, hs[i], u)];
        i := i + 1;
      }
      assert hs[..i] == hs;
    }

    /** addMember: a no-op for an existing member; otherwise insert a new member,
        withdraw the user's invitation, stop the user spying, announce the join and
        run the join handlers. The owner is left as it is, so on an emptied,
        ownerless party the new member has no owner. */
    method AddMember(u: UserId, online: set<UserId>) returns (added: Option<MemberState>)
      requires Valid()
      modifies this, invitations
      ensures invitations.Valid()
      ensures old(owner).Some? ==> Valid()
      ensures u in old(members) ==> added == None && unchanged(this) && unchanged(invitations)
      ensures u !in old(members) ==>
                added == Some(NewMember) &&
                members == old(members)[u := NewMember] &&
                invitations.State() == Withdraw(old(invitations.State()), u) &&
                spies == RemoveFirst(old(spies), PlayerAudience(u)) &&
                (NoDup(old(spies)) ==> PlayerAudience(u) !in spies) &&
                log == old(log) + [Announce(Joined(u), online)] + HandlerCalls(OnJoin, joinHandlers, u)
      ensures owner == old(owner) && muted == old(muted)
      ensures joinHandlers == old(joinHandlers) && leaveHandlers == old(leaveHandlers)
    {
      if u in members {
        return None;
      }
      members := members[u := NewMember];
      var _ := invitations.RemoveInvitation(u);
      spies := RemoveFirst(spies, PlayerAudience(u));
      if NoDup(old(spies)) {
        RemoveFirstNoDup(old(spies), PlayerAudience(u));
      }
      BroadcastMessage(Joined(u), online);
      InvokeHandlers(OnJoin, joinHandlers, u);
      added := Some(NewMember);
    }

    /** The candidates chooseNewOwner collects: every member but the current
        owner, and those of them that are online. */
    method SuccessionCandidates(online: set<UserId>) returns (others: set<UserId>, onlineOthers: set<UserId>)
      requires owner.Some?
      ensures others == members.Keys - {owner.value}
      ensures onlineOthers == others * online
    {
      others := {};
      var rest := members.Keys;
      while rest != {}
        invariant rest <= members.Keys
        invariant forall m :: m in others <==> m in members && m !in rest && m != owner.value
        decreases |rest|
      {
        var m :| m in rest;
        if Some(m) != owner {
          others := others + {m};
        }
        rest := rest - {m};
      }
      onlineOthers := {};
      rest := others;
      while rest != {}
        invariant rest <= others
        invariant forall m :: m in onlineOthers <==> m in others && m !in rest && m in online
        decreases |rest|
      {
        var m :| m in rest;
        if m in online {
          onlineOthers := onlineOthers + {m};
        }
        rest := rest - {m};
      }
    }

    /** chooseNewOwner: none if the party is empty; otherwise an online member
        other than the current owner if there is one, else any other member,
        else none. The uniform random pick is a nondeterministic choice. */
    method ChooseNewOwner(online: set<UserId>)
      requires members != map[] ==> owner.Some?
      modifies this`owner
      ensures members == map[] ==> owner == None
      ensures members != map[] ==>
                var others := members.Keys - {old(owner).value};
                (owner.Some? <==> others != {}) &&
                (owner.Some? ==> owner.value in others) &&
                (others * online != {} ==> owner.Some? && owner.value in online)
    {
      if members == map[] {
        owner := None;
        return;
      }
      var others, onlineOthers := SuccessionCandidates(online);
      if onlineOthers != {} {
        var c :| c in onlineOthers;
        owner := Some(c);
      } else if others != {} {
        var c :| c in others;
        owner := Some(c);
      } else {
        owner := None;
      }
    }

    /** The owner-leaving step shared by removeMember and kickOffline: choose a
        new owner and announce it (as a transfer, or for kickOffline as the
        kick notice); when nobody is left to own the party, cancel every
        outgoing invitation instead and report that the handlers must go. */
    method ReplaceOwner(u: UserId, kick: bool, online: set<UserId>) returns (ownerless: bool)
      requires owner == Some(u) && invitations.Valid()
      modifies this`owner, this`log, invitations
      ensures invitations.Valid()
      ensures members == map[] ==> owner == None
      ensures members != map[] ==>
                (owner.Some? <==> members.Keys - {u} != {}) &&
                (owner.Some? ==> owner.value in members.Keys - {u}) &&
                ((members.Keys - {u}) * online != {} ==> owner.Some? && owner.value in online)
      ensures ownerless <==> owner.None?
      ensures u !in members ==> OwnerInvariant(members.Keys, owner)
      ensures owner.Some? ==>
                invitations.State() == old(invitations.State()) &&
                log == old(log) + [Announce(if kick then NewOwnerAfterKick(u, owner.value)
                                            else Transferred(u, owner.value), online)]
      ensures owner.None? ==>
                invitations.State() == CancelAll(old(invitations.State())) && log == old(log)
    {
      ChooseNewOwner(online);
      if owner.Some? {
        BroadcastMessage(if kick then NewOwnerAfterKick(u, owner.value) else Transferred(u, owner.value), online);
        ownerless := false;
      } else {
        invitations.CancelAllOutgoingInvitations();
        ownerless := true;
      }
    }

    /** The messages and leave-handler calls removeMember produces for the departed `u`. */
    method AnnounceDeparture(u: UserId, forced: bool, online: set<UserId>)
      modifies this`log
      ensures log == old(log) +
                     [Announce(if forced then MemberRemoved(u) else MemberLeft(u), online)] +
                     (if u in online then [Private(u, if forced then YouWereRemoved else YouLeft)] else []) +
                     HandlerCalls(OnLeave, leaveHandlers, u)
    {
      if forced {
        BroadcastMessage(MemberRemoved(u), online);
        if u in online {
          log := log + [Private(u, YouWereRemoved)];
        }
      } else {
        BroadcastMessage(MemberLeft(u), online);
        if u in online {
          log := log + [Private(u, YouLeft)];
        }
      }
      InvokeHandlers(OnLeave, leaveHandlers, u);
    }

    /** removeMember(player, forced). */
    method RemoveMember(u: UserId, forced: bool, online: set<UserId>)
      requires Valid()
      modifies this`members, this`owner, this`log, this`joinHandlers, this`leaveHandlers, invitations
      ensures Valid()
      ensures u !in old(members) ==> unchanged(this) && unchanged(invitations)
      ensures members == old(members) - {u}
      ensures spies == old(spies) && muted == old(muted)
      ensures u in old(members) && old(owner) != Some(u) ==>
                owner == old(owner) && invitations.State() == old(invitations.State()) &&
                joinHandlers == old(joinHandlers) && leaveHandlers == old(leaveHandlers)
      ensures u in old(members) && old(owner) == Some(u) && members != map[] ==>
                owner.Some? && owner.value in members &&
                (members.Keys * online != {} ==> owner.value in online) &&
                invitations.State() == old(invitations.State()) &&
                joinHandlers == old(joinHandlers) && leaveHandlers == old(leaveHandlers)
      ensures u in old(members) && old(owner) == Some(u) && members == map[] ==>
                owner == None && invitations.State() == CancelAll(old(invitations.State())) &&
                joinHandlers == [] && leaveHandlers == []
      ensures u in old(members) ==>
                log == old(log) +
                       (if old(owner) == Some(u) && owner.Some?
                        then [Announce(Transferred(u, owner.value), online)] else []) +
                       [Announce(if forced then MemberRemoved(u) else MemberLeft(u), online)] +
                       (if u in online then [Private(u, if forced then YouWereRemoved else YouLeft)] else []) +
                       HandlerCalls(OnLeave, old(leaveHandlers), u)
    {
      if u !in members {
        return;
      }
      members := members - {u};
      var clearHandlers := false;
      if owner == Some(u) {
        clearHandlers := ReplaceOwner(u, false, online);
      }
      ghost var transferred := if old(owner) == Some(u) && owner.Some?
                               then [Announce(Transferred(u, owner.value), online)] else [];
      assert log == old(log) + transferred;
      AnnounceDeparture(u, forced, online);
      if clearHandlers {
        joinHandlers := [];
        leaveHandlers := [];
      }
    }

    /** One removal of kickOffline, for the offline member `u`: if `u` owns the
        party, choose a new owner first (announcing it, or cancelling every
        invitation when nobody is left); then remove `u` and run the leave
        handlers. `announced` is the new-owner announcement, if any. */
    method KickMember(u: UserId, online: set<UserId>) returns (ownerless: bool, ghost announced: seq<Event>)
      requires u in members && u !in online
      requires OwnerInvariant(members.Keys, owner) && invitations.Valid()
      modifies this`members, this`owner, this`log, invitations
      ensures members == old(members) - {u}
      ensures OwnerInvariant(members.Keys, owner) && invitations.Valid()
      ensures old(owner) != Some(u) ==> owner == old(owner)
      ensures old(owner) == Some(u) && members.Keys * online != {} ==> owner.Some? && owner.value in online
      ensures ownerless <==> members == map[]
      ensures ownerless ==> invitations.State() == CancelAll(old(invitations.State()))
      ensures !ownerless ==> invitations.State() == old(invitations.State())
      ensures announced == if old(owner) == Some(u) && owner.Some?
                           then [Announce(NewOwnerAfterKick(u, owner.value), online)] else []
      ensures forall i :: 0 <= i < |announced| ==>
                announced[i].Message? && announced[i].notice.NewOwnerAfterKick?
      ensures log == old(log) + (announced + HandlerCalls(OnLeave, leaveHandlers, u))
    {
      ownerless := false;
      if owner == Some(u) {
        ownerless := ReplaceOwner(u, true, online);
      }
      announced := if old(owner) == Some(u) && owner.Some?
                   then [Announce(NewOwnerAfterKick(u, owner.value), online)] else [];
      ghost var mid := log;
      assert mid == old(log) + announced;
      ghost var present := members.Keys;
      members := members - {u};
      assert members.Keys * online == present * online;
      InvokeHandlers(OnLeave, leaveHandlers, u);
      AppendAssoc(old(log), announced, HandlerCalls(OnLeave, leaveHandlers, u));
    }

    /** kickOffline's loop: visit the members in map iteration order and kick
        each offline one; reports whether the party was left without an owner,
        and (as `out`) what the loop logged. */
    method KickEach(online: set<UserId>) returns (kicked: seq<UserId>, ownerless: bool, ghost out: seq<Event>)
      requires Valid()
      modifies this`members, this`owner, this`log, invitations
      ensures OwnerInvariant(members.Keys, owner) && invitations.Valid()
      ensures forall u :: u in members <==> u in old(members) && u in online
      ensures forall u :: u in members ==> members[u] == old(members)[u]
      ensures NoDup(kicked) && forall u :: u in kicked <==> u in old(members) && u !in online
      ensures old(owner).Some? && old(owner).value in online ==> owner == old(owner)
      ensures ownerless <==> old(members) != map[] && members == map[]
      ensures invitations.State() ==
                if ownerless then CancelAll(old(invitations.State())) else old(invitations.State())
      ensures log == old(log) + out
      ensures HandlerTrace(out) == LeaveCallsFor(leaveHandlers, kicked)
      ensures OnlyOwnerNotices(out)
    {
      kicked, ownerless, out := [], false, [];
      var rest := members.Keys;
      while rest != {}
        invariant rest <= members.Keys
        invariant forall u :: u in members <==> u in old(members) && (u in rest || u in online)
        invariant forall u :: u in members ==> members[u] == old(members)[u]
        invariant NoDup(kicked)
        invariant forall u :: u in kicked <==> u in old(members) && u !in online && u !in rest
        invariant OwnerInvariant(members.Keys, owner) && invitations.Valid()
        invariant old(owner).Some? && old(owner).value in online ==> owner == old(owner)
        invariant ownerless <==> old(members) != map[] && members == map[]
        invariant invitations.State() ==
                    if ownerless then CancelAll(old(invitations.State())) else old(invitations.State())
        invariant log == old(log) + out
        invariant HandlerTrace(out) == LeaveCallsFor(leaveHandlers, kicked)
        invariant OnlyOwnerNotices(out)
        decreases |rest|
      {
        var u :| u in rest;
        rest := rest - {u};
        if u !in online {
          var lost, announced := KickMember(u, online);
          ownerless := ownerless || lost;
          NoDupAppend(kicked, u);
          ghost var step := announced + HandlerCalls(OnLeave, leaveHandlers, u);
          KickTrace(out, announced, leaveHandlers, kicked, u);
          KickNotices(out, announced, leaveHandlers, u);
          AppendAssoc(old(log), out, step);
          kicked := kicked + [u];
          out := out + step;
        }
      }
    }

    /** kickOffline: remove every offline member, re-choosing the owner whenever
        the owner is removed, then tell each remaining online member how many
        were removed; returns the removed users in removal order, and (as
        `trace`) what was logged before that final count. */
    method KickOffline(online: set<UserId>) returns (kicked: seq<UserId>, ghost trace: seq<Event>)
      requires Valid()
      modifies this`members, this`owner, this`log, this`joinHandlers, this`leaveHandlers, invitations
      ensures Valid()
      ensures forall u :: u in members <==> u in old(members) && u in online
      ensures forall u :: u in members ==> members[u] == old(members)[u]
      ensures NoDup(kicked) && forall u :: u in kicked <==> u in old(members) && u !in online
      ensures members != map[] ==> owner.Some? && owner.value in online
      ensures old(owner).Some? && old(owner).value in online ==> owner == old(owner)
      ensures old(members) != map[] && members == map[] ==>
                joinHandlers == [] && leaveHandlers == [] &&
                invitations.State() == CancelAll(old(invitations.State()))
      ensures !(old(members) != map[] && members == map[]) ==>
                joinHandlers == old(joinHandlers) && leaveHandlers == old(leaveHandlers) &&
                invitations.State() == old(invitations.State())
      ensures log == old(log) + trace + [Message(members.Keys * online, [], KickedOffline(|kicked|))]
      ensures HandlerTrace(trace) == LeaveCallsFor(old(leaveHandlers), kicked)
      ensures OnlyOwnerNotices(trace)
    {
      var clearHandlers;
      kicked, clearHandlers, trace := KickEach(online);
      log := log + [Message(members.Keys * online, [], KickedOffline(|kicked|))];
      if clearHandlers {
        joinHandlers := [];
        leaveHandlers := [];
      }
    }

    /** mute: toggle the party-wide mute flag and announce its new value. */
    method Mute(online: set<UserId>)
      modifies this`muted, this`log
      ensures muted == !old(muted)
      ensures log == old(log) + [Announce(if muted then PartyMuted else PartyUnmuted, online)]
    {
      muted := !muted;
      if muted {
        BroadcastMessage(PartyMuted, online);
      } else {
        BroadcastMessage(PartyUnmuted, online);
      }
    }

    /** mutePlayer: toggle a member's mute flag, unless the user is not a member or is the owner. */
    method MutePlayer(u: UserId, online: set<UserId>)
      requires Valid()
      modifies this`members, this`log
      ensures Valid()
      ensures u in old(members) && old(owner) != Some(u) ==>
                members == old(members)[u := old(members)[u].(muted := !old(members)[u].muted)] &&
                log == old(log) + [Announce(if members[u].muted then MemberMuted(u) else MemberUnmuted(u), online)]
      ensures !(u in old(members) && old(owner) != Some(u)) ==>
                members == old(members) && log == old(log)
    {
      if u in members && Some(u) != owner {
        var member := members[u];
        members := members[u := member.(muted := !member.muted)];
        if members[u].muted {
          BroadcastMessage(MemberMuted(u), online);
        } else {
          BroadcastMessage(MemberUnmuted(u), online);
        }
      }
    }

    /** transferPartyToPlayer: IllegalArgument for a non-member; otherwise announce
        and make the member the owner, with no succession rule involved. */
    method TransferPartyToPlayer(u: UserId, online: set<UserId>) returns (outcome: TransferOutcome)
      requires Valid()
      modifies this`owner, this`log
      ensures Valid()
      ensures outcome == IllegalArgument <==> u !in members
      ensures outcome == IllegalArgument ==> owner == old(owner) && log == old(log)
      ensures outcome == Done ==>
                owner == Some(u) && log == old(log) + [Announce(Transferred(u, u), online)]
    {
      if u !in members {
        return IllegalArgument;
      }
      BroadcastMessage(Transferred(u, u), online);
      owner := Some(u);
      outcome := Done;
    }

    /** One iteration of disband: notify `u` if online, remove it, run the leave handlers. */
    method DisbandMember(u: UserId, online: set<UserId>)
      requires u in members
      modifies this`members, this`log
      ensures members == old(members) - {u}
      ensures log == old(log) + DisbandStep(u, online, leaveHandlers)
    {
      if u in online {
        log := log + [Private(u, Disbanded)];
      }
      members := members - {u};
      InvokeHandlers(OnLeave, leaveHandlers, u);
    }

    /** disband's loop: remove the members one at a time, in map iteration order. */
    method DisbandMembers(online: set<UserId>) returns (removed: seq<UserId>)
      modifies this`members, this`log
      ensures members == map[]
      ensures NoDup(removed) && |removed| == |old(members)|
      ensures forall u :: u in removed <==> u in old(members)
      ensures log == old(log) + DisbandTrace(removed, online, leaveHandlers)
    {
      removed := [];
      while members != map[]
        invariant NoDup(removed)
        invariant forall u :: u in removed <==> u in old(members) && u !in members
        invariant forall u :: u in members ==> u in old(members)
        invariant |removed| + |members| == |old(members)|
        invariant log == old(log) + DisbandTrace(removed, online, leaveHandlers)
        decreases |members|
      {
        var u :| u in members;
        ghost var removedBefore := removed;
        assert |(members - {u}).Keys| == |members.Keys - {u}|;
        DisbandMember(u, online);
        removed := removed + [u];
        assert removed[..|removed| - 1] == removedBefore;
        ghost var step := DisbandStep(u, online, leaveHandlers);
        assert DisbandTrace(removed, online, leaveHandlers) ==
               DisbandTrace(removedBefore, online, leaveHandlers) + step;
        AppendAssoc(old(log), DisbandTrace(removedBefore, online, leaveHandlers), step);
      }
    }

    /** disband: clear the owner first, then remove every member (notice to the
        online ones, leave handlers for each), cancel all invitations and clear
        both handler lists; returns the former members in removal order. */
    method Disband(online: set<UserId>) returns (removed: seq<UserId>)
      requires Valid()
      modifies this`members, this`owner, this`log, this`joinHandlers, this`leaveHandlers, invitations
      ensures Valid()
      ensures NoDup(removed) && |removed| == |old(members)|
      ensures forall u :: u in removed <==> u in old(members)
      ensures members == map[] && owner == None
      ensures joinHandlers == [] && leaveHandlers == []
      ensures invitations.State() == CancelAll(old(invitations.State()))
      ensures log == old(log) + DisbandTrace(removed, online, old(leaveHandlers))
    {
      owner := None;
      removed := DisbandMembers(online);
      invitations.CancelAllOutgoingInvitations();
      joinHandlers := [];
      leaveHandlers := [];
    }
  }
}
