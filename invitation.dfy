/** The timed invitation table of a party (TimedInvitationManager): a map from
    invitee to the id of the scheduler task that expires the invitation. The
    server scheduler is modelled by the set of live tasks, each with the invitee
    its expiry callback was created for, and a counter for fresh task ids; time
    itself is not modelled, a task runs when `Expire` is called with its id. */
module Invitation {
  import opened PartyTypes

  /** The manager's map together with the scheduler state it relies on. */
  datatype InviteState = InviteState(
    invitations: map<UserId, TaskId>,
    scheduled: map<TaskId, UserId>,
    next: TaskId)

  /** Every live task id is below the counter, and every invitation's task is
      live and was scheduled for that invitee. */
  predicate Wf(s: InviteState) {
    (forall t :: t in s.scheduled ==> t < s.next) &&
    (forall u :: u in s.invitations ==>
       s.invitations[u] in s.scheduled && s.scheduled[s.invitations[u]] == u)
  }

  /** Wf, and moreover every live task is the current invitation of its invitee:
      at most one pending timer per invitee. */
  predicate Tight(s: InviteState) {
    Wf(s) &&
    forall t :: t in s.scheduled ==>
      s.scheduled[t] in s.invitations && s.invitations[s.scheduled[t]] == t
  }

  const Empty := InviteState(map[], map[], 0)

  /** addInvitation's effect on the table, as written: schedule a fresh expiry
      task and overwrite the invitee's entry, leaving any earlier task live. */
  function Invite(s: InviteState, u: UserId): (r: InviteState)
    requires Wf(s)
    ensures Wf(r)
    ensures r.invitations.Keys == s.invitations.Keys + {u}
    ensures r.invitations[u] !in s.scheduled && r.invitations[u] in r.scheduled
    ensures forall v :: v in s.invitations && v != u ==> r.invitations[v] == s.invitations[v]
    ensures forall t :: t in s.scheduled ==> t in r.scheduled && r.scheduled[t] == s.scheduled[t]
    ensures r.scheduled.Keys == s.scheduled.Keys + {r.invitations[u]}
    ensures r.next == s.next + 1
  {
    InviteState(s.invitations[u := s.next], s.scheduled[s.next := u], s.next + 1)
  }

  /** removeInvitation's effect: drop the entry and cancel its task, if there is one. */
  function Withdraw(s: InviteState, u: UserId): (r: InviteState)
    requires Wf(s)
    ensures Wf(r)
    ensures r.invitations == s.invitations - {u}
    ensures r.next == s.next
    ensures forall t :: t in r.scheduled <==>
              t in s.scheduled && !(u in s.invitations && t == s.invitations[u])
    ensures forall t :: t in r.scheduled ==> r.scheduled[t] == s.scheduled[t]
  {
    if u in s.invitations then
      InviteState(s.invitations - {u}, s.scheduled - {s.invitations[u]}, s.next)
    else s
  }

  /** cancelAllOutgoingInvitations' effect: cancel every stored task, empty the map. */
  function CancelAll(s: InviteState): (r: InviteState)
    requires Wf(s)
    ensures Wf(r)
    ensures r.invitations == map[]
    ensures forall t :: t in r.scheduled <==> t in s.scheduled && t !in s.invitations.Values
    ensures forall t :: t in r.scheduled ==> r.scheduled[t] == s.scheduled[t]
    ensures r.next == s.next
  {
    InviteState(map[],
                map t | t in s.scheduled && t !in s.invitations.Values :: s.scheduled[t],
                s.next)
  }

  /** Withdrawing one invitation first does not change what cancelling all leaves. */
  lemma {:induction false} CancelAllAfterWithdraw(s: InviteState, u: UserId)
    requires Wf(s)
    ensures CancelAll(Withdraw(s, u)) == CancelAll(s)
  {
    if u in s.invitations {
      var k := s.invitations[u];
      var r := Withdraw(s, u);
      forall t ensures t in r.invitations.Values <==> t in s.invitations.Values - {k} {
        if t in s.invitations.Values - {k} {
          var v :| v in s.invitations && s.invitations[v] == t;
          assert v != u && r.invitations[v] == t;
        }
      }
    }
  }

  /** With no invitation stored, cancelling all changes nothing. */
  lemma CancelAllOfEmpty(s: InviteState)
    requires Wf(s) && s.invitations == map[]
    ensures CancelAll(s) == s
  {
  }

  /** The scheduler runs live task `t`: the task is gone, and its callback removes
      whatever entry its invitee has now. */
  function Fire(s: InviteState, t: TaskId): (r: InviteState)
    requires Wf(s) && t in s.scheduled
    ensures Wf(r)
    ensures t !in r.scheduled && s.scheduled[t] !in r.invitations
    ensures forall v :: v in s.invitations && v != s.scheduled[t] ==>
              v in r.invitations && r.invitations[v] == s.invitations[v]
    ensures r.invitations.Keys == s.invitations.Keys - {s.scheduled[t]}
    ensures forall t' :: t' in s.scheduled && t' != t ==> t' in r.scheduled && r.scheduled[t'] == s.scheduled[t']
    ensures r.scheduled.Keys == s.scheduled.Keys - {t}
    ensures r.next == s.next
  {
    InviteState(s.invitations - {s.scheduled[t]}, s.scheduled - {t}, s.next)
  }

  /** Invite, but cancelling the invitee's superseded timer first. */
  function InviteReplacing(s: InviteState, u: UserId): (r: InviteState)
    requires Wf(s)
    ensures Wf(r)
    ensures r.invitations.Keys == s.invitations.Keys + {u}
    ensures u in s.invitations ==> s.invitations[u] !in r.scheduled
  {
    Invite(Withdraw(s, u), u)
  }

  /** A timer superseded by a re-invite is still live; when it fires it deletes
      the replacement invitation although the replacement's own timer is pending. */
  lemma StaleTimerRemovesReplacement(s: InviteState, u: UserId)
    requires Wf(s) && u in s.invitations
    ensures var s2 := Invite(s, u);
            var stale := s.invitations[u];
            stale in s2.scheduled && stale != s2.invitations[u] &&
            u !in Fire(s2, stale).invitations &&
            s2.invitations[u] in Fire(s2, stale).scheduled
  {
  }

  /** The same, from an empty table: invite u twice, then task 0 fires. */
  lemma ReinviteThenFirstTimerFires(u: UserId)
    ensures var s2 := Invite(Invite(Empty, u), u);
            0 in s2.scheduled && u !in Fire(s2, 0).invitations && 1 in Fire(s2, 0).scheduled
  {
  }

  /** As written, re-inviting breaks Tight: two live timers for one invitee. */
  lemma InviteBreaksTight(s: InviteState, u: UserId)
    requires Tight(s) && u in s.invitations
    ensures !Tight(Invite(s, u))
  {
  }

  /** The corrected invite keeps at most one live timer per invitee. */
  lemma InviteReplacingKeepsTight(s: InviteState, u: UserId)
    requires Tight(s)
    ensures Tight(InviteReplacing(s, u))
  {
  }

  /** Removing an invitation keeps at most one live timer per invitee. */
  lemma WithdrawKeepsTight(s: InviteState, u: UserId)
    requires Tight(s)
    ensures Tight(Withdraw(s, u))
  {
  }

  /** From a Tight table, cancelling everything leaves no live timer at all. */
  lemma CancelAllKeepsTight(s: InviteState)
    requires Tight(s)
    ensures Tight(CancelAll(s)) && CancelAll(s).scheduled == map[]
  {
  }

  /** An expiry keeps at most one live timer per invitee. */
  lemma FireKeepsTight(s: InviteState, t: TaskId)
    requires Tight(s) && t in s.scheduled
    ensures Tight(Fire(s, t))
  {
  }

  /** In a Tight table a timer only ever expires its own invitation. */
  lemma TightFireRemovesOwnEntry(s: InviteState, t: TaskId)
    requires Tight(s) && t in s.scheduled
    ensures s.scheduled[t] in s.invitations && s.invitations[s.scheduled[t]] == t
    ensures Fire(s, t).invitations == s.invitations - {s.scheduled[t]}
  {
  }

  /** Inviting x and then x joining (removeInvitation) leaves no invitation for x
      and cancels the expiry task, so its callback can never run. */
  lemma InvitationConsumed(s: InviteState, x: UserId)
    requires Wf(s)
    ensures var s1 := Invite(s, x);
            var r := Withdraw(s1, x);
            x !in r.invitations && s1.invitations[x] !in r.scheduled &&
            (forall v :: v in s.invitations && v != x ==> v in r.invitations)
  {
  }

  class TimedInvitationManager {
    var invitations: map<UserId, TaskId>
    var scheduled: map<TaskId, UserId>
    var nextTask: TaskId

    function State(): InviteState
      reads this
    {
      InviteState(invitations, scheduled, nextTask)
    }

    ghost predicate Valid()
      reads this
    {
      Wf(State())
    }

    constructor ()
      ensures Valid() && State() == Empty
    {
      invitations, scheduled, nextTask := map[], map[], 0;
    }

    /** hasInvitation: whether the user has a pending invitation. */
    method HasInvitation(u: UserId) returns (b: bool)
      requires Valid()
      ensures b <==> u in invitations
      ensures b ==> invitations[u] in scheduled
    {
      b := u in invitations;
    }

    /** getInvitations: a snapshot of the invitees. */
    method GetInvitations() returns (ids: set<UserId>)
      ensures ids == invitations.Keys
    {
      ids := invitations.Keys;
    }

    /** addInvitation(party, invitee, inviter): returns the messages it sends. */
    method AddInvitation(party: PartyView, invitee: UserId, inviter: UserId, online: set<UserId>)
      returns (sent: seq<Event>)
      requires Valid()
      modifies this
      ensures Valid()
      ensures inviter !in party.members || party.owner.None? ==>
                State() == old(State()) && sent == []
      ensures inviter in party.members && party.owner.Some? ==>
                State() == Invite(old(State()), invitee) &&
                invitations[invitee] !in old(scheduled) &&
                sent == (if invitee in online
                         then [Private(invitee,
                                 if party.owner.value == inviter then InvitedByOwner(inviter)
                                 else InvitedByMember(inviter, party.owner.value))]
                         else []) +
                        [Broadcast(party, online, InviteCreated(inviter, invitee))]
    {
      if inviter !in party.members {
        return [];
      }
      if party.owner.None? {
        return [];
      }
      var owner := party.owner.value;
      sent := [];
      if invitee in online {
        if owner == inviter {
          sent := sent + [Private(invitee, InvitedByOwner(inviter))];
        } else {
          sent := sent + [Private(invitee, InvitedByMember(inviter, owner))];
        }
      }
      sent := sent + [Broadcast(party, online, InviteCreated(inviter, invitee))];
      // runTaskLater: the scheduler hands out a fresh id and keeps the task live
      var taskId := nextTask;
      scheduled := scheduled[taskId := invitee];
      nextTask := nextTask + 1;
      invitations := invitations[invitee := taskId];
    }

    /** The expiry callback, run when the scheduler reaches live task `task`;
        `party` is the party as it is at that moment. */
    method Expire(party: PartyView, task: TaskId, online: set<UserId>) returns (sent: seq<Event>)
      requires Valid() && task in scheduled
      modifies this
      ensures Valid()
      ensures State() == Fire(old(State()), task)
      ensures var invitee := old(scheduled)[task];
              sent == if invitee in party.members then []
                      else [Broadcast(party, online, InviteExpired(invitee))] +
                           (if invitee in online then [Private(invitee, YourInviteExpired)] else [])
    {
      var invitee := scheduled[task];
      scheduled := scheduled - {task};
      invitations := invitations - {invitee};
      if invitee in party.members {
        return [];
      }
      sent := [Broadcast(party, online, InviteExpired(invitee))];
      if invitee in online {
        sent := sent + [Private(invitee, YourInviteExpired)];
      }
    }

    /** removeInvitation: true iff an entry existed; only that entry's task is cancelled. */
    method RemoveInvitation(u: UserId) returns (existed: bool)
      requires Valid()
      modifies this
      ensures Valid()
      ensures existed == (u in old(invitations))
      ensures State() == Withdraw(old(State()), u)
    {
      if u in invitations {
        var taskId := invitations[u];
        invitations := invitations - {u};
        scheduled := scheduled - {taskId};
        existed := true;
      } else {
        existed := false;
      }
    }

    /** cancelAllOutgoingInvitations: cancel every stored task and empty the map. */
    method CancelAllOutgoingInvitations()
      requires Valid()
      modifies this
      ensures Valid()
      ensures State() == CancelAll(old(State()))
    {
      while invitations != map[]
        invariant Valid()
        invariant CancelAll(State()) == CancelAll(old(State()))
        decreases |invitations|
      {
        var u :| u in invitations;
        var taskId := invitations[u];
        ghost var before := State();
        CancelAllAfterWithdraw(before, u);
        scheduled := scheduled - {taskId};
        invitations := invitations - {u};
        assert State() == Withdraw(before, u);
      }
      CancelAllOfEmpty(State());
    }
  }
}
