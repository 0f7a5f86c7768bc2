/** Values shared by the party model: user and task identities, audiences,
    notice kinds and the event log that stands for messages and handler calls. */
module PartyTypes {

  /** A player's unique id (a UUID on the server). */
  type UserId = nat

  /** The id the server scheduler gives a delayed task. */
  type TaskId = nat

  /** Identifies one registered join or leave handler. */
  type HandlerId = nat

  datatype Option<T> = None | Some(value: T)

  /** Something that can receive a message.
      Player(u) is a connected player object (what a chat event's viewer set holds);
      PlayerAudience(u) is the wrapper a spying player is stored as, equal by user id;
      Other(tag) is any other audience, such as the console. */
  datatype Audience = Player(id: UserId) | PlayerAudience(id: UserId) | Other(tag: nat)

  /** The per-member flags of a party member. */
  datatype MemberState = MemberState(muted: bool, inPartyChat: bool)

  /** A freshly built member: neither muted nor in party chat. */
  const NewMember := MemberState(false, false)

  /** The kind of a message, with the users it names; text, colours and translation are not modelled. */
  datatype Notice =
    | Joined(who: UserId)
    | Transferred(from: UserId, to: UserId)
    | MemberRemoved(who: UserId)
    | MemberLeft(who: UserId)
    | YouWereRemoved
    | YouLeft
    | NewOwnerAfterKick(from: UserId, to: UserId)
    | KickedOffline(count: nat)
    | PartyMuted
    | PartyUnmuted
    | MemberMuted(who: UserId)
    | MemberUnmuted(who: UserId)
    | Disbanded
    | InvitedByOwner(inviter: UserId)
    | InvitedByMember(inviter: UserId, owner: UserId)
    | InviteCreated(inviter: UserId, invitee: UserId)
    | InviteExpired(invitee: UserId)
    | YourInviteExpired
    | ChatMemberMuted
    | ChatPartyMuted

  datatype HandlerKind = OnJoin | OnLeave

  /** One observable effect: a message delivered to each of a set of players and
      to each spy audience in list order, or one handler invoked with a member. */
  datatype Event =
    | Message(players: set<UserId>, spies: seq<Audience>, notice: Notice)
    | Handled(kind: HandlerKind, handler: HandlerId, member: UserId)

  /** A message sent to one player only. */
  function Private(u: UserId, n: Notice): Event {
    Message({u}, [], n)
  }

  /** What the invitation manager reads of a party: its member ids, its owner and its spies. */
  datatype PartyView = PartyView(members: set<UserId>, owner: Option<UserId>, spies: seq<Audience>)

  /** The messages a broadcast to a party produces: every online member and every spy. */
  function Broadcast(p: PartyView, online: set<UserId>, n: Notice): Event {
    Message(p.members * online, p.spies, n)
  }

  /** The calls of every handler in `hs`, in registration order, each with member `u`. */
  function HandlerCalls(kind: HandlerKind, hs: seq<HandlerId>, u: UserId): (r: seq<Event>)
    ensures |r| == |hs|
    ensures forall i :: 0 <= i < |hs| ==> r[i] == Handled(kind, hs[i], u)
  {
    if hs == [] then [] else HandlerCalls(kind, hs[..|hs| - 1], u) + [Handled(kind, hs[|hs| - 1], u)]
  }

  /** The handler invocations in a log, in order, with the messages dropped. */
  function HandlerTrace(es: seq<Event>): (r: seq<Event>)
    ensures |r| <= |es|
    ensures forall i :: 0 <= i < |r| ==> r[i].Handled?
  {
    if es == [] then []
    else HandlerTrace(es[..|es| - 1]) + (if es[|es| - 1].Handled? then [es[|es| - 1]] else [])
  }

  lemma {:induction false} HandlerTraceAppend(a: seq<Event>, b: seq<Event>)
    ensures HandlerTrace(a + b) == HandlerTrace(a) + HandlerTrace(b)
    decreases |b|
  {
    if b == [] {
      assert a + b == a;
    } else {
      var b' := b[..|b| - 1];
      assert (a + b)[..|a + b| - 1] == a + b';
      HandlerTraceAppend(a, b');
    }
  }

  lemma {:induction false} HandlerTraceOfCalls(kind: HandlerKind, hs: seq<HandlerId>, u: UserId)
    ensures HandlerTrace(HandlerCalls(kind, hs, u)) == HandlerCalls(kind, hs, u)
    decreases |hs|
  {
    if hs != [] {
      HandlerTraceOfCalls(kind, hs[..|hs| - 1], u);
      HandlerTraceAppend(HandlerCalls(kind, hs[..|hs| - 1], u), [Handled(kind, hs[|hs| - 1], u)]);
      assert HandlerTrace([Handled(kind, hs[|hs| - 1], u)]) == [Handled(kind, hs[|hs| - 1], u)] by {
        assert [Handled(kind, hs[|hs| - 1], u)][..0] == [];
      }
    }
  }

  /** A log made of messages only holds no handler invocations. */
  lemma {:induction false} HandlerTraceOfMessages(es: seq<Event>)
    requires forall i :: 0 <= i < |es| ==> es[i].Message?
    ensures HandlerTrace(es) == []
    decreases |es|
  {
    if es != [] {
      HandlerTraceOfMessages(es[..|es| - 1]);
    }
  }

  /** Leave-handler calls for each user of `us`, one user after the other. */
  function LeaveCallsFor(hs: seq<HandlerId>, us: seq<UserId>): seq<Event> {
    if us == [] then [] else LeaveCallsFor(hs, us[..|us| - 1]) + HandlerCalls(OnLeave, hs, us[|us| - 1])
  }

  /** A step that logs some messages and then handler calls contributes exactly those calls. */
  lemma {:induction false} HandlerTraceOfStep(announced: seq<Event>, kind: HandlerKind, hs: seq<HandlerId>, u: UserId)
    requires forall i :: 0 <= i < |announced| ==> announced[i].Message?
    ensures HandlerTrace(announced + HandlerCalls(kind, hs, u)) == HandlerCalls(kind, hs, u)
  {
    HandlerTraceOfMessages(announced);
    HandlerTraceAppend(announced, HandlerCalls(kind, hs, u));
    HandlerTraceOfCalls(kind, hs, u);
  }

  lemma LeaveCallsForSnoc(hs: seq<HandlerId>, us: seq<UserId>, u: UserId)
    ensures LeaveCallsFor(hs, us + [u]) == LeaveCallsFor(hs, us) + HandlerCalls(OnLeave, hs, u)
  {
  }

  /** No element occurs twice. */
  predicate NoDup<T(==)>(s: seq<T>) {
    forall i, j :: 0 <= i < j < |s| ==> s[i] != s[j]
  }

  lemma AppendAssoc<T>(a: seq<T>, b: seq<T>, c: seq<T>)
    ensures a + b + c == a + (b + c)
  {
  }

  lemma NoDupAppend<T>(s: seq<T>, x: T)
    requires NoDup(s) && x !in s
    ensures NoDup(s + [x])
  {
  }

  /** Java's List.remove(Object): drop the first element equal to `x`, if any. */
  function RemoveFirst<T(==)>(s: seq<T>, x: T): (r: seq<T>)
    ensures x !in s ==> r == s
    ensures x in s ==> |r| == |s| - 1
    ensures forall y :: y in r ==> y in s
  {
    if s == [] then []
    else if s[0] == x then s[1..]
    else [s[0]] + RemoveFirst(s[1..], x)
  }

  /** RemoveFirst removes exactly one occurrence of `x` and keeps every other element. */
  lemma {:induction false} RemoveFirstMultiset<T>(s: seq<T>, x: T)
    ensures multiset(RemoveFirst(s, x)) == multiset(s) - multiset{x}
    decreases |s|
  {
    if s != [] {
      assert s == [s[0]] + s[1..];
      if s[0] != x {
        RemoveFirstMultiset(s[1..], x);
      }
    }
  }

  /** The index RemoveFirst cuts at: the first occurrence of `x`. */
  lemma {:induction false} RemoveFirstAt<T>(s: seq<T>, x: T) returns (i: nat)
    requires x in s
    ensures i < |s| && s[i] == x && x !in s[..i]
    ensures RemoveFirst(s, x) == s[..i] + s[i + 1..]
    decreases |s|
  {
    if s[0] == x {
      i := 0;
      assert s[..0] == [] && s[0 + 1..] == s[1..];
    } else {
      var t := s[1..];
      assert x in t by { assert s == [s[0]] + t; }
      var j := RemoveFirstAt(t, x);
      i := j + 1;
      assert s[..i] == [s[0]] + t[..j];
      assert s[i + 1..] == t[j + 1..];
      assert RemoveFirst(s, x) == [s[0]] + (t[..j] + t[j + 1..]);
      AppendAssoc([s[0]], t[..j], t[j + 1..]);
    }
  }

  /** RemoveFirst removes the first occurrence of `x` and keeps the other elements in order. */
  lemma RemoveFirstOrder<T>(s: seq<T>, x: T)
    requires x in s
    ensures exists i :: 0 <= i < |s| && s[i] == x && x !in s[..i] && RemoveFirst(s, x) == s[..i] + s[i + 1..]
  {
    var i := RemoveFirstAt(s, x);
  }

  /** In a list without duplicates, removing the first `x` removes every `x`. */
  lemma {:induction false} RemoveFirstNoDup<T>(s: seq<T>, x: T)
    requires NoDup(s)
    ensures x !in RemoveFirst(s, x)
    decreases |s|
  {
    if s != [] {
      if s[0] == x {
        assert forall i :: 0 <= i < |s[1..]| ==> s[1..][i] == s[i + 1] != s[0];
      } else {
        assert NoDup(s[1..]) by {
          assert forall i :: 0 <= i < |s[1..]| ==> s[1..][i] == s[i + 1];
        }
        RemoveFirstNoDup(s[1..], x);
      }
    }
  }
}
