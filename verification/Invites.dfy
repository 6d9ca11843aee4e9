/** Group invites and the transaction that consumes one: the rows, the two usability tests, and
    `ConsumeAndCreateMemberToken` with its rollback. */
module Invites {
  import opened GoStrings
  import opened Json

  const ACTIVE := "active"

  /** `maxUses <= 0` means no limit; no expiry is `None`. */
  datatype Invite = Invite(group: string, allowed: string, role: string, maxUses: int, used: int, expires: Option<int>,
                           status: string)

  datatype MemberKey = MemberKey(group: string, actorType: string, actorId: string)

  datatype Member = Member(role: string, capabilities: string)

  /** `via` records the invite that the token was minted through. */
  datatype Token = Token(group: string, actorType: string, actorId: string, via: int)

  datatype Tables = Tables(invites: map<int, Invite>, members: map<MemberKey, Member>, tokens: map<nat, Token>)

  /** What a join asks for, as the handler assembles it. */
  datatype Join = Join(invite: int, group: string, actorType: string, actorId: string, role: string,
                       capabilities: string)

  function NormalizeActorType(t: string): string {
    var s := TrimSpace(t);
    if s == "human" || s == "system" then s else "agent"
  }

  function NormalizeInvite(i: Invite): Invite {
    Invite(TrimSpace(i.group),
           if TrimSpace(i.allowed) == "" then "" else NormalizeActorType(TrimSpace(i.allowed)),
           if i.role == "" then "member" else i.role,
           if i.maxUses <= 0 then 1 else i.maxUses,
           i.used,
           i.expires,
           if i.status == "" then ACTIVE else i.status)
  }

  /** `InviteUsable`: the handler's test, on a row read earlier. */
  predicate InviteUsable(i: Option<Invite>, actorType: string, now: int) {
    && i.Some?
    && i.value.status == ACTIVE
    && (i.value.allowed == "" || i.value.allowed == NormalizeActorType(actorType))
    && !(i.value.maxUses > 0 && i.value.used >= i.value.maxUses)
    && (i.value.expires.Some? ==> i.value.expires.value > now)
  }

  /** The WHERE clause of `consumeInvite`. */
  predicate Guard(i: Invite, now: int) {
    && i.status == ACTIVE
    && (i.expires.None? || i.expires.value > now)
    && (i.maxUses <= 0 || i.used < i.maxUses)
  }

  predicate TypeAllowed(i: Invite, actorType: string) {
    i.allowed == "" || i.allowed == NormalizeActorType(actorType)
  }

  /** The update guard is the handler's test without the actor type, on the same row at the same time. */
  lemma GuardIsUsable(i: Invite, actorType: string, now: int)
    ensures InviteUsable(Some(i), actorType, now) <==> Guard(i, now) && TypeAllowed(i, actorType)
  {
  }

  lemma ActorTypeIsStable(t: string)
    ensures var n := NormalizeActorType(t); n != "" && TrimSpace(n) == n && NormalizeActorType(n) == n
  {
    var n := NormalizeActorType(t);
    assert n == "human" || n == "system" || n == "agent";
    SolidEnds(n);
  }

  lemma TrimTwice(s: string)
    ensures TrimSpace(TrimSpace(s)) == TrimSpace(s)
  {
    TrimSpaceIsTight(s);
    TrimSpaceFixes(TrimSpace(s));
  }

  /** A stored invite always has a limit, and its actor type matches itself: normalising again changes
      nothing. */
  lemma NormalizeIsStable(i: Invite)
    ensures NormalizeInvite(NormalizeInvite(i)) == NormalizeInvite(i)
    ensures NormalizeInvite(i).maxUses > 0
  {
    TrimTwice(i.group);
    TrimTwice(i.allowed);
    ActorTypeIsStable(TrimSpace(i.allowed));
  }

  function KeyOf(j: Join): MemberKey {
    MemberKey(j.group, NormalizeActorType(j.actorType), TrimSpace(j.actorId))
  }

  function MemberOf(j: Join): Member {
    Member(if j.role == "" then "member" else j.role, j.capabilities)
  }

  function TokenOf(j: Join): Token {
    Token(TrimSpace(j.group), NormalizeActorType(j.actorType), TrimSpace(j.actorId), j.invite)
  }

  function Used(i: Invite): Invite {
    i.(used := i.used + 1)
  }

  /** The effect of one whole join. */
  function Joined(t: Tables, j: Join, hash: nat): Tables
    requires j.invite in t.invites
  {
    Tables(t.invites[j.invite := Used(t.invites[j.invite])], t.members[KeyOf(j) := MemberOf(j)],
           t.tokens[hash := TokenOf(j)])
  }

  /** Where the transaction fails, if it does. */
  datatype Failure = NoFailure | AtConsume | AtUpsert | AtMint | AtCommit

  class GroupInviteStore {
    var invites: map<int, Invite>
    var members: map<MemberKey, Member>
    var tokens: map<nat, Token>

    function Contents(): Tables
      reads this
    {
      Tables(invites, members, tokens)
    }

    constructor ()
      ensures Contents() == Tables(map[], map[], map[])
    {
      invites, members, tokens := map[], map[], map[];
    }

    method Create(id: int, invite: Invite) returns (ok: bool)
      modifies this`invites
      ensures ok <==> id !in old(invites)
      ensures invites == if ok then old(invites)[id := NormalizeInvite(invite)] else old(invites)
    {
      ok := id !in invites;
      if ok {
        invites := invites[id := NormalizeInvite(invite)];
      }
    }

    method ConsumeInvite(id: int, now: int) returns (ok: bool)
      modifies this`invites
      ensures ok <==> id in old(invites) && Guard(old(invites)[id], now)
      ensures invites == if ok then old(invites)[id := Used(old(invites)[id])] else old(invites)
    {
      ok := id in invites && Guard(invites[id], now);
      if ok {
        invites := invites[id := Used(invites[id])];
      }
    }

    method Rollback(before: Tables)
      modifies this
      ensures Contents() == before
    {
      invites, members, tokens := before.invites, before.members, before.tokens;
    }

    /** All or nothing: a join that is refused or fails at any statement leaves every table unchanged. */
    method ConsumeAndCreateMemberToken(j: Join, now: int, hash: nat, failure: Failure) returns (ok: bool)
      modifies this
      ensures ok <==> j.invite in old(invites) && Guard(old(invites)[j.invite], now) && failure.NoFailure?
      ensures !ok ==> Contents() == old(Contents())
      ensures ok ==> Contents() == Joined(old(Contents()), j, hash)
    {
      var before := Contents();
      ok := false;
      if !failure.AtConsume? {
        ok := ConsumeInvite(j.invite, now);
      }
      if ok && failure.AtUpsert? {
        ok := false;
      }
      if ok {
        members := members[KeyOf(j) := MemberOf(j)];
        if failure.AtMint? {
          ok := false;
        }
      }
      if ok {
        tokens := tokens[hash := TokenOf(j)];
        if failure.AtCommit? {
          ok := false;
        }
      }
      if !ok {
        Rollback(before);
      }
    }
  }
}
