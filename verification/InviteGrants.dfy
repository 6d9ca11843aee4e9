/** What committed joins grant, in every interleaving: for whom a token is minted, which member rows stand
    behind it, and what an invite says. */
module InviteGrants {
  import opened GoStrings
  import opened Invites
  import opened InviteTransactions

  /** Anybody who is not called human or system counts as an agent. */
  function ActorKind(t: string): string {
    match TrimSpace(t)
    case "human" => "human"
    case "system" => "system"
    case _ => "agent"
  }

  /** The token is for the actor of the join, in its group. */
  predicate TokenFor(token: Token, j: Join) {
    && token.via == j.invite && token.group == TrimSpace(j.group)
    && token.actorType == ActorKind(j.actorType) && token.actorId == TrimSpace(j.actorId)
  }

  /** The member row is that of the actor of the join, in its group. */
  predicate Joins(j: Join, key: MemberKey) {
    key.group == j.group && key.actorType == ActorKind(j.actorType) && key.actorId == TrimSpace(j.actorId)
  }

  predicate RowFor(m: Member, j: Join) {
    m.role == (if j.role == "" then "member" else j.role) && m.capabilities == j.capabilities
  }

  /** Join `k` is the last one of this member. */
  predicate LastJoin(joins: seq<Join>, k: int, key: MemberKey) {
    0 <= k < |joins| && Joins(joins[k], key) && forall i :: k < i < |joins| ==> !Joins(joins[i], key)
  }

  predicate HasJoin(joins: seq<Join>, key: MemberKey) {
    exists i :: 0 <= i < |joins| && Joins(joins[i], key)
  }

  predicate HasToken(joins: seq<Join>, token: Token) {
    exists i :: 0 <= i < |joins| && TokenFor(token, joins[i])
  }

  ghost predicate RowOfLast(joins: seq<Join>, key: MemberKey, m: Member) {
    exists k :: LastJoin(joins, k, key) && RowFor(m, joins[k])
  }

  ghost predicate Granted(v: Tables, joins: seq<Join>) {
    && (forall hash :: hash in v.tokens ==> HasToken(joins, v.tokens[hash]))
    && (forall key :: key in v.members <==> HasJoin(joins, key))
    && (forall key :: key in v.members ==> RowOfLast(joins, key, v.members[key]))
    && (forall i :: 0 <= i < |joins| ==> TrimSpace(joins[i].group) == joins[i].group)
  }

  lemma KindIs(t: string)
    ensures NormalizeActorType(t) == ActorKind(t)
  {
  }

  lemma OneMoreJoin(joins: seq<Join>, j: Join, key: MemberKey)
    ensures HasJoin(joins + [j], key) <==> HasJoin(joins, key) || Joins(j, key)
  {
    var more := joins + [j];
    if HasJoin(joins, key) {
      var i :| 0 <= i < |joins| && Joins(joins[i], key);
      assert Joins(more[i], key);
    }
    if Joins(j, key) {
      assert Joins(more[|joins|], key);
    }
  }

  lemma LastJoinStays(joins: seq<Join>, j: Join, key: MemberKey, m: Member)
    requires RowOfLast(joins, key, m) && !Joins(j, key)
    ensures RowOfLast(joins + [j], key, m)
  {
    var k :| LastJoin(joins, k, key) && RowFor(m, joins[k]);
    var more := joins + [j];
    forall i | k < i < |more| ensures !Joins(more[i], key) {
      assert i < |joins| ==> more[i] == joins[i];
    }
    assert LastJoin(more, k, key) && more[k] == joins[k];
  }

  lemma NewJoinIsLast(joins: seq<Join>, j: Join, key: MemberKey, m: Member)
    requires Joins(j, key) && RowFor(m, j)
    ensures RowOfLast(joins + [j], key, m)
  {
    var more := joins + [j];
    assert more[|joins|] == j;
    assert LastJoin(more, |joins|, key);
  }

  lemma TokenStays(joins: seq<Join>, j: Join, token: Token)
    ensures HasToken(joins, token) ==> HasToken(joins + [j], token)
    ensures TokenFor(token, j) ==> HasToken(joins + [j], token)
  {
    var more := joins + [j];
    if HasToken(joins, token) {
      var i :| 0 <= i < |joins| && TokenFor(token, joins[i]);
      assert TokenFor(token, more[i]);
    }
    if TokenFor(token, j) {
      assert TokenFor(token, more[|joins|]);
    }
  }

  lemma JoinGrantsTokens(v: Tables, joins: seq<Join>, j: Join, hash: nat)
    requires Granted(v, joins) && j.invite in v.invites
    ensures forall h :: h in Joined(v, j, hash).tokens ==> HasToken(joins + [j], Joined(v, j, hash).tokens[h])
  {
    KindIs(j.actorType);
    var tokens := Joined(v, j, hash).tokens;
    forall h | h in tokens ensures HasToken(joins + [j], tokens[h]) {
      TokenStays(joins, j, tokens[h]);
      if h == hash {
        assert TokenFor(tokens[h], j);
      } else {
        assert h in v.tokens && tokens[h] == v.tokens[h];
      }
    }
  }

  lemma JoinGrantsMembers(v: Tables, joins: seq<Join>, j: Join, hash: nat)
    requires Granted(v, joins) && j.invite in v.invites
    ensures var members := Joined(v, j, hash).members;
            && (forall key :: key in members <==> HasJoin(joins + [j], key))
            && (forall key :: key in members ==> RowOfLast(joins + [j], key, members[key]))
  {
    KindIs(j.actorType);
    var members := Joined(v, j, hash).members;
    forall key
      ensures key in members <==> HasJoin(joins + [j], key)
      ensures key in members ==> RowOfLast(joins + [j], key, members[key])
    {
      OneMoreJoin(joins, j, key);
      assert Joins(j, key) <==> key == KeyOf(j);
      if key == KeyOf(j) {
        NewJoinIsLast(joins, j, key, members[key]);
      } else if key in v.members {
        LastJoinStays(joins, j, key, v.members[key]);
      }
    }
  }

  lemma JoinGrants(v: Tables, joins: seq<Join>, j: Join, hash: nat)
    requires Granted(v, joins) && j.invite in v.invites && TrimSpace(j.group) == j.group
    ensures Granted(Joined(v, j, hash), joins + [j])
  {
    JoinGrantsTokens(v, joins, j, hash);
    JoinGrantsMembers(v, joins, j, hash);
  }

  // ---- What an invite says

  /** The stored invite is the one that was asked for, with its defaults, whatever has been used of it. */
  predicate Describes(row: Invite, i: Invite) {
    && row.group == TrimSpace(i.group)
    && row.allowed == (if TrimSpace(i.allowed) == "" then "" else ActorKind(i.allowed))
    && row.role == (if i.role == "" then "member" else i.role)
    && row.maxUses == (if i.maxUses <= 0 then 1 else i.maxUses)
    && row.expires == i.expires
    && row.status == (if i.status == "" then "active" else i.status)
  }

  predicate Asked(steps: seq<Step>, id: int, row: Invite) {
    exists k :: 0 <= k < |steps| && steps[k].CreateInvite? && steps[k].id == id && Describes(row, steps[k].invite)
  }

  ghost predicate AllAsked(v: Tables, steps: seq<Step>) {
    forall id :: id in v.invites ==> Asked(steps, id, v.invites[id])
  }

  lemma NormalizedDescribes(i: Invite)
    ensures Describes(NormalizeInvite(i), i)
  {
    TrimTwice(i.allowed);
    KindIs(TrimSpace(i.allowed));
  }

  lemma AskedStays(steps: seq<Step>, step: Step, id: int, row: Invite)
    ensures Asked(steps, id, row) ==> Asked(steps + [step], id, row)
    ensures step.CreateInvite? && step.id == id && Describes(row, step.invite) ==> Asked(steps + [step], id, row)
  {
    var more := steps + [step];
    if Asked(steps, id, row) {
      var k :| 0 <= k < |steps| && steps[k].CreateInvite? && steps[k].id == id && Describes(row, steps[k].invite);
      assert more[k] == steps[k];
    }
    assert more[|steps|] == step;
  }

  lemma StepAsked(s: State, steps: seq<Step>, step: Step)
    requires Locked(s) && AllAsked(View(s), steps)
    ensures AllAsked(View(Next(s, step)), steps + [step])
  {
    EveryStepIsAtomic(s, step);
    var v, t := View(s), View(Next(s, step));
    if step.CreateInvite? && CanCreate(s, step.id, step.invite) {
      CreateIsVisible(s, step.id, step.invite);
    }
    forall id | id in t.invites ensures Asked(steps + [step], id, t.invites[id]) {
      AskedStays(steps, step, id, t.invites[id]);
      if id in v.invites {
        assert t.invites[id] == v.invites[id] || t.invites[id] == Used(v.invites[id]);
        UseStillDescribes(steps, id, v.invites[id]);
      }
      if step.CreateInvite? {
        NormalizedDescribes(step.invite);
      }
    }
  }

  lemma UseStillDescribes(steps: seq<Step>, id: int, row: Invite)
    ensures Asked(steps, id, row) ==> Asked(steps, id, Used(row))
  {
    if Asked(steps, id, row) {
      var k :| 0 <= k < |steps| && steps[k].CreateInvite? && steps[k].id == id && Describes(row, steps[k].invite);
      assert Describes(Used(row), steps[k].invite);
    }
  }

  // ---- Main results

  lemma AskedIsTrimmed(v: Tables, steps: seq<Step>, id: int)
    requires AllAsked(v, steps) && id in v.invites
    ensures TrimSpace(v.invites[id].group) == v.invites[id].group
  {
    var k :| 0 <= k < |steps| && steps[k].CreateInvite? && steps[k].id == id
             && Describes(v.invites[id], steps[k].invite);
    TrimTwice(steps[k].invite.group);
  }

  lemma StepGrants(s: State, steps: seq<Step>, step: Step)
    requires Locked(s) && AllAsked(View(s), steps) && Granted(View(s), s.joins)
    ensures Granted(View(Next(s, step)), Next(s, step).joins)
  {
    EveryStepIsAtomic(s, step);
    if step.Commit? && CanCommit(s, step.tx) {
      CommitIsOneJoin(s, step.tx);
      var t := s.active[step.tx];
      AskedIsTrimmed(View(s), steps, t.join.invite);
      JoinGrants(View(s), s.joins, t.join, t.stage.hash);
    }
  }

  lemma RunPush(s: State, steps: seq<Step>, step: Step)
    ensures Run(s, steps + [step]) == Next(Run(s, steps), step)
    decreases |steps|
  {
    if steps == [] {
      assert steps + [step] == [step] && [step][1..] == [];
    } else {
      var whole := steps + [step];
      assert whole[0] == steps[0] && whole[1..] == steps[1..] + [step];
      RunPush(Next(s, steps[0]), steps[1..], step);
    }
  }

  lemma {:induction false} RunGrants(steps: seq<Step>)
    ensures var s := Run(EMPTY, steps);
            Locked(s) && AllAsked(View(s), steps) && Granted(View(s), s.joins)
  {
    if steps != [] {
      var before, step := steps[..|steps| - 1], steps[|steps| - 1];
      RunGrants(before);
      RunPush(EMPTY, before, step);
      assert steps == before + [step];
      var s := Run(EMPTY, before);
      StepAsked(s, before, step);
      StepGrants(s, before, step);
      EveryStepIsAtomic(s, step);
    }
  }

  /** Tokens and members, in every interleaving: each visible token is for the actor of a committed join
      through its invite, in the group of that join; that actor is a member of that group; and the visible
      members are those of the committed joins, with the role and the capabilities of their last one. */
  lemma TokensAndMembers(steps: seq<Step>)
    ensures var s := Run(EMPTY, steps);
            var v := View(s);
            && Granted(v, s.joins)
            && forall hash :: hash in v.tokens ==>
                 MemberKey(v.tokens[hash].group, v.tokens[hash].actorType, v.tokens[hash].actorId) in v.members
  {
    RunGrants(steps);
    var s := Run(EMPTY, steps);
    var v := View(s);
    forall hash | hash in v.tokens
      ensures MemberKey(v.tokens[hash].group, v.tokens[hash].actorType, v.tokens[hash].actorId) in v.members
    {
      var token := v.tokens[hash];
      var i :| 0 <= i < |s.joins| && TokenFor(token, s.joins[i]);
      assert Joins(s.joins[i], MemberKey(token.group, token.actorType, token.actorId));
    }
  }

  /** In every interleaving each visible invite is one that was asked for, with its group trimmed and its
      defaults filled in, and every committed join was admitted by such an invite: active, with the group and
      the role of the join, for everybody or for the kind of its actor. */
  lemma InvitesAdmit(steps: seq<Step>)
    ensures var s := Run(EMPTY, steps);
            var v := View(s);
            && AllAsked(v, steps)
            && forall i :: 0 <= i < |s.joins| ==>
                 var j := s.joins[i];
                 && j.invite in v.invites
                 && var row := v.invites[j.invite];
                    && row.status == "active" && row.group == j.group && row.role == j.role
                    && (row.allowed == "" || row.allowed == ActorKind(j.actorType))
  {
    RunGrants(steps);
    InviteConservation(steps);
    var s := Run(EMPTY, steps);
    forall i | 0 <= i < |s.joins| ensures NormalizeActorType(s.joins[i].actorType) == ActorKind(s.joins[i].actorType) {
      KindIs(s.joins[i].actorType);
    }
  }

  /** An invite that has expired, is not active or is used up is not consumed, whenever it was checked: the
      transaction ends and nothing has changed. */
  lemma StaleIsNotConsumed(s: State, tx: nat, now: int)
    requires CanConsume(s, tx) && s.active[tx].join.invite in s.invites.rows
    requires var row := s.invites.rows[s.active[tx].join.invite];
             || row.status != "active" || (row.expires.Some? && row.expires.value <= now)
             || (row.maxUses > 0 && row.used >= row.maxUses)
    ensures Next(s, Consume(tx, now)) == s.(active := s.active - {tx})
  {
  }

  /** Any other one is: the row counts one more use, and nobody else sees it before the commit. */
  lemma UsableIsConsumed(s: State, tx: nat, now: int)
    requires Locked(s) && CanConsume(s, tx)
    requires var row := s.invites.rows[s.active[tx].join.invite];
             && row.status == "active" && (row.expires.Some? ==> row.expires.value > now)
             && (row.maxUses > 0 ==> row.used < row.maxUses)
    ensures var t := Next(s, Consume(tx, now));
            var id := s.active[tx].join.invite;
            && tx in t.active && t.active[tx].stage == Consumed
            && t.invites.rows[id] == s.invites.rows[id].(used := s.invites.rows[id].used + 1)
            && View(t) == View(s)
  {
    ConsumeIsInvisible(s, tx, now);
  }
}
