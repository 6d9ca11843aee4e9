/** Joins that run as concurrent transactions over the invite, member and token tables. */
module InviteTransactions {
  import opened Json
  import opened LockedTables
  import opened Invites

  /** The last statement of the transaction that has run. */
  datatype Stage = Checked | Consumed | Upserted | Minted(hash: nat)

  datatype Tx = Tx(join: Join, key: MemberKey, stage: Stage)

  datatype State = State(invites: Table<int, Invite>, members: Table<MemberKey, Member>, tokens: Table<nat, Token>,
                         active: map<nat, Tx>, joins: seq<Join>)

  datatype Step =
    | CreateInvite(id: int, invite: Invite)
    | Check(tx: nat, join: Join, now: int)
    | Consume(tx: nat, now: int)
    | Upsert(tx: nat)
    | Mint(tx: nat, hash: nat)
    | Commit(tx: nat)
    | Rollback(tx: nat)

  const EMPTY := State(Table(map[], map[]), Table(map[], map[]), Table(map[], map[]), map[], [])

  function View(s: State): Tables {
    Tables(Visible(s.invites), Visible(s.members), Visible(s.tokens))
  }

  // ---- Steps

  /** The handler's check: a committed row that is usable, and the group and role that it names. */
  predicate Admitted(s: State, j: Join, now: int) {
    var i := See(s.invites, j.invite);
    InviteUsable(i, j.actorType, now) && j.group == i.value.group && j.role == i.value.role
  }

  predicate CanCreate(s: State, id: int, invite: Invite) {
    id !in s.invites.rows && id !in s.invites.locks && invite.used == 0
  }

  function Created(s: State, id: int, invite: Invite): State {
    s.(invites := Insert(s.invites, id, NormalizeInvite(invite)))
  }

  predicate CanConsume(s: State, tx: nat) {
    tx in s.active && s.active[tx].stage.Checked? && s.active[tx].join.invite !in s.invites.locks
  }

  /** The conditional update: when no row matches, the transaction ends. */
  function AfterConsume(s: State, tx: nat, now: int): State
    requires CanConsume(s, tx)
  {
    var t := s.active[tx];
    var id := t.join.invite;
    if id !in s.invites.rows || !Guard(s.invites.rows[id], now) then s.(active := s.active - {tx})
    else s.(invites := Write(s.invites, id, Used(s.invites.rows[id]), tx),
            active := s.active[tx := t.(stage := Consumed)])
  }

  predicate CanUpsert(s: State, tx: nat) {
    tx in s.active && s.active[tx].stage.Consumed? && s.active[tx].key !in s.members.locks
  }

  function AfterUpsert(s: State, tx: nat): State
    requires CanUpsert(s, tx)
  {
    var t := s.active[tx];
    s.(members := Write(s.members, t.key, MemberOf(t.join), tx), active := s.active[tx := t.(stage := Upserted)])
  }

  /** A fresh token hash. */
  predicate CanMint(s: State, tx: nat, hash: nat) {
    tx in s.active && s.active[tx].stage.Upserted? && hash !in s.tokens.rows && hash !in s.tokens.locks
  }

  function AfterMint(s: State, tx: nat, hash: nat): State
    requires CanMint(s, tx, hash)
  {
    var t := s.active[tx];
    s.(tokens := Write(s.tokens, hash, TokenOf(t.join), tx), active := s.active[tx := t.(stage := Minted(hash))])
  }

  predicate CanCommit(s: State, tx: nat) {
    tx in s.active && s.active[tx].stage.Minted?
  }

  function AfterCommit(s: State, tx: nat): State
    requires CanCommit(s, tx)
  {
    var t := s.active[tx];
    State(Keep(s.invites, t.join.invite), Keep(s.members, t.key), Keep(s.tokens, t.stage.hash),
          s.active - {tx}, s.joins + [t.join])
  }

  /** Every row that the transaction wrote, and so holds a lock on, is put back. */
  function AfterRollback(s: State, tx: nat): State
    requires tx in s.active
  {
    var t := s.active[tx];
    s.(invites := if t.stage.Checked? || t.join.invite !in s.invites.locks then s.invites
                  else Restore(s.invites, t.join.invite),
       members := if t.stage.Checked? || t.stage.Consumed? || t.key !in s.members.locks then s.members
                  else Restore(s.members, t.key),
       tokens := if !t.stage.Minted? || t.stage.hash !in s.tokens.locks then s.tokens
                 else Restore(s.tokens, t.stage.hash),
       active := s.active - {tx})
  }

  /** A step that cannot run, because of the position of its transaction or a lock, changes nothing. */
  function Next(s: State, step: Step): State {
    match step
    case CreateInvite(id, invite) => if CanCreate(s, id, invite) then Created(s, id, invite) else s
    case Check(tx, j, now) =>
      if tx in s.active || !Admitted(s, j, now) then s else s.(active := s.active[tx := Tx(j, KeyOf(j), Checked)])
    case Consume(tx, now) => if CanConsume(s, tx) then AfterConsume(s, tx, now) else s
    case Upsert(tx) => if CanUpsert(s, tx) then AfterUpsert(s, tx) else s
    case Mint(tx, hash) => if CanMint(s, tx, hash) then AfterMint(s, tx, hash) else s
    case Commit(tx) => if CanCommit(s, tx) then AfterCommit(s, tx) else s
    case Rollback(tx) => if tx in s.active then AfterRollback(s, tx) else s
  }

  function Run(s: State, steps: seq<Step>): State
    decreases |steps|
  {
    if steps == [] then s else Run(Next(s, steps[0]), steps[1..])
  }

  // ---- Rows and their locks

  /** The invite is active, names group and role of the join, and allows its actor type. */
  predicate Fits(i: Invite, j: Join) {
    i.status == ACTIVE && i.group == j.group && i.role == j.role && TypeAllowed(i, j.actorType)
  }

  predicate BelowLimit(i: Invite) {
    i.maxUses <= 0 || i.used < i.maxUses
  }

  predicate InviteRows(t: Table<int, Invite>) {
    forall id :: id in t.locks ==>
      id in t.rows && t.locks[id].before.Some? && t.rows[id] == Used(t.locks[id].before.value)
        && BelowLimit(t.locks[id].before.value)
  }

  predicate TxOk(s: State, tx: nat, t: Tx) {
    && t.join.invite in s.invites.rows && Fits(s.invites.rows[t.join.invite], t.join)
    && (!t.stage.Checked? ==> Holds(s.invites, t.join.invite, tx))
    && (t.stage.Upserted? || t.stage.Minted? ==>
          Holds(s.members, t.key, tx) && s.members.rows[t.key] == MemberOf(t.join))
    && (t.stage.Minted? ==> Holds(s.tokens, t.stage.hash, tx) && s.tokens.rows[t.stage.hash] == TokenOf(t.join))
  }

  predicate InvitesOwned(s: State) {
    forall id :: id in s.invites.locks ==>
      s.invites.locks[id].owner in s.active &&
      var t := s.active[s.invites.locks[id].owner]; t.join.invite == id && !t.stage.Checked?
  }

  predicate MembersOwned(s: State) {
    forall key :: key in s.members.locks ==>
      s.members.locks[key].owner in s.active &&
      var t := s.active[s.members.locks[key].owner]; t.key == key && (t.stage.Upserted? || t.stage.Minted?)
  }

  predicate TokensOwned(s: State) {
    forall hash :: hash in s.tokens.locks ==>
      s.tokens.locks[hash].owner in s.active && s.active[s.tokens.locks[hash].owner].stage == Minted(hash)
  }

  /** A lock belongs to an open transaction that wrote the row. */
  predicate Owned(s: State) {
    InvitesOwned(s) && MembersOwned(s) && TokensOwned(s)
  }

  predicate Locked(s: State) {
    && InviteRows(s.invites)
    && (forall hash :: hash in s.tokens.locks ==> s.tokens.locks[hash].before.None?)
    && (forall tx :: tx in s.active ==> TxOk(s, tx, s.active[tx]))
    && (forall tx :: tx in s.active ==> s.active[tx].key == KeyOf(s.active[tx].join))
  }

  lemma RollbackKeepsOwned(s: State, tx: nat)
    requires Locked(s) && Owned(s) && tx in s.active
    ensures Owned(AfterRollback(s, tx))
  {
  }

  lemma CommitFreesInvites(s: State, tx: nat)
    requires InvitesOwned(s) && CanCommit(s, tx)
    ensures InvitesOwned(AfterCommit(s, tx))
  {
  }

  lemma CommitFreesMembers(s: State, tx: nat)
    requires MembersOwned(s) && CanCommit(s, tx)
    ensures MembersOwned(AfterCommit(s, tx))
  {
  }

  lemma CommitFreesTokens(s: State, tx: nat)
    requires TokensOwned(s) && CanCommit(s, tx)
    ensures TokensOwned(AfterCommit(s, tx))
  {
  }

  lemma CommitKeepsOwned(s: State, tx: nat)
    requires Owned(s) && CanCommit(s, tx)
    ensures Owned(AfterCommit(s, tx))
  {
    CommitFreesInvites(s, tx);
    CommitFreesMembers(s, tx);
    CommitFreesTokens(s, tx);
  }

  lemma ConsumeKeepsOwned(s: State, tx: nat, now: int)
    requires Owned(s) && CanConsume(s, tx)
    ensures Owned(AfterConsume(s, tx, now))
  {
  }

  lemma UpsertKeepsOwned(s: State, tx: nat)
    requires Owned(s) && CanUpsert(s, tx)
    ensures Owned(AfterUpsert(s, tx))
  {
  }

  lemma MintKeepsOwned(s: State, tx: nat, hash: nat)
    requires Owned(s) && CanMint(s, tx, hash)
    ensures Owned(AfterMint(s, tx, hash))
  {
  }

  lemma StepKeepsOwned(s: State, step: Step)
    requires Locked(s) && Owned(s)
    ensures Owned(Next(s, step))
  {
    match step
    case CreateInvite(_, _) =>
    case Check(_, _, _) =>
    case Consume(tx, now) => if CanConsume(s, tx) { ConsumeKeepsOwned(s, tx, now); }
    case Upsert(tx) => if CanUpsert(s, tx) { UpsertKeepsOwned(s, tx); }
    case Mint(tx, hash) => if CanMint(s, tx, hash) { MintKeepsOwned(s, tx, hash); }
    case Commit(tx) => if CanCommit(s, tx) { CommitKeepsOwned(s, tx); }
    case Rollback(tx) => if tx in s.active { RollbackKeepsOwned(s, tx); }
  }

  // ---- Only a commit is visible

  lemma CreateIsVisible(s: State, id: int, invite: Invite)
    requires Locked(s) && CanCreate(s, id, invite)
    ensures Locked(Created(s, id, invite)) && id !in View(s).invites
    ensures View(Created(s, id, invite)) == View(s).(invites := View(s).invites[id := NormalizeInvite(invite)])
  {
    var t := Created(s, id, invite);
    InsertShows(s.invites, id, NormalizeInvite(invite));
    forall x | x in t.active ensures TxOk(t, x, t.active[x]) {
      assert TxOk(s, x, s.active[x]);
    }
  }

  lemma CheckIsInvisible(s: State, tx: nat, j: Join, now: int)
    requires Locked(s) && tx !in s.active && Admitted(s, j, now)
    ensures var t := Next(s, Check(tx, j, now)); Locked(t) && View(t) == View(s)
  {
  }

  lemma ConsumeIsInvisible(s: State, tx: nat, now: int)
    requires Locked(s) && CanConsume(s, tx)
    ensures Locked(AfterConsume(s, tx, now)) && View(AfterConsume(s, tx, now)) == View(s)
  {
    var t := AfterConsume(s, tx, now);
    var id := s.active[tx].join.invite;
    assert TxOk(s, tx, s.active[tx]);
    WriteIsHidden(s.invites, id, Used(s.invites.rows[id]), tx);
    forall x | x in t.active ensures TxOk(t, x, t.active[x]) {
      assert TxOk(s, x, s.active[x]);
    }
  }

  lemma UpsertIsInvisible(s: State, tx: nat)
    requires Locked(s) && CanUpsert(s, tx)
    ensures Locked(AfterUpsert(s, tx)) && View(AfterUpsert(s, tx)) == View(s)
  {
    var t := AfterUpsert(s, tx);
    WriteIsHidden(s.members, s.active[tx].key, MemberOf(s.active[tx].join), tx);
    forall x | x in t.active ensures TxOk(t, x, t.active[x]) {
      assert TxOk(s, x, s.active[x]);
    }
  }

  lemma MintIsInvisible(s: State, tx: nat, hash: nat)
    requires Locked(s) && CanMint(s, tx, hash)
    ensures Locked(AfterMint(s, tx, hash)) && View(AfterMint(s, tx, hash)) == View(s)
  {
    var t := AfterMint(s, tx, hash);
    WriteIsHidden(s.tokens, hash, TokenOf(s.active[tx].join), tx);
    forall x | x in t.active ensures TxOk(t, x, t.active[x]) {
      assert TxOk(s, x, s.active[x]);
    }
  }

  lemma RollbackKeepsOthers(s: State, tx: nat, x: nat)
    requires Locked(s) && tx in s.active && x in s.active && x != tx
    ensures TxOk(AfterRollback(s, tx), x, s.active[x])
  {
  }

  lemma RollbackIsInvisible(s: State, tx: nat)
    requires Locked(s) && tx in s.active
    ensures Locked(AfterRollback(s, tx)) && View(AfterRollback(s, tx)) == View(s)
  {
    var x := s.active[tx];
    var t := AfterRollback(s, tx);
    assert TxOk(s, tx, x);
    if !x.stage.Checked? {
      RestoreIsHidden(s.invites, x.join.invite);
    }
    if x.stage.Upserted? || x.stage.Minted? {
      RestoreIsHidden(s.members, x.key);
    }
    if x.stage.Minted? {
      RestoreIsHidden(s.tokens, x.stage.hash);
    }
    forall y | y in t.active ensures TxOk(t, y, t.active[y]) {
      RollbackKeepsOthers(s, tx, y);
    }
  }

  lemma CommitKeepsOthers(s: State, tx: nat, x: nat)
    requires Locked(s) && CanCommit(s, tx) && x in s.active && x != tx
    ensures TxOk(AfterCommit(s, tx), x, s.active[x])
  {
  }

  /** Committing shows the whole join at once, exactly what the sequential method leaves, on a row that
      still passes the limit of the invite and was allowed for this actor type. */
  lemma CommitIsOneJoin(s: State, tx: nat)
    requires Locked(s) && CanCommit(s, tx)
    ensures Locked(AfterCommit(s, tx))
    ensures var t := s.active[tx];
            var v := View(s);
            && t.stage.hash !in v.tokens
            && t.join.invite in v.invites && Fits(v.invites[t.join.invite], t.join)
               && BelowLimit(v.invites[t.join.invite])
            && View(AfterCommit(s, tx)) == Joined(v, t.join, t.stage.hash)
  {
    var x := s.active[tx];
    var t := AfterCommit(s, tx);
    assert TxOk(s, tx, x);
    KeepShows(s.invites, x.join.invite);
    KeepShows(s.members, x.key);
    KeepShows(s.tokens, x.stage.hash);
    forall y | y in t.active ensures TxOk(t, y, t.active[y]) {
      CommitKeepsOthers(s, tx, y);
    }
  }

  // ---- Main results

  /** Each step shows nothing, one new invite, or one whole join: an open, refused or rolled back join
      leaves the members, tokens and counts that others see unchanged. */
  lemma EveryStepIsAtomic(s: State, step: Step)
    requires Locked(s)
    ensures Locked(Next(s, step))
    ensures var v := View(s);
            match step
            case CreateInvite(id, invite) =>
              View(Next(s, step)) ==
              if CanCreate(s, id, invite) then v.(invites := v.invites[id := NormalizeInvite(invite)]) else v
            case Commit(tx) =>
              View(Next(s, step)) ==
              if CanCommit(s, tx) && s.active[tx].join.invite in v.invites
              then Joined(v, s.active[tx].join, s.active[tx].stage.hash) else v
            case _ => View(Next(s, step)) == v
  {
    match step
    case CreateInvite(id, invite) => if CanCreate(s, id, invite) { CreateIsVisible(s, id, invite); }
    case Check(tx, j, now) => if tx !in s.active && Admitted(s, j, now) { CheckIsInvisible(s, tx, j, now); }
    case Consume(tx, now) => if CanConsume(s, tx) { ConsumeIsInvisible(s, tx, now); }
    case Upsert(tx) => if CanUpsert(s, tx) { UpsertIsInvisible(s, tx); }
    case Mint(tx, hash) => if CanMint(s, tx, hash) { MintIsInvisible(s, tx, hash); }
    case Commit(tx) => if CanCommit(s, tx) { CommitIsOneJoin(s, tx); }
    case Rollback(tx) => if tx in s.active { RollbackIsInvisible(s, tx); }
  }

  function Through(joins: seq<Join>, id: int): nat {
    if joins == [] then 0 else Through(joins[..|joins| - 1], id) + if joins[|joins| - 1].invite == id then 1 else 0
  }

  function MintedThrough(tokens: map<nat, Token>, id: int): set<nat> {
    set hash | hash in tokens && tokens[hash].via == id
  }

  ghost predicate AllMinted(tokens: map<nat, Token>, joins: seq<Join>) {
    forall id :: |MintedThrough(tokens, id)| == Through(joins, id)
  }

  /** Every stored invite has a limit, because normalisation gives one. */
  predicate Limited(i: Invite) {
    i.maxUses > 0 && i.used <= i.maxUses
  }

  /** Committed joins, tokens and `used_count` agree for every invite, within its limit, and every join
      was into the group of its invite by an actor type that it allows. */
  ghost predicate Conserved(v: Tables, joins: seq<Join>) {
    && (forall id :: id in v.invites ==> v.invites[id].used == Through(joins, id) && Limited(v.invites[id]))
    && AllMinted(v.tokens, joins)
    && (forall i :: 0 <= i < |joins| ==> joins[i].invite in v.invites && Fits(v.invites[joins[i].invite], joins[i]))
  }

  lemma TokenCounts(tokens: map<nat, Token>, hash: nat, token: Token, id: int)
    requires hash !in tokens
    ensures |MintedThrough(tokens[hash := token], id)| == |MintedThrough(tokens, id)| + if token.via == id then 1 else 0
  {
    var after := MintedThrough(tokens[hash := token], id);
    assert after == if token.via == id then MintedThrough(tokens, id) + {hash} else MintedThrough(tokens, id);
  }

  lemma OneMoreThrough(joins: seq<Join>, j: Join, id: int)
    ensures Through(joins + [j], id) == Through(joins, id) + if j.invite == id then 1 else 0
  {
    assert (joins + [j])[..|joins|] == joins;
  }

  lemma JoinMints(tokens: map<nat, Token>, joins: seq<Join>, j: Join, hash: nat)
    requires AllMinted(tokens, joins) && hash !in tokens
    ensures AllMinted(tokens[hash := TokenOf(j)], joins + [j])
  {
    forall id ensures |MintedThrough(tokens[hash := TokenOf(j)], id)| == Through(joins + [j], id) {
      TokenCounts(tokens, hash, TokenOf(j), id);
      OneMoreThrough(joins, j, id);
    }
  }

  lemma JoinConserves(v: Tables, joins: seq<Join>, j: Join, hash: nat)
    requires Conserved(v, joins) && hash !in v.tokens
    requires j.invite in v.invites && Fits(v.invites[j.invite], j) && BelowLimit(v.invites[j.invite])
    ensures Conserved(Joined(v, j, hash), joins + [j])
  {
    JoinMints(v.tokens, joins, j, hash);
    var after := Joined(v, j, hash);
    forall id | id in after.invites
      ensures after.invites[id].used == Through(joins + [j], id) && Limited(after.invites[id])
    {
      OneMoreThrough(joins, j, id);
    }
  }

  lemma {:induction false} UnknownIsUnused(joins: seq<Join>, id: int)
    requires forall i :: 0 <= i < |joins| ==> joins[i].invite != id
    ensures Through(joins, id) == 0
  {
    if joins != [] {
      UnknownIsUnused(joins[..|joins| - 1], id);
    }
  }

  lemma CreateConserves(v: Tables, joins: seq<Join>, id: int, invite: Invite)
    requires Conserved(v, joins) && id !in v.invites && invite.used == 0 && invite.maxUses > 0
    ensures Conserved(v.(invites := v.invites[id := invite]), joins)
  {
    UnknownIsUnused(joins, id);
  }

  lemma StepConserves(s: State, step: Step)
    requires Locked(s) && Conserved(View(s), s.joins)
    ensures Locked(Next(s, step)) && Conserved(View(Next(s, step)), Next(s, step).joins)
  {
    EveryStepIsAtomic(s, step);
    if step.CreateInvite? && CanCreate(s, step.id, step.invite) {
      CreateIsVisible(s, step.id, step.invite);
      CreateConserves(View(s), s.joins, step.id, NormalizeInvite(step.invite));
    } else if step.Commit? && CanCommit(s, step.tx) {
      CommitIsOneJoin(s, step.tx);
      JoinConserves(View(s), s.joins, s.active[step.tx].join, s.active[step.tx].stage.hash);
    }
  }

  ghost predicate Inv(s: State) {
    Locked(s) && Owned(s) && Conserved(View(s), s.joins)
  }

  lemma {:induction false} RunKeepsInv(s: State, steps: seq<Step>)
    requires Inv(s)
    ensures Inv(Run(s, steps))
    decreases |steps|
  {
    if steps != [] {
      StepConserves(s, steps[0]);
      StepKeepsOwned(s, steps[0]);
      RunKeepsInv(Next(s, steps[0]), steps[1..]);
    }
  }

  lemma NothingOpen(s: State)
    requires Owned(s) && s.active.Keys == {}
    ensures View(s) == Tables(s.invites.rows, s.members.rows, s.tokens.rows)
  {
    assert forall id :: id in s.invites.locks ==> s.invites.locks[id].owner in s.active.Keys;
    assert s.invites.locks.Keys == {};
    assert s.members.locks.Keys == {};
    assert s.tokens.locks.Keys == {};
    UnlockedIsVisible(s.invites);
    UnlockedIsVisible(s.members);
    UnlockedIsVisible(s.tokens);
  }

  /** Invite conservation, for every interleaving of joins with commits and rollbacks; with no join open
      it holds of the tables themselves. */
  lemma InviteConservation(steps: seq<Step>)
    ensures var s := Run(EMPTY, steps);
            && Conserved(View(s), s.joins)
            && (s.active.Keys == {} ==> View(s) == Tables(s.invites.rows, s.members.rows, s.tokens.rows))
  {
    RunKeepsInv(EMPTY, steps);
    var s := Run(EMPTY, steps);
    if s.active.Keys == {} {
      NothingOpen(s);
    }
  }

  // ---- A join on its own

  function JoinSteps(tx: nat, j: Join, now: int, hash: nat): seq<Step> {
    [Check(tx, j, now)] + ([Consume(tx, now)] + ([Upsert(tx)] + ([Mint(tx, hash)] + ([Commit(tx)] + []))))
  }

  lemma RunFirst(s: State, step: Step, rest: seq<Step>)
    ensures Run(s, [step] + rest) == Run(Next(s, step), rest)
  {
    assert ([step] + rest)[1..] == rest;
  }

  /** The transaction has come to a stage, and nobody else sees anything of it. */
  predicate Reached(v: Tables, joins: seq<Join>, j: Join, tx: nat, stage: Stage, t: State) {
    && Locked(t) && View(t) == v && t.joins == joins
    && t.active == map[tx := Tx(j, KeyOf(j), stage)]
  }

  lemma ChecksIn(s: State, tx: nat, j: Join, now: int)
    requires Locked(s) && s.active == map[] && Admitted(s, j, now)
    ensures var t := Next(s, Check(tx, j, now));
            && Reached(View(s), s.joins, j, tx, Checked, t)
            && t.invites == s.invites && t.members == s.members && t.tokens == s.tokens
  {
    CheckIsInvisible(s, tx, j, now);
  }

  /** After the handler's check, the update finds a row that its guard accepts. */
  lemma Consumes(v: Tables, joins: seq<Join>, j: Join, tx: nat, now: int, s: State)
    requires Reached(v, joins, j, tx, Checked, s) && s.invites.locks == map[]
    requires j.invite in s.invites.rows && InviteUsable(Some(s.invites.rows[j.invite]), j.actorType, now)
    ensures var t := Next(s, Consume(tx, now));
            Reached(v, joins, j, tx, Consumed, t) && t.members == s.members && t.tokens == s.tokens
  {
    GuardIsUsable(s.invites.rows[j.invite], j.actorType, now);
    ConsumeIsInvisible(s, tx, now);
  }

  lemma UpsertRuns(s: State, tx: nat, x: Tx)
    requires s.active == map[tx := x] && x.stage.Consumed? && s.members.locks == map[]
    ensures CanUpsert(s, tx)
    ensures var t := AfterUpsert(s, tx);
            t.joins == s.joins && t.tokens == s.tokens && t.active == map[tx := x.(stage := Upserted)]
  {
  }

  lemma MintRuns(s: State, tx: nat, x: Tx, hash: nat)
    requires s.active == map[tx := x] && x.stage.Upserted? && s.tokens.locks == map[] && hash !in s.tokens.rows
    ensures CanMint(s, tx, hash)
    ensures var t := AfterMint(s, tx, hash); t.joins == s.joins && t.active == map[tx := x.(stage := Minted(hash))]
  {
  }

  lemma Upserts(v: Tables, joins: seq<Join>, j: Join, tx: nat, s: State)
    requires Reached(v, joins, j, tx, Consumed, s) && s.members.locks == map[]
    ensures var t := Next(s, Upsert(tx)); Reached(v, joins, j, tx, Upserted, t) && t.tokens == s.tokens
  {
    UpsertRuns(s, tx, Tx(j, KeyOf(j), Consumed));
    UpsertIsInvisible(s, tx);
  }

  lemma Mints(v: Tables, joins: seq<Join>, j: Join, tx: nat, hash: nat, s: State)
    requires Reached(v, joins, j, tx, Upserted, s) && s.tokens.locks == map[] && hash !in s.tokens.rows
    ensures Reached(v, joins, j, tx, Minted(hash), Next(s, Mint(tx, hash)))
  {
    MintRuns(s, tx, Tx(j, KeyOf(j), Upserted), hash);
    MintIsInvisible(s, tx, hash);
  }

  lemma Commits(v: Tables, joins: seq<Join>, j: Join, tx: nat, hash: nat, s: State)
    requires Reached(v, joins, j, tx, Minted(hash), s)
    ensures var t := Next(s, Commit(tx));
            && j.invite in v.invites && View(t) == Joined(v, j, hash)
            && t.joins == joins + [j] && t.active == map[]
  {
    CommitIsOneJoin(s, tx);
  }

  lemma RefusedDoesNothing(s: State, tx: nat, j: Join, now: int, hash: nat)
    requires s.active == map[] && !Admitted(s, j, now)
    ensures Run(s, JoinSteps(tx, j, now, hash)) == s
  {
    RunFirst(s, Check(tx, j, now), [Consume(tx, now)] + ([Upsert(tx)] + ([Mint(tx, hash)] + ([Commit(tx)] + []))));
    RunFirst(s, Consume(tx, now), [Upsert(tx)] + ([Mint(tx, hash)] + ([Commit(tx)] + [])));
    RunFirst(s, Upsert(tx), [Mint(tx, hash)] + ([Commit(tx)] + []));
    RunFirst(s, Mint(tx, hash), [Commit(tx)] + []);
    RunFirst(s, Commit(tx), []);
  }

  lemma AdmittedJoins(s: State, tx: nat, j: Join, now: int, hash: nat)
    requires Locked(s) && s.active == map[] && Admitted(s, j, now)
    requires s.invites.locks == map[] && s.members.locks == map[] && s.tokens.locks == map[] && hash !in s.tokens.rows
    ensures var t := Run(s, JoinSteps(tx, j, now, hash));
            && j.invite in View(s).invites && View(t) == Joined(View(s), j, hash)
            && t.joins == s.joins + [j] && t.active == map[]
  {
    var v, joins := View(s), s.joins;
    ChecksIn(s, tx, j, now);
    var s1 := Next(s, Check(tx, j, now));
    RunFirst(s, Check(tx, j, now), [Consume(tx, now)] + ([Upsert(tx)] + ([Mint(tx, hash)] + ([Commit(tx)] + []))));
    Consumes(v, joins, j, tx, now, s1);
    var s2 := Next(s1, Consume(tx, now));
    RunFirst(s1, Consume(tx, now), [Upsert(tx)] + ([Mint(tx, hash)] + ([Commit(tx)] + [])));
    Upserts(v, joins, j, tx, s2);
    var s3 := Next(s2, Upsert(tx));
    RunFirst(s2, Upsert(tx), [Mint(tx, hash)] + ([Commit(tx)] + []));
    Mints(v, joins, j, tx, hash, s3);
    var s4 := Next(s3, Mint(tx, hash));
    RunFirst(s3, Mint(tx, hash), [Commit(tx)] + []);
    Commits(v, joins, j, tx, hash, s4);
    RunFirst(s4, Commit(tx), []);
  }

  lemma NoLocks(s: State)
    requires Owned(s) && s.active == map[]
    ensures s.invites.locks == map[] && s.members.locks == map[] && s.tokens.locks == map[]
  {
    assert forall id :: id in s.invites.locks ==> s.invites.locks[id].owner in s.active;
  }

  /** A join that runs while no other is open shows exactly what the sequential method leaves, or changes
      nothing when the handler refuses it; in between, the guard of the update cannot fail. */
  lemma UninterruptedJoinIsSequential(s: State, tx: nat, j: Join, now: int, hash: nat)
    requires Inv(s) && s.active == map[] && hash !in s.tokens.rows
    ensures var t := Run(s, JoinSteps(tx, j, now, hash));
            && (!Admitted(s, j, now) ==> t == s)
            && (Admitted(s, j, now) ==>
                  && j.invite in View(s).invites && View(t) == Joined(View(s), j, hash)
                  && t.joins == s.joins + [j] && t.active == map[])
  {
    NoLocks(s);
    if Admitted(s, j, now) {
      AdmittedJoins(s, tx, j, now, hash);
    } else {
      RefusedDoesNothing(s, tx, j, now, hash);
    }
  }
}
