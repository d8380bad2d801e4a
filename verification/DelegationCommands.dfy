/**
 When a command of delegated access has an effect, and which one, in terms of the
 stored rows and of the history of secrets; over every run, for every caller.
 */
module DelegationCommands {
  import opened Common
  import opened Delegation
  import opened DelegationTheorems
  import opened DelegationRuns

  // ------------------------------------------------------------- the secrets

  /** The state after a run of commands on a new job. */
  function After(secret: nat, actions: seq<Action>): World {
    Run(Initial(secret), actions)
  }

  /** The secret of a link by its history: the one it was issued with, or the last one that was rotated in. */
  function Given(secret: nat, actions: seq<Action>, l: LinkId): nat
    decreases |actions|
  {
    if actions == [] then secret
    else
      var n := |actions| - 1;
      var before, last := After(secret, actions[..n]), actions[n];
      if l >= |before.access.links| && (last.Invite? || last.Reissue?) then last.secret
      else if last.Rotate? && last.link == l && Step(before, last) != before then last.secret
      else Given(secret, actions[..n], l)
  }

  /** A new link has the secret of the command that issued it, and only a rotation changes a secret. */
  lemma StepSecrets(w: World, action: Action, l: LinkId)
    requires l < |Step(w, action).access.links|
    ensures Step(w, action).access.links[l].secret ==
            if l >= |w.access.links| && (action.Invite? || action.Reissue?) then action.secret
            else if action.Rotate? && action.link == l && Step(w, action) != w then action.secret
            else if l < |w.access.links| then w.access.links[l].secret
            else Step(w, action).access.links[l].secret
    ensures l >= |w.access.links| ==> action.Invite? || action.Reissue?
  {
    hide ActiveLink, Below, Subtree, InvitationBy, LinksOf;
  }

  lemma {:induction false} RunSplits(w: World, actions: seq<Action>)
    requires actions != []
    ensures var n := |actions| - 1; Run(w, actions) == Step(Run(w, actions[..n]), actions[n])
    decreases |actions|
  {
    hide Step;
    var n := |actions| - 1;
    if n == 0 {
      assert actions[1..] == [];
    } else {
      RunSplits(Step(w, actions[0]), actions[1..]);
      assert actions[1..][..n - 1] == actions[..n][1..];
    }
  }

  lemma {:induction false} SecretIsGiven(secret: nat, actions: seq<Action>, l: LinkId)
    requires l < |After(secret, actions).access.links|
    ensures After(secret, actions).access.links[l].secret == Given(secret, actions, l)
    decreases |actions|
  {
    if actions != [] {
      var n := |actions| - 1;
      var before := After(secret, actions[..n]);
      RunSplits(Initial(secret), actions);
      StepSecrets(before, actions[n], l);
      if l < |before.access.links| { SecretIsGiven(secret, actions[..n], l); }
      hide Step;
    }
  }

  lemma ReachableRows(secret: nat, actions: seq<Action>)
    ensures Rows(After(secret, actions).access)
  {
    hide Rows, Serial;
    InitialKeeps(secret);
    RunKeeps(Initial(secret), actions);
  }

  // ------------------------------------------------------------- the answers

  /** The invitee of a pending invitation answers in time, with the secret last given for the invitation's link. */
  predicate MayAnswer(secret: nat, actions: seq<Action>, i: InvitationId, actor: ParticipantId, shown: nat) {
    var w := After(secret, actions);
    && i < |w.access.invitations|
    && w.access.invitations[i].invitee == actor
    && w.access.invitations[i].status == Pending
    && w.now < w.access.invitations[i].expiresAt
    && shown == Given(secret, actions, w.access.invitations[i].link)
  }

  lemma AcceptEffect(w: World, i: InvitationId, actor: ParticipantId, shown: nat)
    requires Rows(w.access)
    ensures var a := w.access;
            Step(w, Accept(i, actor, shown)) ==
            if i < |a.invitations| && a.invitations[i].invitee == actor && a.invitations[i].status == Pending
               && w.now < a.invitations[i].expiresAt && a.links[a.invitations[i].link].secret == shown
            then World(w.now, a.(invitations := a.invitations[i := a.invitations[i].(status := Accepted, resolvedAt := Some(w.now))]))
            else w
  {
  }

  /** An acceptance has an effect exactly under these conditions; then the invitation is accepted and nothing else changes. */
  lemma AcceptTakesEffectIff(secret: nat, actions: seq<Action>, i: InvitationId, actor: ParticipantId, shown: nat)
    ensures var w := After(secret, actions);
            var w' := Step(w, Accept(i, actor, shown));
            && (w' != w <==> MayAnswer(secret, actions, i, actor, shown))
            && (w' != w ==>
                  w' == w.(access := w.access.(invitations :=
                             w.access.invitations[i := w.access.invitations[i].(status := Accepted, resolvedAt := Some(w.now))])))
  {
    var w := After(secret, actions);
    ReachableRows(secret, actions);
    AcceptEffect(w, i, actor, shown);
    if i < |w.access.invitations| {
      assert StatusOk(w.access, w.access.invitations[i]);
      SecretIsGiven(secret, actions, w.access.invitations[i].link);
      assert Step(w, Accept(i, actor, shown)) != w ==>
               Step(w, Accept(i, actor, shown)).access.invitations[i].status != w.access.invitations[i].status;
    }
    hide Step, Rows, Given;
  }

  lemma DeclineEffect(w: World, i: InvitationId, actor: ParticipantId, shown: nat)
    requires Rows(w.access)
    ensures var a := w.access;
            var w' := Step(w, Decline(i, actor, shown));
            if i < |a.invitations| && a.invitations[i].invitee == actor && a.invitations[i].status == Pending
               && w.now < a.invitations[i].expiresAt && a.links[a.invitations[i].link].secret == shown
            then
              && w'.now == w.now && w'.access.participants == a.participants
              && w'.access.invitations == a.invitations[i := a.invitations[i].(status := Declined, resolvedAt := Some(w.now))]
              && OnlyRevokes(a.links, w'.access.links, a.invitations[i].link, w.now)
            else w' == w
  {
  }

  /** Exactly this link is revoked, unless it was already. */
  predicate OnlyRevokes(links: seq<Link>, links': seq<Link>, l: LinkId, now: Time) {
    && |links'| == |links| && l < |links|
    && (forall k :: 0 <= k < |links| && k != l ==> links'[k] == links[k])
    && links'[l] == links[l].(revokedAt := if links[l].revokedAt.Some? then links[l].revokedAt else Some(now))
  }

  /** A refusal has an effect exactly under the same conditions; then the invitee's own link is revoked with it. */
  lemma DeclineTakesEffectIff(secret: nat, actions: seq<Action>, i: InvitationId, actor: ParticipantId, shown: nat)
    ensures var w := After(secret, actions);
            var w' := Step(w, Decline(i, actor, shown));
            && (w' != w <==> MayAnswer(secret, actions, i, actor, shown))
            && (w' != w ==>
                  && w'.now == w.now && w'.access.participants == w.access.participants
                  && w'.access.invitations
                     == w.access.invitations[i := w.access.invitations[i].(status := Declined, resolvedAt := Some(w.now))]
                  && OnlyRevokes(w.access.links, w'.access.links, w.access.invitations[i].link, w.now))
  {
    var w := After(secret, actions);
    ReachableRows(secret, actions);
    DeclineEffect(w, i, actor, shown);
    if i < |w.access.invitations| {
      assert StatusOk(w.access, w.access.invitations[i]);
      SecretIsGiven(secret, actions, w.access.invitations[i].link);
      assert Step(w, Decline(i, actor, shown)) != w ==>
               Step(w, Decline(i, actor, shown)).access.invitations[i].status != w.access.invitations[i].status;
    }
    hide Step, Rows, Given, OnlyRevokes;
  }

  // ------------------------------------------------------- issuing and revoking

  /** The next role of the chain. */
  predicate Follows(role: Role, next: Role) {
    (role == Customer && next == Manager) || (role == Manager && next == Worker)
  }

  /** An unrevoked link of the participant that is good for more than another second. */
  predicate UsableLink(w: World, p: ParticipantId, m: LinkId) {
    && m < |w.access.links| && w.access.links[m].participant == p
    && w.access.links[m].revokedAt.None? && w.access.links[m].expiresAt > w.now + 1
  }

  /** Seven days, but no longer than the issuer's link. */
  predicate BoundedExpiry(now: Time, limit: Time, expiresAt: Time) {
    && expiresAt <= now + 7 * 24 * 3600 && expiresAt <= limit
    && (expiresAt == now + 7 * 24 * 3600 || expiresAt == limit)
  }

  lemma UsableIsFound(w: World, p: ParticipantId)
    requires Rows(w.access)
    ensures var found := ActiveLink(w.access.links, p, w.now);
            && (found.Some? ==> UsableLink(w, p, found.value))
            && (forall m: LinkId :: UsableLink(w, p, m) ==> found == Some(m))
  {
    var found := ActiveLink(w.access.links, p, w.now);
    forall m: LinkId | UsableLink(w, p, m) ensures found == Some(m) {
      assert Active(w.access.links[m], p, w.now);
    }
  }

  lemma RoleIsTaken(a: Access, role: Role)
    requires Tree(a)
    ensures RoleTaken(a, role) <==> role in a.participants
  {
    if i :| 0 <= i < |a.invitations| && a.invitations[i].role == role {
      assert a.participants[a.invitations[i].invitee] == role;
    }
  }

  ghost predicate MayInvite(w: World, actor: ParticipantId, role: Role) {
    && actor < |w.access.participants| && Follows(w.access.participants[actor], role)
    && role !in w.access.participants
    && exists m: LinkId :: UsableLink(w, actor, m)
  }

  /** One more participant, one more link of bounded lifetime, and the pending invitation that connects them. */
  ghost predicate Invited(w: World, w': World, actor: ParticipantId, role: Role, given: nat) {
    var p, l := |w.access.participants|, |w.access.links|;
    && w'.now == w.now && w'.access.participants == w.access.participants + [role]
    && |w'.access.links| == l + 1 && w'.access.links[..l] == w.access.links
    && w'.access.links[l] == Link(p, given, w'.access.links[l].expiresAt, None)
    && (forall m: LinkId :: UsableLink(w, actor, m) ==>
          BoundedExpiry(w.now, w.access.links[m].expiresAt, w'.access.links[l].expiresAt))
    && w'.access.invitations == w.access.invitations +
         [Invitation(actor, p, l, role, Pending, w.now, w'.access.links[l].expiresAt, None)]
  }

  /**
   An invitation has an effect exactly for the next role of the chain, while nobody has it and the issuer holds a
   usable link; then it adds the invitee, a link that outlives neither seven days nor the issuer's, and the invitation.
   */
  lemma InviteTakesEffectIff(secret: nat, actions: seq<Action>, actor: ParticipantId, role: Role, given: nat)
    ensures var w := After(secret, actions);
            var w' := Step(w, Invite(actor, role, given));
            (w' != w <==> MayInvite(w, actor, role)) && (w' != w ==> Invited(w, w', actor, role, given))
  {
    hide Rows, MayInvite, Invited;
    ReachableRows(secret, actions);
    InviteEffect(After(secret, actions), actor, role, given);
  }

  lemma InviteEffect(w: World, actor: ParticipantId, role: Role, given: nat)
    requires Rows(w.access)
    ensures var w' := Step(w, Invite(actor, role, given));
            (w' != w <==> MayInvite(w, actor, role)) && (w' != w ==> Invited(w, w', actor, role, given))
  {
    UsableIsFound(w, actor);
    RoleIsTaken(w.access, role);
    hide Rows, RoleTaken, ActiveLink;
    var w' := Step(w, Invite(actor, role, given));
    assert w' != w ==> |w'.access.links| == |w.access.links| + 1;
    if MayInvite(w, actor, role) { assert |w'.access.links| == |w.access.links| + 1; }
  }

  ghost predicate MayReissue(w: World, i: InvitationId, actor: ParticipantId) {
    && i < |w.access.invitations| && w.access.invitations[i].issuer == actor
    && exists m: LinkId :: UsableLink(w, actor, m)
  }

  /** The invitation and its link are revoked. */
  predicate Withdrawn(a: Access, a': Access, k: InvitationId) {
    && k < |a.invitations| && k < |a'.invitations| && a'.invitations[k].status == Revoked
    && a.invitations[k].link < |a.links| && a.invitations[k].link < |a'.links|
    && a'.links[a.invitations[k].link].revokedAt.Some?
  }

  /** What the invitee delegated is withdrawn, its old link is revoked, and it has a new one of bounded lifetime. */
  ghost predicate Reissued(w: World, w': World, i: InvitationId, actor: ParticipantId, given: nat)
    requires i < |w.access.invitations|
  {
    var v, l := w.access.invitations[i], |w.access.links|;
    && w'.now == w.now && w'.access.participants == w.access.participants
    && |w'.access.links| == l + 1
    && w'.access.links[l] == Link(v.invitee, given, w'.access.links[l].expiresAt, None)
    && (forall m: LinkId :: UsableLink(w, actor, m) ==>
          BoundedExpiry(w.now, w.access.links[m].expiresAt, w'.access.links[l].expiresAt))
    && |w'.access.invitations| == |w.access.invitations|
    && w'.access.invitations[i]
       == Invitation(actor, v.invitee, l, v.role, Pending, w.now, w'.access.links[l].expiresAt, None)
    && v.link < l && w'.access.links[v.link].revokedAt.Some?
    && (forall k :: 0 <= k < |w.access.invitations| && w.access.invitations[k].issuer == v.invitee ==>
          Withdrawn(w.access, w'.access, k))
  }

  /**
   A reissue has an effect exactly for the issuer while it holds a usable link; then the invitee's old link and every
   link below the invitee are revoked, and the invitation is pending again under a new link of bounded lifetime.
   */
  lemma ReissueTakesEffectIff(secret: nat, actions: seq<Action>, i: InvitationId, actor: ParticipantId, given: nat)
    ensures var w := After(secret, actions);
            var w' := Step(w, Reissue(i, actor, given));
            && (w' != w <==> MayReissue(w, i, actor))
            && (w' != w ==> i < |w.access.invitations| && Reissued(w, w', i, actor, given))
  {
    hide Rows, MayReissue, Reissued;
    ReachableRows(secret, actions);
    ReissueEffect(After(secret, actions), i, actor, given);
  }

  lemma ReissueEffect(w: World, i: InvitationId, actor: ParticipantId, given: nat)
    requires Rows(w.access)
    ensures var w' := Step(w, Reissue(i, actor, given));
            && (w' != w <==> MayReissue(w, i, actor))
            && (w' != w ==> i < |w.access.invitations| && Reissued(w, w', i, actor, given))
  {
    hide Rows, ActiveLink, Cleared, Renewed, Reissued, ClearedOk;
    UsableIsFound(w, actor);
    var found := ActiveLink(w.access.links, actor, w.now);
    if i < |w.access.invitations| && w.access.invitations[i].issuer == actor && found.Some? {
      ClearedIsOk(w.access, i, w.now);
      RenewedEffect(w, Cleared(w.access, i, w.now), i, actor, given, found.value);
    }
  }

  /** What a reissue finds before it issues the new link. */
  predicate ClearedOk(a: Access, c: Access, i: InvitationId) {
    && i < |a.invitations| == |c.invitations| && |c.links| == |a.links| && c.participants == a.participants
    && var v := a.invitations[i];
       && v.link < |c.links| && c.links[v.link].revokedAt.Some?
       && c.invitations[i].issuer == v.issuer && c.invitations[i].invitee == v.invitee && c.invitations[i].role == v.role
       && (forall k :: 0 <= k < |a.invitations| && a.invitations[k].issuer == v.invitee ==> k != i && Withdrawn(a, c, k))
  }

  lemma ClearedIsOk(a: Access, i: InvitationId, now: Time)
    requires Rows(a) && i < |a.invitations|
    ensures ClearedOk(a, Cleared(a, i, now), i)
  {
    ClearedOwn(a, i, now);
    hide Rows, Cleared, Withdrawn;
    forall k | 0 <= k < |a.invitations| && a.invitations[k].issuer == a.invitations[i].invitee
      ensures k != i && Withdrawn(a, Cleared(a, i, now), k)
    {
      ClearedBelow(a, i, k, now);
    }
  }

  lemma RenewedEffect(w: World, c: Access, i: InvitationId, actor: ParticipantId, given: nat, m: LinkId)
    requires ClearedOk(w.access, c, i) && w.access.invitations[i].issuer == actor
    requires m < |w.access.links| && forall n: LinkId :: UsableLink(w, actor, n) ==> n == m
    ensures var expiry := Min(w.now + TTL, w.access.links[m].expiresAt);
            var w' := World(w.now, Renewed(c, i, given, expiry, w.now));
            w' != w && Reissued(w, w', i, actor, given)
  {
  }

  lemma ClearedOwn(a: Access, i: InvitationId, now: Time)
    requires Rows(a) && i < |a.invitations|
    ensures var c := Cleared(a, i, now);
            && c.participants == a.participants && a.invitations[i].link < |a.links|
            && c.links[a.invitations[i].link].revokedAt.Some?
            && c.invitations[i].issuer == a.invitations[i].issuer && c.invitations[i].invitee == a.invitations[i].invitee
            && c.invitations[i].role == a.invitations[i].role
  {
    assert StatusOk(a, a.invitations[i]);
    hide Rows, Below, LinksOf;
  }

  /** What the invitee issued is not its own invitation, and is withdrawn. */
  lemma ClearedBelow(a: Access, i: InvitationId, k: InvitationId, now: Time)
    requires Rows(a) && i < |a.invitations| && k < |a.invitations| && a.invitations[k].issuer == a.invitations[i].invitee
    ensures k != i && Withdrawn(a, Cleared(a, i, now), k)
  {
    assert k != i by { IssuerKnown(a, i); }
    assert StatusOk(a, a.invitations[k]);
    assert k in IssuedBy(a, a.invitations[i].invitee) && k in Subtree(a, k);
    hide Rows, Subtree, IssuedBy;
    var below := Below(a, a.invitations[i].invitee);
    assert k in below;
    hide Below;
    assert a.invitations[k].link in LinksOf(a, below);
    hide LinksOf;
  }

  /** An issuer's revocation has an effect exactly once; then the invitation is revoked and its link is not live. */
  lemma RevokeTakesEffectIff(secret: nat, actions: seq<Action>, i: InvitationId, actor: ParticipantId)
    ensures var w := After(secret, actions);
            var w' := Step(w, Revoke(i, actor));
            && (w' != w <==> i < |w.access.invitations| && w.access.invitations[i].issuer == actor
                             && w.access.invitations[i].status != Revoked)
            && (w' != w ==>
                  && |w'.access.invitations| == |w.access.invitations| && w'.access.invitations[i].status == Revoked
                  && w'.access.invitations[i].resolvedAt == Some(w.now)
                  && w.access.invitations[i].link < |w'.access.links|
                  && w'.access.links[w.access.invitations[i].link].revokedAt.Some?)
  {
    ReachableRows(secret, actions);
    RevokeEffect(After(secret, actions), i, actor);
  }

  lemma RevokeEffect(w: World, i: InvitationId, actor: ParticipantId)
    requires Rows(w.access)
    ensures var w' := Step(w, Revoke(i, actor));
            && (w' != w <==> i < |w.access.invitations| && w.access.invitations[i].issuer == actor
                             && w.access.invitations[i].status != Revoked)
            && (w' != w ==>
                  && |w'.access.invitations| == |w.access.invitations| && w'.access.invitations[i].status == Revoked
                  && w'.access.invitations[i].resolvedAt == Some(w.now)
                  && w.access.invitations[i].link < |w'.access.links|
                  && w'.access.links[w.access.invitations[i].link].revokedAt.Some?)
  {
    hide OneLive, CurrentLinks;
    var w' := Step(w, Revoke(i, actor));
    if i < |w.access.invitations| && w.access.invitations[i].issuer == actor && w.access.invitations[i].status != Revoked {
      assert i in Subtree(w.access, i);
      assert w.access.invitations[i].link in LinksOf(w.access, Subtree(w.access, i));
      assert w'.access.invitations[i].status == Revoked;
    }
  }

  /** A rotation needs the current secret of a live, unexpired link, and changes that secret only. */
  lemma RotateTakesEffectIff(secret: nat, actions: seq<Action>, l: LinkId, current: nat, given: nat)
    ensures var w := After(secret, actions);
            Step(w, Rotate(l, current, given)) ==
            if l < |w.access.links| && w.access.links[l].revokedAt.None? && w.now < w.access.links[l].expiresAt
               && current == Given(secret, actions, l)
            then w.(access := w.access.(links := w.access.links[l := w.access.links[l].(secret := given)]))
            else w
  {
    var w := After(secret, actions);
    if l < |w.access.links| { SecretIsGiven(secret, actions, l); }
    hide Given, After;
  }

  /** Reading an invitation marks it expired exactly when it is pending and its time is over. */
  lemma LookExpiresIff(w: World, i: InvitationId)
    ensures var a := w.access;
            Step(w, Look(i)) ==
            if i < |a.invitations| && a.invitations[i].status == Pending && a.invitations[i].expiresAt <= w.now
            then w.(access := a.(invitations := a.invitations[i := a.invitations[i].(status := Expired)]))
            else w
  {
    if i < |w.access.invitations| {
      assert w.access.invitations[i := w.access.invitations[i]] == w.access.invitations;
    }
  }

  // -------------------------------------------------------------- rejections

  /** A foreign invitation is unknown to its caller, a wrong secret is told first of all, and then only that it is too late. */
  lemma AnswerRejections(a: Access, i: InvitationId, actor: ParticipantId, shown: nat, now: Time)
    requires Rows(a)
    ensures var accepted, declined := AcceptInvitation(a, i, actor, shown, now), DeclineInvitation(a, i, actor, shown, now);
            && (accepted == Err(Unknown) <==> i >= |a.invitations| || a.invitations[i].invitee != actor)
            && (declined == Err(Unknown) <==> i >= |a.invitations| || a.invitations[i].invitee != actor)
            && (accepted == Err(BadSecret) <==>
                  i < |a.invitations| && a.invitations[i].invitee == actor && a.links[a.invitations[i].link].secret != shown)
            && (declined == Err(BadSecret) <==>
                  i < |a.invitations| && a.invitations[i].invitee == actor && a.links[a.invitations[i].link].secret != shown)
            && accepted != Err(WrongRole) && declined != Err(WrongRole)
  {
  }

  /** Issuing to a role out of turn, on a foreign invitation, and without a usable link or for a role that is taken. */
  lemma IssueRejections(w: World, i: InvitationId, actor: ParticipantId, role: Role, given: nat)
    requires Rows(w.access)
    ensures var a := w.access;
            && (CreateInvitation(a, actor, role, given, w.now) == Err(WrongRole) <==>
                  actor >= |a.participants| || !Follows(a.participants[actor], role))
            && (CreateInvitation(a, actor, role, given, w.now) == Err(Conflicting) <==>
                  && actor < |a.participants| && Follows(a.participants[actor], role)
                  && (role in a.participants || !exists m: LinkId :: UsableLink(w, actor, m)))
            && (ReissueInvitation(a, i, actor, given, w.now) == Err(Unknown) <==>
                  i >= |a.invitations| || a.invitations[i].issuer != actor)
            && (ReissueInvitation(a, i, actor, given, w.now) == Err(Conflicting) <==>
                  && i < |a.invitations| && a.invitations[i].issuer == actor
                  && !exists m: LinkId :: UsableLink(w, actor, m))
            && (RevokeInvitation(a, i, actor, w.now) == Err(Unknown) <==>
                  i >= |a.invitations| || a.invitations[i].issuer != actor)
  {
    UsableIsFound(w, actor);
    RoleIsTaken(w.access, role);
    hide Rows, RoleTaken, ActiveLink, Cleared, Renewed;
  }
}
