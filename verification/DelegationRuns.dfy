/**
 Delegated access over whole runs. An actor is authenticated in one transaction and
 its command runs in the next, so a command may be overtaken; the runs in which no
 delegating command is overtaken keep the delegation rules, and only those do.
 */
module DelegationRuns {
  import opened Common
  import opened Delegation
  import opened DelegationTheorems

  // ------------------------------------------------------------ every action

  lemma RotateKeeps(a: Access, link: LinkId, current: nat, secret: nat, now: Time)
    requires Rows(a)
    ensures var r := RotateSecret(a, link, current, secret, now);
            r.Ok? ==> Rows(r.value) && LinksStand(a, r.value) && (Delegated(a) ==> Delegated(r.value))
  {
    var r := RotateSecret(a, link, current, secret, now);
    if r.Ok? {
      var b := r.value;
      assert forall l :: 0 <= l < |a.links| ==> b.links[l] == a.links[l].(secret := b.links[l].secret);
      forall i | 0 <= i < |a.invitations| ensures StatusOk(b, b.invitations[i]) { assert StatusOk(a, a.invitations[i]); }
      if Delegated(a) { SecretKeepsDelegated(a, b); }
    }
  }

  lemma SecretKeepsDelegated(a: Access, b: Access)
    requires Delegated(a) && b.invitations == a.invitations && |b.links| == |a.links|
    requires forall l :: 0 <= l < |a.links| ==> b.links[l] == a.links[l].(secret := b.links[l].secret)
    ensures Delegated(b)
  {
    forall i | 0 <= i < |b.invitations| && HasLiveLink(b, i)
      ensures Backed(b, b.invitations[i].issuer, b.invitations[i].expiresAt) && MayDelegate(b, b.invitations[i].issuer)
    {
      assert HasLiveLink(a, i);
      assert Backed(a, a.invitations[i].issuer, a.invitations[i].expiresAt);
      var m :| 0 <= m < |a.links| && a.links[m].participant == a.invitations[i].issuer && Live(a.links[m])
               && a.links[m].expiresAt >= a.invitations[i].expiresAt;
      assert b.links[m].participant == b.invitations[i].issuer;
    }
  }

  lemma RevokeTreeKeeps(a: Access, link: LinkId, now: Time)
    requires Rows(a)
    ensures var b := RevokeLinkTree(a, link, now);
            Rows(b) && LinksStand(a, b) && (Delegated(a) ==> Delegated(b))
  {
    if link < |a.links| {
      var found := InvitationBy(a.invitations, link);
      if found.Some? {
        hide Rows, Delegated;
        SubtreeRevocationKeeps(a, found.value, now);
      } else {
        hide Rows, Delegated;
        BelowRevocationKeeps(a, link, now);
      }
    }
  }

  lemma SubtreeRevocationKeeps(a: Access, i: InvitationId, now: Time)
    requires Rows(a) && i < |a.invitations|
    ensures var b := RevokeSet(a, Subtree(a, i), now);
            Rows(b) && LinksStand(a, b) && (Delegated(a) ==> Delegated(b))
  {
    RevokeSetKeepsRows(a, Subtree(a, i), now);
    SubtreeClosed(a, i);
    if Delegated(a) { RevokeClosedCuts(a, Subtree(a, i), now); }
  }

  lemma BelowRevocationKeeps(a: Access, link: LinkId, now: Time)
    requires Rows(a) && link < |a.links|
    ensures var b := RevokeOne(RevokeSet(a, Below(a, a.links[link].participant), now), link, now);
            Rows(b) && LinksStand(a, b) && (Delegated(a) ==> Delegated(b))
  {
    var p := a.links[link].participant;
    var once := RevokeSet(a, Below(a, p), now);
    RevokeSetKeepsRows(a, Below(a, p), now);
    RevokeOneKeepsRows(once, link, now);
    BelowClosed(a, p);
    if Delegated(a) {
      RevokeClosedCuts(a, Below(a, p), now);
      forall j | 0 <= j < |once.invitations| && once.invitations[j].issuer == p ensures !HasLiveLink(once, j) {
        ChosenNotLive(a, Below(a, p), now, j);
      }
      hide Rows, Below, Cut, Delegated, ClosedBelow;
      RevokeLeafKeeps(once, link, now);
    }
  }

  lemma RevokeLeafKeeps(a: Access, link: LinkId, now: Time)
    requires Rows(a) && Delegated(a) && link < |a.links|
    requires forall j :: 0 <= j < |a.invitations| && a.invitations[j].issuer == a.links[link].participant ==> !HasLiveLink(a, j)
    ensures Delegated(RevokeOne(a, link, now))
  {
    RevokeLeafCuts(a, link, now);
  }

  /** The accepted and the expired status leave links alone. */
  lemma AnswerKeeps(w: World, action: Action)
    requires Rows(w.access) && (action.Accept? || action.Look?)
    ensures var a' := Apply(w, action); Rows(a') && LinksStand(w.access, a') && (Delegated(w.access) ==> Delegated(a'))
  {
    var a := w.access;
    var a' := Apply(w, action);
    if a' != a {
      var i := action.invitation;
      var v := a'.invitations[i];
      assert a' == WithStatus(a, i, v.status, v.resolvedAt);
      assert StatusOk(a, a.invitations[i]);
      StatusKeepsRows(a, i, v.status, v.resolvedAt);
      if Delegated(a) { StatusKeepsDelegated(a, i, v.status, v.resolvedAt); }
    }
  }

  lemma DeclineKeeps(a: Access, i: InvitationId, actor: ParticipantId, secret: nat, now: Time)
    requires Rows(a)
    ensures var r := DeclineInvitation(a, i, actor, secret, now);
            r.Ok? ==> Rows(r.value) && LinksStand(a, r.value) && (Delegated(a) ==> Delegated(r.value))
  {
    var r := DeclineInvitation(a, i, actor, secret, now);
    DeclineKeepsRows(a, i, actor, secret, now);
    if r.Ok? && Delegated(a) {
      NothingBelowPending(a, i);
      LinkOfInvitee(a, i);
      var once := RevokeOne(a, a.invitations[i].link, now);
      hide Rows, Delegated, RevokeOne;
      RevokeLeafKeeps(a, a.invitations[i].link, now);
      SameInvitation(a, i, now);
      StatusKeepsDelegated(once, i, Declined, Some(now));
    }
  }

  lemma SameInvitation(a: Access, i: InvitationId, now: Time)
    requires i < |a.invitations|
    ensures RevokeOne(a, a.invitations[i].link, now).invitations == a.invitations
  {
  }

  lemma RevokeKeeps(a: Access, i: InvitationId, actor: ParticipantId, now: Time)
    requires Rows(a)
    ensures var r := RevokeInvitation(a, i, actor, now);
            r.Ok? ==> Rows(r.value) && LinksStand(a, r.value) && (Delegated(a) ==> Delegated(r.value))
  {
    if i < |a.invitations| {
      SubtreeRevocationKeeps(a, i, now);
    }
  }

  lemma StepKeepsRows(w: World, action: Action)
    requires Rows(w.access)
    ensures Rows(Step(w, action).access) && LinksStand(w.access, Step(w, action).access)
    ensures !action.Invite? && !action.Reissue? && Delegated(w.access) ==> Delegated(Step(w, action).access)
  {
    hide Rows, Delegated, CreateInvitation, ReissueInvitation, RevokeInvitation, DeclineInvitation, RotateSecret, RevokeLinkTree;
    var a := w.access;
    match action {
      case Tick(_) =>
      case Invite(actor, role, secret) => InviteKeepsRows(a, actor, role, secret, w.now);
      case Accept(_, _, _) => AnswerKeeps(w, action);
      case Decline(i, actor, secret) => DeclineKeeps(a, i, actor, secret, w.now);
      case Revoke(i, actor) => RevokeKeeps(a, i, actor, w.now);
      case Reissue(i, actor, secret) => ReissueKeepsRows(a, i, actor, secret, w.now);
      case RevokeTree(link) => RevokeTreeKeeps(a, link, w.now);
      case Rotate(link, current, secret) => RotateKeeps(a, link, current, secret, w.now);
      case Look(_) => AnswerKeeps(w, action);
    }
  }

  // -------------------------------------------------------------- whole runs

  /** A delegating command takes effect. */
  predicate Delegates(w: World, action: Action) {
    match action
    case Invite(actor, role, secret) => CreateInvitation(w.access, actor, role, secret, w.now).Ok?
    case Reissue(i, actor, secret) => ReissueInvitation(w.access, i, actor, secret, w.now).Ok?
    case _ => false
  }

  /** What authentication requires of the actor's own invitation still holds when its command runs. */
  predicate NotOvertaken(w: World, action: Action) {
    Delegates(w, action) ==> MayDelegate(w.access, action.actor)
  }

  /** From a state that keeps the rules, a step keeps them exactly when its command was not overtaken. */
  lemma StepKeepsDelegationIff(w: World, action: Action)
    requires Rows(w.access) && Delegated(w.access)
    ensures Delegated(Step(w, action).access) <==> NotOvertaken(w, action)
  {
    hide Rows, Delegated, MayDelegate;
    match action {
      case Invite(actor, role, secret) =>
        if Delegates(w, action) { InviteKeepsDelegated(w.access, actor, role, secret, w.now); }
      case Reissue(i, actor, secret) =>
        if Delegates(w, action) { ReissueKeepsDelegated(w.access, i, actor, secret, w.now); }
      case _ => StepKeepsRows(w, action);
    }
  }

  ghost predicate Serial(w: World, actions: seq<Action>)
    decreases |actions|
  {
    actions == [] || (NotOvertaken(w, actions[0]) && Serial(Step(w, actions[0]), actions[1..]))
  }

  lemma LinksStandTransitive(a: Access, b: Access, c: Access)
    requires LinksStand(a, b) && LinksStand(b, c)
    ensures LinksStand(a, c)
  {
  }

  lemma {:induction false} RunKeeps(w: World, actions: seq<Action>)
    requires Rows(w.access)
    ensures Rows(Run(w, actions).access) && LinksStand(w.access, Run(w, actions).access)
    ensures Delegated(w.access) && Serial(w, actions) ==> Delegated(Run(w, actions).access)
    decreases |actions|
  {
    hide Rows, Delegated, Step, NotOvertaken;
    if actions != [] {
      var w1 := Step(w, actions[0]);
      StepKeepsRows(w, actions[0]);
      if Delegated(w.access) { StepKeepsDelegationIff(w, actions[0]); }
      RunKeeps(w1, actions[1..]);
      LinksStandTransitive(w.access, w1.access, Run(w1, actions[1..]).access);
    }
  }

  lemma InitialKeeps(secret: nat)
    ensures Rows(Initial(secret).access) && Delegated(Initial(secret).access)
  {
  }

  /**
   Over every serial run an unrevoked delegated link is backed by an unrevoked link of its issuer that lives at
   least as long, and its issuer has accepted its own invitation.
   */
  lemma DelegatedLinksAreBacked(secret: nat, actions: seq<Action>, i: InvitationId)
    requires Serial(Initial(secret), actions)
    requires var a := Run(Initial(secret), actions).access; i < |a.invitations| && HasLiveLink(a, i)
    ensures var a := Run(Initial(secret), actions).access;
            && a.invitations[i].link < |a.links|
            && Backed(a, a.invitations[i].issuer, a.links[a.invitations[i].link].expiresAt)
            && MayDelegate(a, a.invitations[i].issuer)
  {
    InitialKeeps(secret);
    RunKeeps(Initial(secret), actions);
    var a := Run(Initial(secret), actions).access;
    assert StatusOk(a, a.invitations[i]);
  }

  /** Whoever has not accepted has no unrevoked link below it. */
  lemma NothingBelowUnaccepted(secret: nat, actions: seq<Action>, i: InvitationId, j: InvitationId)
    requires Serial(Initial(secret), actions)
    requires var a := Run(Initial(secret), actions).access;
             && i < |a.invitations| && j < |a.invitations|
             && a.invitations[i].status != Accepted && a.invitations[j].issuer == a.invitations[i].invitee
    ensures !HasLiveLink(Run(Initial(secret), actions).access, j)
  {
    InitialKeeps(secret);
    RunKeeps(Initial(secret), actions);
  }

  /** Over every run, serial or not: revocations stand, lifetimes are fixed, each role is invited at most once. */
  lemma RevocationStands(secret: nat, actions: seq<Action>, more: seq<Action>, l: LinkId)
    requires l < |Run(Initial(secret), actions).access.links|
    ensures var a := Run(Initial(secret), actions).access;
            var a' := Run(Run(Initial(secret), actions), more).access;
            && l < |a'.links|
            && a'.links[l].expiresAt == a.links[l].expiresAt && a'.links[l].participant == a.links[l].participant
            && (!Live(a.links[l]) ==> a'.links[l].revokedAt == a.links[l].revokedAt)
  {
    InitialKeeps(secret);
    RunKeeps(Initial(secret), actions);
    RunKeeps(Run(Initial(secret), actions), more);
  }

  lemma OneInvitationPerRole(secret: nat, actions: seq<Action>, i: InvitationId, j: InvitationId)
    requires var a := Run(Initial(secret), actions).access; i < j < |a.invitations|
    ensures var a := Run(Initial(secret), actions).access;
            a.invitations[i].role != a.invitations[j].role && a.invitations[i].invitee != a.invitations[j].invitee
  {
    InitialKeeps(secret);
    RunKeeps(Initial(secret), actions);
  }

  /** Whichever branch it takes, revoking a link revokes exactly it and the links delegated below its participant. */
  lemma RevokeLinkTreeLinks(a: Access, link: LinkId, now: Time)
    requires Tree(a) && link < |a.links|
    ensures RevokeLinkTree(a, link, now).links
            == RevokeLinks(a.links, LinksOf(a, Below(a, a.links[link].participant)) + {link}, now)
  {
    var found := InvitationBy(a.invitations, link);
    if found.Some? {
      SubtreeIsBelow(a, found.value);
      InviteeHolds(a, found.value);
      if a.invitations[found.value].role != Manager { NotManagerHasNoneBelow(a, found.value); }
      hide Tree, Subtree;
      hide Below;
      assert LinksOf(a, Below(a, a.links[link].participant) + {found.value})
             == LinksOf(a, Below(a, a.links[link].participant)) + {link};
    }
  }

  lemma InviteeHolds(a: Access, i: InvitationId)
    requires Tree(a) && i < |a.invitations|
    ensures a.invitations[i].link < |a.links| && a.links[a.invitations[i].link].participant == a.invitations[i].invitee
  {
  }

  /** A worker has issued nothing. */
  lemma NotManagerHasNoneBelow(a: Access, i: InvitationId)
    requires Tree(a) && i < |a.invitations| && a.invitations[i].role != Manager
    ensures Below(a, a.invitations[i].invitee) == {}
  {
    assert IssuedBy(a, a.invitations[i].invitee) == {};
  }

  /** Revoking a link leaves nothing live at or below it, and touches no other link. */
  lemma TreeRevocationIsComplete(secret: nat, actions: seq<Action>, link: LinkId, l: LinkId)
    requires var a := Run(Initial(secret), actions).access; link < |a.links| && l < |a.links|
    ensures var w := Run(Initial(secret), actions);
            var a := w.access;
            var b := Step(w, RevokeTree(link)).access;
            && l < |b.links|
            && (if l == link || l in LinksOf(a, Below(a, a.links[link].participant)) then !Live(b.links[l])
                else b.links[l] == a.links[l])
  {
    hide Run, Below, Rows, Tree, Serial, RevokeLinkTree, LinksOf;
    ReachableTree(secret, actions);
    var w := Run(Initial(secret), actions);
    RevokeLinkTreeLinks(w.access, link, w.now);
  }

  lemma ReachableTree(secret: nat, actions: seq<Action>)
    ensures Tree(Run(Initial(secret), actions).access)
  {
    hide Tree, Serial;
    InitialKeeps(secret);
    RunKeeps(Initial(secret), actions);
  }

  // ------------------------------------------------------ an overtaken command

  const COMPANY := Invitation(0, 1, 1, Manager, Pending, 0, TTL, None)
  const RENEWED := COMPANY.(link := 2)
  const WORKER := Invitation(1, 2, 3, Worker, Pending, 0, TTL, None)
  const FIRST_LINKS := [Link(0, 1, TTL, None), Link(1, 2, TTL, None)]
  const RENEWED_LINKS := [Link(0, 1, TTL, None), Link(1, 2, TTL, Some(0)), Link(1, 3, TTL, None)]

  lemma InviteExample()
    ensures Step(Initial(1), Invite(0, Manager, 2)) == World(0, Access([Customer, Manager], FIRST_LINKS, [COMPANY]))
  {
  }

  lemma OvertakenExample()
    ensures var w3 := World(0, Access([Customer, Manager], RENEWED_LINKS, [RENEWED]));
            Step(w3, Invite(1, Worker, 4))
            == World(0, Access([Customer, Manager, Worker], RENEWED_LINKS + [Link(2, 4, TTL, None)], [RENEWED, WORKER]))
  {
    assert ActiveLink(RENEWED_LINKS, 1, 0) == Some(2);
  }

  lemma DeclineExample()
    ensures var w4 := World(0, Access([Customer, Manager, Worker], RENEWED_LINKS + [Link(2, 4, TTL, None)], [RENEWED, WORKER]));
            var a := Step(w4, Decline(0, 1, 3)).access;
            && |a.links| == 4 && |a.invitations| == 2 && a.invitations[1] == WORKER && Live(a.links[3])
            && (forall m :: 0 <= m < 4 && a.links[m].participant == 1 ==> !Live(a.links[m]))
  {
    var w4 := World(0, Access([Customer, Manager, Worker], RENEWED_LINKS + [Link(2, 4, TTL, None)], [RENEWED, WORKER]));
    assert Step(w4, Decline(0, 1, 3)).access.links == RevokeLinks(w4.access.links, {2}, 0);
  }

  /**
   A company's request to invite its worker is overtaken: between its authentication and its transaction the
   customer reissues the company's invitation. The request goes through on the new link, the company then declines,
   and the worker keeps an unrevoked link although the company has none.
   */
  lemma OvertakenInviteOrphans()
    ensures var actions := [Invite(0, Manager, 2), Accept(0, 1, 2), Reissue(0, 0, 3), Invite(1, Worker, 4), Decline(0, 1, 3)];
            var a := Run(Initial(1), actions).access;
            && |a.invitations| == 2 && HasLiveLink(a, 1) && a.invitations[1].issuer == 1
            && (forall m :: 0 <= m < |a.links| && a.links[m].participant == 1 ==> !Live(a.links[m]))
            && !Serial(Initial(1), actions)
  {
    var actions := [Invite(0, Manager, 2), Accept(0, 1, 2), Reissue(0, 0, 3), Invite(1, Worker, 4), Decline(0, 1, 3)];
    InviteExample();
    var w1 := World(0, Access([Customer, Manager], FIRST_LINKS, [COMPANY]));
    var w2 := w1.(access := w1.access.(invitations := [COMPANY.(status := Accepted, resolvedAt := Some(0))]));
    assert Step(w1, actions[1]) == w2;
    ReissueExample(w2, World(0, Access([Customer, Manager], RENEWED_LINKS, [RENEWED])));
    OvertakenExample();
    DeclineExample();
    hide Serial, Step;
    RunFive(Initial(1), actions);
    if Serial(Initial(1), actions) {
      DelegatedLinksAreBacked(1, actions, 1);
    }
  }

  lemma ReissueExample(w2: World, w3: World)
    requires w2.now == 0
    requires w2.access.participants == [Customer, Manager]
    requires w2.access.links == [Link(0, 1, TTL, None), Link(1, 2, TTL, None)]
    requires w2.access.invitations == [Invitation(0, 1, 1, Manager, Accepted, 0, TTL, Some(0))]
    requires w3 == World(0, Access([Customer, Manager],
                                   [Link(0, 1, TTL, None), Link(1, 2, TTL, Some(0)), Link(1, 3, TTL, None)],
                                   [Invitation(0, 1, 2, Manager, Pending, 0, TTL, None)]))
    ensures Step(w2, Reissue(0, 0, 3)) == w3
  {
    var a := w2.access;
    assert a.links[..1] == [Link(0, 1, TTL, None)];
    assert ActiveLink(a.links[..1], 0, 0) == Some(0);
    assert ActiveLink(a.links, 0, 0) == Some(0);
    assert IssuedBy(a, 1) == {};
    assert Below(a, 1) == {};
    RevokeNothing(a, 0);
    var c := RevokeOne(a, 1, 0);
    assert c.links == [Link(0, 1, TTL, None), Link(1, 2, TTL, Some(0))];
    assert c.links + [Link(1, 3, TTL, None)] == w3.access.links;
  }

  lemma RunFive(w: World, actions: seq<Action>)
    requires |actions| == 5
    ensures Run(w, actions) == Step(Step(Step(Step(Step(w, actions[0]), actions[1]), actions[2]), actions[3]), actions[4])
  {
    hide Step;
    var w1 := Step(w, actions[0]);
    var w2 := Step(w1, actions[1]);
    var w3 := Step(w2, actions[2]);
    var w4 := Step(w3, actions[3]);
    assert Run(w4, actions[1..][1..][1..][1..]) == Step(w4, actions[4]);
    assert Run(w3, actions[1..][1..][1..]) == Run(w4, actions[1..][1..][1..][1..]);
    assert Run(w2, actions[1..][1..]) == Run(w3, actions[1..][1..][1..]);
    assert Run(w1, actions[1..]) == Run(w2, actions[1..][1..]);
  }
}
