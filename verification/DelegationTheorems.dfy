/** What holds of delegated access over every sequence of commands on one job. */
module DelegationTheorems {
  import opened Common
  import opened Delegation

  datatype World = World(now: Time, access: Access)

  datatype Action =
    | Tick(elapsed: nat)
    | Invite(actor: ParticipantId, role: Role, secret: nat)
    | Accept(invitation: InvitationId, actor: ParticipantId, secret: nat)
    | Decline(invitation: InvitationId, actor: ParticipantId, secret: nat)
    | Revoke(invitation: InvitationId, actor: ParticipantId)
    | Reissue(invitation: InvitationId, actor: ParticipantId, secret: nat)
    | RevokeTree(link: LinkId)
    | Rotate(link: LinkId, current: nat, secret: nat)
    | Look(invitation: InvitationId)

  /** A new job: its customer and the customer's link. */
  function Initial(secret: nat): World {
    World(0, Access([Customer], [Link(0, secret, TTL, None)], []))
  }

  function Outcome(a: Access, result: Result<Access, AccessError>): Access {
    match result
    case Ok(a') => a'
    case Err(_) => a
  }

  function Apply(w: World, action: Action): Access {
    var a := w.access;
    match action
    case Tick(_) => a
    case Invite(actor, role, secret) => Outcome(a, CreateInvitation(a, actor, role, secret, w.now))
    case Accept(i, actor, secret) => Outcome(a, AcceptInvitation(a, i, actor, secret, w.now))
    case Decline(i, actor, secret) => Outcome(a, DeclineInvitation(a, i, actor, secret, w.now))
    case Revoke(i, actor) => Outcome(a, RevokeInvitation(a, i, actor, w.now))
    case Reissue(i, actor, secret) => Outcome(a, ReissueInvitation(a, i, actor, secret, w.now))
    case RevokeTree(link) => RevokeLinkTree(a, link, w.now)
    case Rotate(link, current, secret) => Outcome(a, RotateSecret(a, link, current, secret, w.now))
    case Look(i) => Materialize(a, i, w.now)
  }

  function Step(w: World, action: Action): World {
    World(if action.Tick? then w.now + action.elapsed else w.now, Apply(w, action))
  }

  function Run(w: World, actions: seq<Action>): World
    decreases |actions|
  {
    if actions == [] then w else Run(Step(w, actions[0]), actions[1..])
  }

  // -------------------------------------------------------------- invariants

  /** The issuer still has a link that lives at least as long. */
  ghost predicate Backed(a: Access, issuer: ParticipantId, expiresAt: Time) {
    exists m :: 0 <= m < |a.links| && a.links[m].participant == issuer && Live(a.links[m]) && a.links[m].expiresAt >= expiresAt
  }

  predicate HasLiveLink(a: Access, i: InvitationId)
    requires i < |a.invitations|
  {
    a.invitations[i].link < |a.links| && Live(a.links[a.invitations[i].link])
  }

  /** Whoever was invited has accepted: what lets a participant delegate further. */
  predicate MayDelegate(a: Access, p: ParticipantId) {
    forall i :: 0 <= i < |a.invitations| && a.invitations[i].invitee == p ==> a.invitations[i].status == Accepted
  }

  /** The unique index on unrevoked links. */
  ghost predicate OneLive(a: Access) {
    forall l, m :: 0 <= l < m < |a.links| && Live(a.links[l]) && Live(a.links[m]) ==>
      a.links[l].participant != a.links[m].participant
  }

  /** An invitee's only unrevoked link is the one its invitation names. */
  ghost predicate CurrentLinks(a: Access) {
    forall l, i :: 0 <= l < |a.links| && 0 <= i < |a.invitations|
                   && Live(a.links[l]) && a.links[l].participant == a.invitations[i].invitee ==>
                     a.invitations[i].link == l
  }

  predicate StatusOk(a: Access, v: Invitation) {
    && v.link < |a.links|
    && (v.status in {Pending, Expired} <==> v.resolvedAt.None?)
    && v.expiresAt == a.links[v.link].expiresAt
    && (v.status in {Declined, Revoked} ==> !Live(a.links[v.link]))
  }

  ghost predicate Statuses(a: Access) {
    forall i :: 0 <= i < |a.invitations| ==> StatusOk(a, a.invitations[i])
  }

  ghost predicate Rows(a: Access) {
    Tree(a) && OneLive(a) && CurrentLinks(a) && Statuses(a)
  }

  ghost predicate Delegated(a: Access) {
    && (forall i :: 0 <= i < |a.invitations| && HasLiveLink(a, i) ==>
          Backed(a, a.invitations[i].issuer, a.invitations[i].expiresAt))
    && (forall i :: 0 <= i < |a.invitations| && HasLiveLink(a, i) ==> MayDelegate(a, a.invitations[i].issuer))
  }

  /** Links keep their participant and their lifetime, and a revocation is never undone. */
  predicate LinksStand(a: Access, a': Access) {
    && |a.links| <= |a'.links|
    && forall l :: 0 <= l < |a.links| ==>
         && a'.links[l].participant == a.links[l].participant
         && a'.links[l].expiresAt == a.links[l].expiresAt
         && (a.links[l].revokedAt.Some? ==> a'.links[l].revokedAt == a.links[l].revokedAt)
  }

  // ------------------------------------------------------ commands keep rows

  /** Statuses may change and links may be revoked; who holds what stays. */
  predicate Tightens(a: Access, a': Access) {
    && a'.participants == a.participants
    && |a'.links| == |a.links|
    && |a'.invitations| == |a.invitations|
    && (forall l :: 0 <= l < |a.links| ==> a'.links[l] in {a.links[l], a.links[l].(revokedAt := a'.links[l].revokedAt)}
                                           && (a.links[l].revokedAt.Some? ==> a'.links[l].revokedAt == a.links[l].revokedAt))
    && (forall i :: 0 <= i < |a.invitations| ==>
          a'.invitations[i] == a.invitations[i].(status := a'.invitations[i].status, resolvedAt := a'.invitations[i].resolvedAt))
  }

  lemma TightensKeeps(a: Access, a': Access)
    requires Rows(a) && Tightens(a, a')
    ensures Tree(a') && OneLive(a') && CurrentLinks(a') && LinksStand(a, a')
  {
    TightensTree(a, a');
    hide Tree, Statuses;
  }

  lemma TightensTree(a: Access, a': Access)
    requires Tree(a) && Tightens(a, a')
    ensures Tree(a')
  {
  }

  lemma RevokeSetKeepsRows(a: Access, chosen: set<InvitationId>, now: Time)
    requires Rows(a)
    ensures Rows(RevokeSet(a, chosen, now)) && LinksStand(a, RevokeSet(a, chosen, now))
    ensures Tightens(a, RevokeSet(a, chosen, now))
  {
    var a' := RevokeSet(a, chosen, now);
    RevokeSetTightens(a, chosen, now);
    TightensKeeps(a, a');
    hide Tree, OneLive, CurrentLinks, LinksStand, Tightens;
    forall i | 0 <= i < |a.invitations| ensures StatusOk(a', a'.invitations[i]) {
      assert StatusOk(a, a.invitations[i]);
      assert i in chosen ==> a.invitations[i].link in LinksOf(a, chosen);
    }
  }

  lemma RevokeSetTightens(a: Access, chosen: set<InvitationId>, now: Time)
    ensures Tightens(a, RevokeSet(a, chosen, now))
  {
    hide LinksOf;
  }

  lemma RevokeOneKeepsRows(a: Access, link: LinkId, now: Time)
    requires Rows(a)
    ensures Rows(RevokeOne(a, link, now)) && LinksStand(a, RevokeOne(a, link, now))
    ensures Tightens(a, RevokeOne(a, link, now))
  {
    var a' := RevokeOne(a, link, now);
    assert Tightens(a, a');
    TightensKeeps(a, a');
    hide Tree, OneLive, CurrentLinks, LinksStand, Tightens;
    forall i | 0 <= i < |a.invitations| ensures StatusOk(a', a'.invitations[i]) {
      assert StatusOk(a, a.invitations[i]);
    }
  }

  /** The invitation row changes its status only. */
  function WithStatus(a: Access, i: InvitationId, status: InvitationStatus, resolvedAt: Option<Time>): Access
    requires i < |a.invitations|
  {
    a.(invitations := a.invitations[i := a.invitations[i].(status := status, resolvedAt := resolvedAt)])
  }

  lemma StatusKeepsRows(a: Access, i: InvitationId, status: InvitationStatus, resolvedAt: Option<Time>)
    requires Rows(a) && i < |a.invitations| && (status in {Pending, Expired} <==> resolvedAt.None?)
    requires status in {Declined, Revoked} ==> !HasLiveLink(a, i)
    ensures Rows(WithStatus(a, i, status, resolvedAt)) && LinksStand(a, WithStatus(a, i, status, resolvedAt))
    ensures Tightens(a, WithStatus(a, i, status, resolvedAt))
  {
    var a' := WithStatus(a, i, status, resolvedAt);
    assert Tightens(a, a');
    TightensKeeps(a, a');
    hide Tree, OneLive, CurrentLinks, LinksStand, Tightens;
    forall j | 0 <= j < |a.invitations| ensures StatusOk(a', a'.invitations[j]) {
      assert StatusOk(a, a.invitations[j]);
    }
  }

  /** One more link, for the invitee of a new or renewed invitation that has no live link. */
  lemma NewLinkRows(a: Access, a': Access, i: InvitationId)
    requires Rows(a) && Tree(a') && i <= |a.invitations|
    requires |a'.invitations| == (if i < |a.invitations| then |a.invitations| else |a.invitations| + 1)
    requires |a'.links| == |a.links| + 1 && a'.links[..|a.links|] == a.links
    requires forall j :: 0 <= j < |a.invitations| && j != i ==> a'.invitations[j] == a.invitations[j]
    requires var v := a'.invitations[i];
             && v.link == |a.links| && v.status == Pending && v.resolvedAt.None?
             && v.expiresAt == a'.links[v.link].expiresAt && a'.links[v.link].participant == v.invitee
    requires forall l :: 0 <= l < |a.links| && Live(a.links[l]) ==> a.links[l].participant != a'.invitations[i].invitee
    ensures Rows(a') && LinksStand(a, a')
  {
    hide Tree;
    forall j | 0 <= j < |a'.invitations| ensures StatusOk(a', a'.invitations[j]) {
      if j != i { assert StatusOk(a, a.invitations[j]); }
    }
    hide Statuses;
    assert forall l :: 0 <= l < |a.links| ==> a'.links[l] == a.links[l];
    OtherInvitees(a', i);
  }

  lemma OtherInvitees(a: Access, i: InvitationId)
    requires Tree(a) && i < |a.invitations|
    ensures forall j :: 0 <= j < |a.invitations| && j != i ==> a.invitations[j].invitee != a.invitations[i].invitee
  {
  }

  lemma InviteKeepsRows(a: Access, actor: ParticipantId, role: Role, secret: nat, now: Time)
    requires Rows(a)
    ensures var r := CreateInvitation(a, actor, role, secret, now); r.Ok? ==> Rows(r.value) && LinksStand(a, r.value)
  {
    var r := CreateInvitation(a, actor, role, secret, now);
    if r.Ok? {
      InviteTree(a, actor, role, secret, now);
      LinkHolders(a);
      hide Tree, OneLive, CurrentLinks, Statuses;
      NewLinkRows(a, r.value, |a.invitations|);
    }
  }

  lemma LinkHolders(a: Access)
    requires Tree(a)
    ensures forall l :: 0 <= l < |a.links| ==> a.links[l].participant < |a.participants|
  {
  }

  lemma InviteTree(a: Access, actor: ParticipantId, role: Role, secret: nat, now: Time)
    requires Tree(a)
    ensures var r := CreateInvitation(a, actor, role, secret, now); r.Ok? ==> Tree(r.value)
  {
  }

  lemma DeclineKeepsRows(a: Access, i: InvitationId, actor: ParticipantId, secret: nat, now: Time)
    requires Rows(a)
    ensures var r := DeclineInvitation(a, i, actor, secret, now);
            r.Ok? ==>
              && i < |a.invitations| && a.invitations[i].status == Pending && a.invitations[i].link < |a.links|
              && r.value == WithStatus(RevokeOne(a, a.invitations[i].link, now), i, Declined, Some(now))
              && Rows(r.value) && LinksStand(a, r.value) && Tightens(a, r.value)
  {
    var r := DeclineInvitation(a, i, actor, secret, now);
    if r.Ok? {
      var once := RevokeOne(a, a.invitations[i].link, now);
      RevokeOneKeepsRows(a, a.invitations[i].link, now);
      assert r.value == WithStatus(once, i, Declined, Some(now));
      hide Rows;
      StatusKeepsRows(once, i, Declined, Some(now));
    }
  }

  /** An invitation is not below its own invitee. */
  lemma NotBelowItself(a: Access, i: InvitationId)
    requires Tree(a) && i < |a.invitations|
    ensures i !in Below(a, a.invitations[i].invitee) && a.invitations[i].link < |a.links|
    ensures forall j :: j in Below(a, a.invitations[i].invitee) ==>
              j < |a.invitations| && Depth(a.invitations[j].role) < Depth(a.invitations[i].role)
  {
  }

  lemma ClearedRows(a: Access, i: InvitationId, now: Time)
    requires Rows(a) && i < |a.invitations|
    ensures var c := Cleared(a, i, now);
            && Rows(c) && LinksStand(a, c) && Tightens(a, c) && c.invitations[i] == a.invitations[i]
            && forall l :: 0 <= l < |c.links| && Live(c.links[l]) ==> c.links[l].participant != a.invitations[i].invitee
  {
    var below := Below(a, a.invitations[i].invitee);
    var once := RevokeSet(a, below, now);
    RevokeSetKeepsRows(a, below, now);
    RevokeOneKeepsRows(once, a.invitations[i].link, now);
    NotBelowItself(a, i);
    hide Tree, Below, OneLive, Statuses, LinksOf;
    InviteeLosesLink(once, i, now);
    hide CurrentLinks, RevokeOne;
    TightensTransitive(a, once, Cleared(a, i, now));
  }

  lemma InviteeLosesLink(a: Access, i: InvitationId, now: Time)
    requires CurrentLinks(a) && i < |a.invitations|
    ensures var c := RevokeOne(a, a.invitations[i].link, now);
            && c.invitations == a.invitations
            && forall l :: 0 <= l < |c.links| && Live(c.links[l]) ==> c.links[l].participant != a.invitations[i].invitee
  {
  }

  lemma TightensTransitive(a: Access, b: Access, c: Access)
    requires Tightens(a, b) && Tightens(b, c)
    ensures Tightens(a, c) && LinksStand(a, c)
  {
  }

  lemma ReissueKeepsRows(a: Access, i: InvitationId, actor: ParticipantId, secret: nat, now: Time)
    requires Rows(a)
    ensures var r := ReissueInvitation(a, i, actor, secret, now); r.Ok? ==> Rows(r.value) && LinksStand(a, r.value)
  {
    var r := ReissueInvitation(a, i, actor, secret, now);
    if r.Ok? {
      var c := Cleared(a, i, now);
      ClearedRows(a, i, now);
      RenewTree(c, r.value, i);
      hide Rows, Tree, RevokeSet, RevokeOne, Tightens, Below;
      assert r.value.links == c.links + [r.value.links[|c.links|]];
      NewLinkRows(c, r.value, i);
    }
  }

  lemma RenewTree(a: Access, a': Access, i: InvitationId)
    requires Tree(a) && i < |a.invitations| == |a'.invitations| && a'.participants == a.participants
    requires |a'.links| == |a.links| + 1 && a'.links[..|a.links|] == a.links
    requires a'.invitations == a.invitations[i := a'.invitations[i]]
    requires a'.invitations[i].issuer == a.invitations[i].issuer && a'.invitations[i].invitee == a.invitations[i].invitee
    requires a'.invitations[i].role == a.invitations[i].role && a'.invitations[i].link == |a.links|
    requires a'.links[|a.links|].participant == a.invitations[i].invitee
    ensures Tree(a')
  {
    assert forall l :: 0 <= l < |a.links| ==> a'.links[l] == a.links[l];
  }

  // ------------------------------------------------ commands keep delegation

  /** Everything delegated by whoever loses a link, or by whoever is not accepted any more, has lost its links too. */
  ghost predicate Cut(a: Access, a': Access) {
    && Tightens(a, a')
    && (forall i :: 0 <= i < |a.invitations| && HasLiveLink(a', i) ==>
          && HasLiveLink(a, i)
          && MayDelegate(a', a.invitations[i].issuer)
          && (forall m :: 0 <= m < |a.links| && a.links[m].participant == a.invitations[i].issuer ==> a'.links[m] == a.links[m]))
  }

  lemma CutKeepsDelegated(a: Access, a': Access)
    requires Delegated(a) && Cut(a, a')
    ensures Delegated(a')
  {
    forall i | 0 <= i < |a'.invitations| && HasLiveLink(a', i)
      ensures Backed(a', a'.invitations[i].issuer, a'.invitations[i].expiresAt)
    {
      assert Backed(a, a.invitations[i].issuer, a.invitations[i].expiresAt);
    }
  }

  /** A set of invitations with everything below them. */
  ghost predicate ClosedBelow(a: Access, chosen: set<InvitationId>) {
    && (forall i :: i in chosen ==> i < |a.invitations|)
    && (forall i, j :: i in chosen && 0 <= j < |a.invitations| && a.invitations[j].issuer == a.invitations[i].invitee ==> j in chosen)
  }

  lemma RevokeClosedCuts(a: Access, chosen: set<InvitationId>, now: Time)
    requires Rows(a) && Delegated(a) && ClosedBelow(a, chosen)
    ensures Cut(a, RevokeSet(a, chosen, now)) && Delegated(RevokeSet(a, chosen, now))
  {
    var a' := RevokeSet(a, chosen, now);
    RevokeSetTightens(a, chosen, now);
    hide Tightens;
    forall i | i in chosen ensures !HasLiveLink(a', i) { ChosenNotLive(a, chosen, now, i); }
    forall i | 0 <= i < |a.invitations| && HasLiveLink(a', i)
      ensures HasLiveLink(a, i) && MayDelegate(a', a.invitations[i].issuer)
      ensures forall m :: 0 <= m < |a.links| && a.links[m].participant == a.invitations[i].issuer ==> a'.links[m] == a.links[m]
    {
      assert MayDelegate(a, a.invitations[i].issuer);
      forall m | 0 <= m < |a.links| && a.links[m].participant == a.invitations[i].issuer ensures m !in LinksOf(a, chosen) {
        ChosenLinks(a, chosen, m);
      }
    }
    CutKeepsDelegated(a, a');
  }

  lemma ChosenNotLive(a: Access, chosen: set<InvitationId>, now: Time, i: InvitationId)
    requires i in chosen && i < |a.invitations|
    ensures !HasLiveLink(RevokeSet(a, chosen, now), i)
  {
    assert a.invitations[i].link in LinksOf(a, chosen);
  }

  /** A revoked link belongs to an invitee of the set. */
  lemma ChosenLinks(a: Access, chosen: set<InvitationId>, m: LinkId)
    requires Tree(a) && m < |a.links|
    ensures m in LinksOf(a, chosen) ==>
              exists i :: i in chosen && i < |a.invitations| && a.invitations[i].invitee == a.links[m].participant
  {
  }

  lemma SubtreeClosed(a: Access, i: InvitationId)
    requires Tree(a) && i < |a.invitations|
    ensures ClosedBelow(a, Subtree(a, i))
  {
    forall k, j | k in Subtree(a, i) && 0 <= j < |a.invitations| && a.invitations[j].issuer == a.invitations[k].invitee
      ensures j in Subtree(a, i)
    {
      assert Invitable(a.invitations[k].role) == Some(a.invitations[j].role);
    }
  }

  lemma BelowClosed(a: Access, p: ParticipantId)
    requires Tree(a)
    ensures ClosedBelow(a, Below(a, p))
    ensures forall j :: 0 <= j < |a.invitations| && a.invitations[j].issuer == p ==> j in Below(a, p)
  {
    forall k, j | k in Below(a, p) && 0 <= j < |a.invitations| && a.invitations[j].issuer == a.invitations[k].invitee
      ensures j in Below(a, p)
    {
      BelowStep(a, p, k, j);
    }
    hide Tree;
    forall j | 0 <= j < |a.invitations| && a.invitations[j].issuer == p ensures j in Below(a, p) {
      assert j in IssuedBy(a, p) && j in Subtree(a, j);
    }
  }

  lemma BelowStep(a: Access, p: ParticipantId, k: InvitationId, j: InvitationId)
    requires Tree(a) && k in Below(a, p) && k < |a.invitations|
    requires j < |a.invitations| && a.invitations[j].issuer == a.invitations[k].invitee
    ensures j in Below(a, p)
  {
    var i :| i in IssuedBy(a, p) && k in Subtree(a, i);
    SubtreeClosed(a, i);
    hide Tree, Subtree;
    assert j in Subtree(a, i);
  }

  /** Revoking one link is a cut once nothing its participant issued is live. */
  lemma RevokeLeafCuts(a: Access, link: LinkId, now: Time)
    requires Rows(a) && Delegated(a) && link < |a.links|
    requires forall j :: 0 <= j < |a.invitations| && a.invitations[j].issuer == a.links[link].participant ==> !HasLiveLink(a, j)
    ensures Delegated(RevokeOne(a, link, now))
  {
    CutKeepsDelegated(a, RevokeOne(a, link, now));
  }

  lemma StatusKeepsDelegated(a: Access, i: InvitationId, status: InvitationStatus, resolvedAt: Option<Time>)
    requires Delegated(a) && i < |a.invitations|
    requires status == Accepted || a.invitations[i].status != Accepted
    ensures Delegated(WithStatus(a, i, status, resolvedAt))
  {
    var a' := WithStatus(a, i, status, resolvedAt);
    forall p | MayDelegate(a, p) ensures MayDelegate(a', p) {}
    forall j | 0 <= j < |a'.invitations| && HasLiveLink(a', j)
      ensures Backed(a', a'.invitations[j].issuer, a'.invitations[j].expiresAt) && MayDelegate(a', a'.invitations[j].issuer)
    {
      assert Backed(a, a.invitations[j].issuer, a.invitations[j].expiresAt) && MayDelegate(a, a.invitations[j].issuer);
    }
  }

  /** Without a live link there was nothing to delegate with; no one below a pending invitation has one. */
  lemma NothingBelowPending(a: Access, i: InvitationId)
    requires Delegated(a) && i < |a.invitations| && a.invitations[i].status != Accepted
    ensures forall j :: 0 <= j < |a.invitations| && a.invitations[j].issuer == a.invitations[i].invitee ==> !HasLiveLink(a, j)
  {
  }

  lemma InviteKeepsDelegated(a: Access, actor: ParticipantId, role: Role, secret: nat, now: Time)
    requires Rows(a) && Delegated(a)
    requires CreateInvitation(a, actor, role, secret, now).Ok?
    ensures Delegated(CreateInvitation(a, actor, role, secret, now).value) <==> MayDelegate(a, actor)
  {
    var a' := CreateInvitation(a, actor, role, secret, now).value;
    var n := |a.invitations|;
    InviteTree(a, actor, role, secret, now);
    InviteeIsNew(a, a', actor);
    var m := ActiveLink(a.links, actor, now).value;
    hide Rows, Tree, CreateInvitation, ActiveLink;
    InvitedDelegated(a, a', m);
  }

  /** One more invitation with a live link is fine exactly when its issuer may delegate. */
  lemma InvitedDelegated(a: Access, a': Access, m: LinkId)
    requires Tree(a) && Delegated(a) && m < |a.links|
    requires |a'.links| == |a.links| + 1 && a'.links[..|a.links|] == a.links
    requires |a'.invitations| == |a.invitations| + 1 && a'.invitations[..|a.invitations|] == a.invitations
    requires var v := a'.invitations[|a.invitations|];
             && v.link == |a.links| && Live(a'.links[v.link]) && v.invitee == |a.participants| > v.issuer
             && a.links[m].participant == v.issuer && Live(a.links[m]) && a.links[m].expiresAt >= v.expiresAt
    ensures Delegated(a') <==> MayDelegate(a, a'.invitations[|a.invitations|].issuer)
  {
    var n := |a.invitations|;
    var actor := a'.invitations[n].issuer;
    assert HasLiveLink(a', n);
    InviteeIsNew(a, a', actor);
    if MayDelegate(a, actor) {
      assert a'.links[m] == a.links[m];
      assert Backed(a', actor, a'.invitations[n].expiresAt);
      forall i | 0 <= i < n && HasLiveLink(a', i)
        ensures Backed(a', a'.invitations[i].issuer, a'.invitations[i].expiresAt) && MayDelegate(a', a'.invitations[i].issuer)
      {
        assert a'.invitations[i] == a.invitations[i];
        OldLinkStaysBacked(a, a', i);
        IssuerKnown(a, i);
        InviteeIsNew(a, a', a.invitations[i].issuer);
      }
    }
  }

  lemma IssuerKnown(a: Access, i: InvitationId)
    requires Tree(a) && i < |a.invitations|
    ensures a.invitations[i].issuer < |a.participants|
  {
  }

  lemma OldLinkStaysBacked(a: Access, a': Access, i: InvitationId)
    requires Tree(a) && Delegated(a) && i < |a.invitations| <= |a'.invitations|
    requires |a.links| <= |a'.links| && a'.links[..|a.links|] == a.links
    requires a'.invitations[i] == a.invitations[i] && HasLiveLink(a', i)
    ensures HasLiveLink(a, i) && Backed(a', a.invitations[i].issuer, a.invitations[i].expiresAt) && MayDelegate(a, a.invitations[i].issuer)
  {
    assert forall l :: 0 <= l < |a.links| ==> a'.links[l] == a.links[l];
    assert Backed(a, a.invitations[i].issuer, a.invitations[i].expiresAt);
  }

  lemma InviteeIsNew(a: Access, a': Access, p: ParticipantId)
    requires |a'.invitations| == |a.invitations| + 1 && a'.invitations[..|a.invitations|] == a.invitations
    requires a'.invitations[|a.invitations|].invitee == |a.participants| > p
    ensures MayDelegate(a', p) <==> MayDelegate(a, p)
  {
    assert forall i :: 0 <= i < |a.invitations| ==> a'.invitations[i] == a.invitations[i];
  }

  /** After clearing, the reissued link is one more live link, for an invitation that is pending again. */
  lemma ReissueKeepsDelegated(a: Access, i: InvitationId, actor: ParticipantId, secret: nat, now: Time)
    requires Rows(a) && Delegated(a)
    requires ReissueInvitation(a, i, actor, secret, now).Ok?
    ensures Delegated(ReissueInvitation(a, i, actor, secret, now).value) <==> MayDelegate(a, actor)
  {
    var a' := ReissueInvitation(a, i, actor, secret, now).value;
    var c := Cleared(a, i, now);
    ClearedDelegated(a, i, now);
    ClearedKeepsIssuer(a, i, now);
    var m := ActiveLink(a.links, actor, now).value;
    hide Cleared, RevokeOne, RevokeSet, Below;
    RenewDelegated(c, a', i, m);
  }

  lemma ClearedDelegated(a: Access, i: InvitationId, now: Time)
    requires Rows(a) && Delegated(a) && i < |a.invitations|
    ensures Rows(Cleared(a, i, now)) && Delegated(Cleared(a, i, now)) && Tightens(a, Cleared(a, i, now))
    ensures Cleared(a, i, now).invitations[i] == a.invitations[i]
    ensures forall j :: 0 <= j < |a.invitations| && a.invitations[j].issuer == a.invitations[i].invitee ==>
              !HasLiveLink(Cleared(a, i, now), j)
  {
    var p := a.invitations[i].invitee;
    var once := RevokeSet(a, Below(a, p), now);
    BelowClosed(a, p);
    RevokeClosedCuts(a, Below(a, p), now);
    RevokeSetKeepsRows(a, Below(a, p), now);
    ClearedRows(a, i, now);
    forall j | 0 <= j < |a.invitations| && a.invitations[j].issuer == p ensures !HasLiveLink(once, j) {
      assert once.invitations[j].status == Revoked;
      assert StatusOk(once, once.invitations[j]);
    }
    NotBelowItself(a, i);
    hide Below, Tree, OneLive, CurrentLinks, Statuses, Cut, ClosedBelow;
    LinkOfInvitee(a, i);
    RevokeLeafCuts(once, a.invitations[i].link, now);
  }

  lemma LinkOfInvitee(a: Access, i: InvitationId)
    requires Tree(a) && i < |a.invitations|
    ensures a.invitations[i].link < |a.links| && a.links[a.invitations[i].link].participant == a.invitations[i].invitee
  {
  }

  /** Clearing does not touch the issuer: neither its links nor whether it may delegate. */
  lemma ClearedKeepsIssuer(a: Access, i: InvitationId, now: Time)
    requires Rows(a) && i < |a.invitations|
    ensures var c := Cleared(a, i, now);
            && |c.links| == |a.links|
            && (forall m :: 0 <= m < |a.links| && a.links[m].participant == a.invitations[i].issuer ==> c.links[m] == a.links[m])
            && (MayDelegate(c, a.invitations[i].issuer) <==> MayDelegate(a, a.invitations[i].issuer))
  {
    var below := Below(a, a.invitations[i].invitee);
    IssuerLinksOutside(a, i);
    IssuerOutside(a, i);
    hide Rows, Below, LinksOf;
    var c := Cleared(a, i, now);
    forall j | 0 <= j < |a.invitations| && j !in below ensures c.invitations[j] == a.invitations[j] {}
  }

  lemma IssuerLinksOutside(a: Access, i: InvitationId)
    requires Tree(a) && i < |a.invitations|
    ensures forall m :: 0 <= m < |a.links| && a.links[m].participant == a.invitations[i].issuer ==>
              m !in LinksOf(a, Below(a, a.invitations[i].invitee)) && m != a.invitations[i].link
  {
    NotBelowItself(a, i);
    forall m | 0 <= m < |a.links| && a.links[m].participant == a.invitations[i].issuer
      ensures m !in LinksOf(a, Below(a, a.invitations[i].invitee)) && m != a.invitations[i].link
    {
      ChosenLinks(a, Below(a, a.invitations[i].invitee), m);
    }
  }

  lemma IssuerOutside(a: Access, i: InvitationId)
    requires Tree(a) && i < |a.invitations|
    ensures forall j :: 0 <= j < |a.invitations| && a.invitations[j].invitee == a.invitations[i].issuer ==>
              j !in Below(a, a.invitations[i].invitee)
  {
    NotBelowItself(a, i);
    hide Below;
    forall j | 0 <= j < |a.invitations| && a.invitations[j].invitee == a.invitations[i].issuer
      ensures j !in Below(a, a.invitations[i].invitee)
    {
      assert Invitable(a.invitations[j].role) == Some(a.invitations[i].role);
    }
  }

  lemma RenewDelegated(c: Access, a': Access, i: InvitationId, m: LinkId)
    requires Rows(c) && Delegated(c) && i < |c.invitations| == |a'.invitations| && m < |c.links|
    requires |a'.links| == |c.links| + 1 && a'.links[..|c.links|] == c.links
    requires a'.invitations == c.invitations[i := a'.invitations[i]]
    requires var v := a'.invitations[i];
             && v.issuer == c.invitations[i].issuer && v.invitee == c.invitations[i].invitee
             && v.link == |c.links| && v.status == Pending && Live(a'.links[v.link])
             && c.links[m].participant == v.issuer && Live(c.links[m]) && c.links[m].expiresAt >= v.expiresAt
    requires forall j :: 0 <= j < |c.invitations| && c.invitations[j].issuer == c.invitations[i].invitee ==> !HasLiveLink(c, j)
    ensures Delegated(a') <==> MayDelegate(c, c.invitations[i].issuer)
  {
    var actor := c.invitations[i].issuer;
    OtherMayDelegate(c, a', i, actor);
    assert HasLiveLink(a', i);
    assert a'.links[m] == c.links[m];
    assert Backed(a', actor, a'.invitations[i].expiresAt);
    if MayDelegate(c, actor) {
      forall j | 0 <= j < |a'.invitations| && HasLiveLink(a', j)
        ensures Backed(a', a'.invitations[j].issuer, a'.invitations[j].expiresAt) && MayDelegate(a', a'.invitations[j].issuer)
      {
        if j != i {
          OldLinkStaysBacked(c, a', j);
          OtherMayDelegate(c, a', i, c.invitations[j].issuer);
        }
      }
    }
  }

  lemma OtherMayDelegate(c: Access, a': Access, i: InvitationId, p: ParticipantId)
    requires i < |c.invitations| == |a'.invitations| && a'.invitations == c.invitations[i := a'.invitations[i]]
    requires p != c.invitations[i].invitee == a'.invitations[i].invitee
    ensures MayDelegate(a', p) <==> MayDelegate(c, p)
  {
    assert forall j :: 0 <= j < |c.invitations| && j != i ==> a'.invitations[j] == c.invitations[j];
  }
}
