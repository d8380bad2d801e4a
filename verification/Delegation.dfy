/**
 The access links of one job and the invitations that delegate them, from the
 customer to the company and from the company to the field worker; every command
 as a function from one committed state to the next.
 */
module Delegation {
  import opened Common

  type ParticipantId = nat
  type LinkId = nat
  type InvitationId = nat

  datatype Role = Customer | Manager | Worker

  datatype InvitationStatus = Pending | Accepted | Declined | Expired | Revoked

  datatype Link = Link(participant: ParticipantId, secret: nat, expiresAt: Time, revokedAt: Option<Time>)

  datatype Invitation = Invitation(
    issuer: ParticipantId, invitee: ParticipantId, link: LinkId, role: Role, status: InvitationStatus,
    issuedAt: Time, expiresAt: Time, resolvedAt: Option<Time>)

  /** Rows are identified by their position. */
  datatype Access = Access(participants: seq<Role>, links: seq<Link>, invitations: seq<Invitation>)

  datatype AccessError = WrongRole | Unknown | BadSecret | Conflicting

  const TTL := 7 * 24 * 3600

  // ----------------------------------------------------------------- queries

  predicate Live(link: Link) {
    link.revokedAt.None?
  }

  /** Its participant's link, unrevoked and good for more than another second. */
  predicate Active(link: Link, p: ParticipantId, now: Time) {
    link.participant == p && Live(link) && link.expiresAt > now + 1
  }

  function ActiveLink(links: seq<Link>, p: ParticipantId, now: Time): (found: Option<LinkId>)
    ensures found.Some? ==> found.value < |links| && Active(links[found.value], p, now)
    ensures found.None? ==> forall i :: 0 <= i < |links| ==> !Active(links[i], p, now)
    decreases |links|
  {
    if links == [] then None
    else
      var n := |links| - 1;
      if Active(links[n], p, now) then Some(n) else ActiveLink(links[..n], p, now)
  }

  function Invitable(role: Role): Option<Role> {
    match role
    case Customer => Some(Manager)
    case Manager => Some(Worker)
    case Worker => None
  }

  function InvitationBy(invitations: seq<Invitation>, link: LinkId): (found: Option<InvitationId>)
    ensures found.Some? ==> found.value < |invitations| && invitations[found.value].link == link
    ensures found.None? ==> forall i :: 0 <= i < |invitations| ==> invitations[i].link != link
    decreases |invitations|
  {
    if invitations == [] then None
    else
      var n := |invitations| - 1;
      if invitations[n].link == link then Some(n) else InvitationBy(invitations[..n], link)
  }

  // -------------------------------------------------------------- revocation

  function IssuedBy(a: Access, p: ParticipantId): set<InvitationId> {
    set i | 0 <= i < |a.invitations| && a.invitations[i].issuer == p
  }

  /** An invitation and, for a company, the invitations its invitee issued. */
  function Subtree(a: Access, i: InvitationId): set<InvitationId>
    requires i < |a.invitations|
  {
    {i} + if a.invitations[i].role == Manager then IssuedBy(a, a.invitations[i].invitee) else {}
  }

  /** Everything delegated below a participant. */
  function Below(a: Access, p: ParticipantId): set<InvitationId> {
    set i, j | i in IssuedBy(a, p) && j in Subtree(a, i) :: j
  }

  function RevokedInvitation(invitation: Invitation, now: Time): Invitation {
    invitation.(status := Revoked, resolvedAt := Some(now))
  }

  /** The first revocation of a link stands. */
  function RevokedLink(link: Link, now: Time): Link {
    if Live(link) then link.(revokedAt := Some(now)) else link
  }

  function RevokeLinks(links: seq<Link>, chosen: set<LinkId>, now: Time): (revoked: seq<Link>)
    ensures |revoked| == |links|
    ensures forall l :: 0 <= l < |links| ==> revoked[l] == if l in chosen then RevokedLink(links[l], now) else links[l]
  {
    seq(|links|, l requires 0 <= l < |links| => if l in chosen then RevokedLink(links[l], now) else links[l])
  }

  function RevokeInvitations(invitations: seq<Invitation>, chosen: set<InvitationId>, now: Time): (revoked: seq<Invitation>)
    ensures |revoked| == |invitations|
    ensures forall i :: 0 <= i < |invitations| ==>
              revoked[i] == if i in chosen then RevokedInvitation(invitations[i], now) else invitations[i]
  {
    seq(|invitations|,
        i requires 0 <= i < |invitations| => if i in chosen then RevokedInvitation(invitations[i], now) else invitations[i])
  }

  function LinksOf(a: Access, chosen: set<InvitationId>): set<LinkId> {
    set i | i in chosen && i < |a.invitations| :: a.invitations[i].link
  }

  /** Revokes a set of invitations together with their links, and nothing else. */
  function RevokeSet(a: Access, chosen: set<InvitationId>, now: Time): Access {
    a.(invitations := RevokeInvitations(a.invitations, chosen, now), links := RevokeLinks(a.links, LinksOf(a, chosen), now))
  }

  function RevokeOne(a: Access, link: LinkId, now: Time): Access {
    a.(links := RevokeLinks(a.links, {link}, now))
  }

  // ---------------------------------------------------------------- commands

  function Min(x: Time, y: Time): Time {
    if x < y then x else y
  }

  predicate RoleTaken(a: Access, role: Role) {
    role in a.participants || exists i :: 0 <= i < |a.invitations| && a.invitations[i].role == role
  }

  /** Provisions the next role of the chain with a link that does not outlive its issuer's. */
  function CreateInvitation(a: Access, actor: ParticipantId, role: Role, secret: nat, now: Time): Result<Access, AccessError> {
    if actor >= |a.participants| || Invitable(a.participants[actor]) != Some(role) then Err(WrongRole)
    else
      var issuer := ActiveLink(a.links, actor, now);
      if issuer.None? || RoleTaken(a, role) then Err(Conflicting)
      else
        var expiry := Min(now + TTL, a.links[issuer.value].expiresAt);
        var invitee := |a.participants|;
        var link := |a.links|;
        Ok(Access(a.participants + [role],
                  a.links + [Link(invitee, secret, expiry, None)],
                  a.invitations + [Invitation(actor, invitee, link, role, Pending, now, expiry, None)]))
  }

  function Materialized(invitation: Invitation, now: Time): Invitation {
    if invitation.status == Pending && invitation.expiresAt <= now then invitation.(status := Expired) else invitation
  }

  function Materialize(a: Access, i: InvitationId, now: Time): Access {
    if i >= |a.invitations| then a else a.(invitations := a.invitations[i := Materialized(a.invitations[i], now)])
  }

  predicate HoldsSecret(a: Access, invitation: Invitation, secret: nat) {
    invitation.link < |a.links| && a.links[invitation.link].secret == secret
  }

  function AcceptInvitation(a: Access, i: InvitationId, actor: ParticipantId, secret: nat, now: Time): Result<Access, AccessError> {
    if i >= |a.invitations| || a.invitations[i].invitee != actor then Err(Unknown)
    else
      var invitation := Materialized(a.invitations[i], now);
      if !HoldsSecret(a, invitation, secret) then Err(BadSecret)
      else if invitation.status == Accepted then Ok(a)
      else if invitation.status != Pending then Err(Conflicting)
      else Ok(a.(invitations := a.invitations[i := invitation.(status := Accepted, resolvedAt := Some(now))]))
  }

  /** Declining revokes the invitee's own link; there is nothing below a pending invitation. */
  function DeclineInvitation(a: Access, i: InvitationId, actor: ParticipantId, secret: nat, now: Time): Result<Access, AccessError> {
    if i >= |a.invitations| || a.invitations[i].invitee != actor then Err(Unknown)
    else
      var invitation := Materialized(a.invitations[i], now);
      if !HoldsSecret(a, invitation, secret) then Err(BadSecret)
      else if invitation.status != Pending then Err(Conflicting)
      else
        Ok(RevokeOne(a.(invitations := a.invitations[i := invitation.(status := Declined, resolvedAt := Some(now))]),
                     invitation.link, now))
  }

  function RevokeInvitation(a: Access, i: InvitationId, actor: ParticipantId, now: Time): Result<Access, AccessError> {
    if i >= |a.invitations| || a.invitations[i].issuer != actor then Err(Unknown)
    else if a.invitations[i].status == Revoked then Ok(a)
    else Ok(RevokeSet(a, Subtree(a, i), now))
  }

  /** Nothing below the invitee and not the invitee's own link is live any more. */
  function Cleared(a: Access, i: InvitationId, now: Time): (cleared: Access)
    requires i < |a.invitations|
    ensures |cleared.invitations| == |a.invitations| && |cleared.links| == |a.links|
  {
    RevokeOne(RevokeSet(a, Below(a, a.invitations[i].invitee), now), a.invitations[i].link, now)
  }

  /** The invitation is pending again, with a new link. */
  function Renewed(a: Access, i: InvitationId, secret: nat, expiry: Time, now: Time): Access
    requires i < |a.invitations|
  {
    var v := a.invitations[i].(link := |a.links|, status := Pending, issuedAt := now, expiresAt := expiry, resolvedAt := None);
    a.(links := a.links + [Link(v.invitee, secret, expiry, None)], invitations := a.invitations[i := v])
  }

  /** A new link for the same invitee; whatever the old one delegated is revoked first. */
  function ReissueInvitation(a: Access, i: InvitationId, actor: ParticipantId, secret: nat, now: Time): Result<Access, AccessError> {
    if i >= |a.invitations| || a.invitations[i].issuer != actor then Err(Unknown)
    else
      var issuer := ActiveLink(a.links, actor, now);
      if issuer.None? then Err(Conflicting)
      else Ok(Renewed(Cleared(a, i, now), i, secret, Min(now + TTL, a.links[issuer.value].expiresAt), now))
  }

  /** Revokes one link and everything delegated from its participant. */
  function RevokeLinkTree(a: Access, link: LinkId, now: Time): Access {
    if link >= |a.links| then a
    else
      var invitation := InvitationBy(a.invitations, link);
      if invitation.Some? then RevokeSet(a, Subtree(a, invitation.value), now)
      else RevokeOne(RevokeSet(a, Below(a, a.links[link].participant), now), link, now)
  }

  function RotateSecret(a: Access, link: LinkId, current: nat, secret: nat, now: Time): Result<Access, AccessError> {
    if link >= |a.links| || !Live(a.links[link]) || a.links[link].secret != current || a.links[link].expiresAt <= now then
      Err(BadSecret)
    else
      Ok(a.(links := a.links[link := a.links[link].(secret := secret)]))
  }

  // --------------------------------------------------------------- structure

  function Depth(role: Role): nat {
    match role
    case Customer => 2
    case Manager => 1
    case Worker => 0
  }

  /** Invitations follow the chain of roles, and every row they name exists. */
  ghost predicate Tree(a: Access) {
    && (forall i :: 0 <= i < |a.invitations| ==>
          var v := a.invitations[i];
          && v.issuer < |a.participants| && v.invitee < |a.participants| && v.link < |a.links|
          && a.participants[v.invitee] == v.role
          && Invitable(a.participants[v.issuer]) == Some(v.role)
          && a.links[v.link].participant == v.invitee)
    && (forall l :: 0 <= l < |a.links| ==> a.links[l].participant < |a.participants|)
    && (forall i, j :: 0 <= i < j < |a.invitations| ==>
          a.invitations[i].role != a.invitations[j].role && a.invitations[i].invitee != a.invitations[j].invitee)
    && (forall p, q :: 0 <= p < q < |a.participants| ==> a.participants[p] != a.participants[q])
  }

  // ----------------------------------------------------------------- algebra

  lemma IssuedStays(a: Access, a': Access, p: ParticipantId)
    requires |a'.invitations| == |a.invitations|
    requires forall i :: 0 <= i < |a.invitations| ==> a'.invitations[i].issuer == a.invitations[i].issuer
    ensures IssuedBy(a', p) == IssuedBy(a, p)
  {
  }

  /** Who delegated to whom is not changed by a revocation. */
  lemma SubtreeStays(a: Access, chosen: set<InvitationId>, now: Time, i: InvitationId)
    requires i < |a.invitations|
    ensures Subtree(RevokeSet(a, chosen, now), i) == Subtree(a, i)
  {
    IssuedStays(a, RevokeSet(a, chosen, now), a.invitations[i].invitee);
  }

  /** Revoking in two passes at one time is revoking once. */
  lemma RevokeSetTwice(a: Access, first: set<InvitationId>, second: set<InvitationId>, now: Time)
    ensures RevokeSet(RevokeSet(a, first, now), second, now) == RevokeSet(a, first + second, now)
  {
    var once := RevokeSet(a, first, now);
    var twice := RevokeSet(once, second, now);
    var both := RevokeSet(a, first + second, now);
    assert LinksOf(once, second) == LinksOf(a, second);
    assert LinksOf(a, first + second) == LinksOf(a, first) + LinksOf(a, second);
    assert twice.links == both.links;
    assert twice.invitations == both.invitations;
  }

  lemma RevokeNothing(a: Access, now: Time)
    ensures RevokeSet(a, {}, now) == a
  {
    assert RevokeSet(a, {}, now).links == a.links;
    assert RevokeSet(a, {}, now).invitations == a.invitations;
  }

  /** What a company issued are invitations of workers, who issue nothing. */
  lemma SubtreeIsBelow(a: Access, i: InvitationId)
    requires Tree(a) && i < |a.invitations|
    ensures a.participants[a.invitations[i].invitee] == a.invitations[i].role && a.invitations[i].link < |a.links|
    ensures Subtree(a, i) == (if a.invitations[i].role == Manager then Below(a, a.invitations[i].invitee) else {}) + {i}
  {
    if a.invitations[i].role == Manager {
      var p := a.invitations[i].invitee;
      forall k | k in IssuedBy(a, p) ensures Subtree(a, k) == {k} {
        assert a.invitations[k].role == Worker;
      }
      hide Tree, Subtree;
      forall k | k in IssuedBy(a, p) ensures k in Below(a, p) {
        assert k in Subtree(a, k);
      }
      assert Below(a, p) == IssuedBy(a, p);
    }
  }
}
