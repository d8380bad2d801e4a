/**
 Cascading revocation and the invitation commands as they update the rows in place.
 The two revocation procedures call each other; they terminate because every
 invitation lies one role further down the chain than its issuer.
 */
module DelegationService {
  import opened Common
  import opened Delegation

  class AccessRecords {
    var participants: seq<Role>
    var links: seq<Link>
    var invitations: seq<Invitation>

    /** A new job: its customer and the customer's link. */
    constructor (secret: nat, now: Time)
      ensures State() == Access([Customer], [Link(0, secret, now + TTL, None)], [])
    {
      participants, links, invitations := [Customer], [Link(0, secret, now + TTL, None)], [];
    }

    function State(): Access
      reads this
    {
      Access(participants, links, invitations)
    }

    method RevokeLink(link: LinkId, now: Time)
      requires link < |links|
      modifies this`links
      ensures State() == RevokeOne(old(State()), link, now)
    {
      if links[link].revokedAt.None? {
        links := links[link := links[link].(revokedAt := Some(now))];
      }
      assert links == RevokeLinks(old(links), {link}, now);
    }

    /** Revokes every tree whose root was issued by one participant. */
    method RevokeIssuedBy(p: ParticipantId, now: Time)
      requires Tree(State()) && p < |participants|
      modifies this`links, this`invitations
      ensures State() == RevokeSet(old(State()), Below(old(State()), p), now)
      decreases Depth(participants[p]), 0
    {
      ghost var was := State();
      RevokeNothing(was, now);
      BelowNone(was, p);
      IssuedIsDeeper(was, p);
      RevokedRows(was, {}, now);
      hide RevokeSet, Subtree, Tree, Below, BelowUpTo, Depth;
      for i := 0 to |invitations|
        invariant participants == was.participants && |invitations| == |was.invitations|
        invariant State() == RevokeSet(was, BelowUpTo(was, p, i), now)
      {
        RevokedRows(was, BelowUpTo(was, p, i), now);
        TreeStays(was, BelowUpTo(was, p, i), now);
        BelowNext(was, p, i);
        if invitations[i].issuer == p {
          SubtreeStays(was, BelowUpTo(was, p, i), now, i);
          RevokeSetTwice(was, BelowUpTo(was, p, i), Subtree(was, i), now);
          RevokeTree(i, now);
          RevokedRows(was, BelowUpTo(was, p, i + 1), now);
        }
      }
      BelowAll(was, p);
    }

    /** Revokes an invitation, its link, and first whatever its invitee issued. */
    method RevokeTree(i: InvitationId, now: Time)
      requires Tree(State()) && i < |invitations|
      modifies this`links, this`invitations
      ensures State() == RevokeSet(old(State()), Subtree(old(State()), i), now)
      decreases Depth(invitations[i].role), 1
    {
      ghost var was := State();
      ghost var below: set<InvitationId> := {};
      RevokeNothing(was, now);
      SubtreeIsBelow(was, i);
      if invitations[i].role == Manager {
        below := Below(was, invitations[i].invitee);
        RevokeIssuedBy(invitations[i].invitee, now);
      }
      RevokedRows(was, below, now);
      RevokeSetTwice(was, below, {i}, now);
      hide RevokeSet, Subtree, Tree, Below;
      ghost var before := State();
      invitations := invitations[i := RevokedInvitation(invitations[i], now)];
      RevokeLink(invitations[i].link, now);
      RevokeSingle(before, i, now);
    }

    /** Revokes one link and every invitation delegated from its participant. */
    method RevokeTreeOfLink(link: LinkId, now: Time)
      requires Tree(State()) && link < |links|
      modifies this`links, this`invitations
      ensures State() == RevokeLinkTree(old(State()), link, now)
    {
      var invitation := InvitationBy(invitations, link);
      if invitation.Some? {
        RevokeTree(invitation.value, now);
      } else {
        RevokeIssuedBy(links[link].participant, now);
        RevokeLink(link, now);
      }
    }

    method Create(actor: ParticipantId, role: Role, secret: nat, now: Time) returns (outcome: Result<InvitationId, AccessError>)
      modifies this
      ensures match CreateInvitation(old(State()), actor, role, secret, now)
              case Err(e) => outcome == Err(e) && State() == old(State())
              case Ok(a) => outcome == Ok(|old(invitations)|) && State() == a
    {
      if actor >= |participants| || Invitable(participants[actor]) != Some(role) {
        return Err(WrongRole);
      }
      var issuer := ActiveLink(links, actor, now);
      if issuer.None? || RoleTaken(State(), role) {
        return Err(Conflicting);
      }
      var expiry := Min(now + TTL, links[issuer.value].expiresAt);
      var invitation := Invitation(actor, |participants|, |links|, role, Pending, now, expiry, None);
      links := links + [Link(|participants|, secret, expiry, None)];
      participants := participants + [role];
      invitations := invitations + [invitation];
      outcome := Ok(|invitations| - 1);
    }

    method Decline(i: InvitationId, actor: ParticipantId, secret: nat, now: Time) returns (outcome: Result<(), AccessError>)
      requires Tree(State())
      modifies this`links, this`invitations
      ensures match DeclineInvitation(old(State()), i, actor, secret, now)
              case Err(e) => outcome == Err(e) && State() == old(State())
              case Ok(a) => outcome == Ok(()) && State() == a
    {
      if i >= |invitations| || invitations[i].invitee != actor {
        return Err(Unknown);
      }
      var invitation := Materialized(invitations[i], now);
      if links[invitation.link].secret != secret {
        return Err(BadSecret);
      }
      if invitation.status != Pending {
        return Err(Conflicting);
      }
      invitations := invitations[i := invitation.(status := Declined, resolvedAt := Some(now))];
      RevokeLink(invitation.link, now);
      outcome := Ok(());
    }

    method Accept(i: InvitationId, actor: ParticipantId, secret: nat, now: Time) returns (outcome: Result<(), AccessError>)
      requires Tree(State())
      modifies this`invitations
      ensures match AcceptInvitation(old(State()), i, actor, secret, now)
              case Err(e) => outcome == Err(e) && State() == old(State())
              case Ok(a) => outcome == Ok(()) && State() == a
    {
      if i >= |invitations| || invitations[i].invitee != actor {
        return Err(Unknown);
      }
      var invitation := Materialized(invitations[i], now);
      if links[invitation.link].secret != secret {
        return Err(BadSecret);
      }
      if invitation.status == Accepted {
        return Ok(());
      }
      if invitation.status != Pending {
        return Err(Conflicting);
      }
      invitations := invitations[i := invitation.(status := Accepted, resolvedAt := Some(now))];
      outcome := Ok(());
    }

    method RevokeByIssuer(i: InvitationId, actor: ParticipantId, now: Time) returns (outcome: Result<(), AccessError>)
      requires Tree(State())
      modifies this`links, this`invitations
      ensures match RevokeInvitation(old(State()), i, actor, now)
              case Err(e) => outcome == Err(e) && State() == old(State())
              case Ok(a) => outcome == Ok(()) && State() == a
    {
      if i >= |invitations| || invitations[i].issuer != actor {
        return Err(Unknown);
      }
      if invitations[i].status != Revoked {
        RevokeTree(i, now);
      }
      outcome := Ok(());
    }

    /** What a reissue revokes first: everything below the invitee, and the invitee's own link. */
    method Clear(i: InvitationId, now: Time)
      requires Tree(State()) && i < |invitations|
      modifies this`links, this`invitations
      ensures State() == Cleared(old(State()), i, now)
    {
      InviteeKnown(State(), i);
      RevokedRows(State(), Below(State(), invitations[i].invitee), now);
      hide Tree, Below, RevokeSet;
      var link := invitations[i].link;
      RevokeIssuedBy(invitations[i].invitee, now);
      RevokeLink(link, now);
    }

    method Reissue(i: InvitationId, actor: ParticipantId, secret: nat, now: Time) returns (outcome: Result<LinkId, AccessError>)
      requires Tree(State())
      modifies this`links, this`invitations
      ensures match ReissueInvitation(old(State()), i, actor, secret, now)
              case Err(e) => outcome == Err(e) && State() == old(State())
              case Ok(a) => outcome == Ok(|old(links)|) && State() == a
    {
      if i >= |invitations| || invitations[i].issuer != actor {
        return Err(Unknown);
      }
      hide Tree, Cleared, Renewed, ActiveLink;
      var issuer := ActiveLink(links, actor, now);
      if issuer.None? {
        return Err(Conflicting);
      }
      var expiry := Min(now + TTL, links[issuer.value].expiresAt);
      Clear(i, now);
      Renew(i, secret, expiry, now);
      outcome := Ok(|links| - 1);
    }

    method Renew(i: InvitationId, secret: nat, expiry: Time, now: Time)
      requires i < |invitations|
      modifies this`links, this`invitations
      ensures State() == Renewed(old(State()), i, secret, expiry, now) && |links| == |old(links)| + 1
    {
      var invitation := invitations[i];
      var renewed := invitation.(link := |links|, status := Pending, issuedAt := now, expiresAt := expiry, resolvedAt := None);
      links := links + [Link(invitation.invitee, secret, expiry, None)];
      invitations := invitations[i := renewed];
    }
  }

  lemma InviteeKnown(a: Access, i: InvitationId)
    requires Tree(a) && i < |a.invitations|
    ensures a.invitations[i].invitee < |a.participants| && a.invitations[i].link < |a.links|
  {
  }

  /** A revocation keeps the tree. */
  lemma TreeStays(a: Access, chosen: set<InvitationId>, now: Time)
    requires Tree(a)
    ensures Tree(RevokeSet(a, chosen, now))
  {
    RevokedRows(a, chosen, now);
    hide RevokeSet;
  }

  /** The rows of the trees among the first n invitations. */
  function BelowUpTo(a: Access, p: ParticipantId, n: nat): set<InvitationId>
    requires n <= |a.invitations|
  {
    set k, j | 0 <= k < n && a.invitations[k].issuer == p && j in Subtree(a, k) :: j
  }

  lemma BelowNone(a: Access, p: ParticipantId)
    ensures BelowUpTo(a, p, 0) == {}
  {
  }

  lemma BelowNext(a: Access, p: ParticipantId, n: nat)
    requires n < |a.invitations|
    ensures a.invitations[n].issuer == p ==> BelowUpTo(a, p, n + 1) == BelowUpTo(a, p, n) + Subtree(a, n)
    ensures a.invitations[n].issuer != p ==> BelowUpTo(a, p, n + 1) == BelowUpTo(a, p, n)
  {
  }

  lemma BelowAll(a: Access, p: ParticipantId)
    ensures BelowUpTo(a, p, |a.invitations|) == Below(a, p)
  {
  }

  /** A revocation keeps who issued what to whom, and every invitation lies below its issuer's role. */
  lemma RevokedRows(a: Access, chosen: set<InvitationId>, now: Time)
    ensures var b := RevokeSet(a, chosen, now);
            && b.participants == a.participants && |b.invitations| == |a.invitations| && |b.links| == |a.links|
            && (forall k :: 0 <= k < |a.invitations| ==>
                  && b.invitations[k].issuer == a.invitations[k].issuer
                  && b.invitations[k].invitee == a.invitations[k].invitee
                  && b.invitations[k].role == a.invitations[k].role
                  && b.invitations[k].link == a.invitations[k].link)
            && (forall l :: 0 <= l < |a.links| ==> b.links[l].participant == a.links[l].participant)
  {
  }

  lemma IssuedIsDeeper(a: Access, p: ParticipantId)
    requires Tree(a) && p < |a.participants|
    ensures forall k :: 0 <= k < |a.invitations| && a.invitations[k].issuer == p ==>
              Depth(a.invitations[k].role) < Depth(a.participants[p])
  {
  }

  lemma RevokeSingle(a: Access, i: InvitationId, now: Time)
    requires i < |a.invitations|
    ensures RevokeOne(a.(invitations := a.invitations[i := RevokedInvitation(a.invitations[i], now)]), a.invitations[i].link, now)
            == RevokeSet(a, {i}, now)
  {
    assert LinksOf(a, {i}) == {a.invitations[i].link};
    assert a.invitations[i := RevokedInvitation(a.invitations[i], now)] == RevokeInvitations(a.invitations, {i}, now);
  }
}
