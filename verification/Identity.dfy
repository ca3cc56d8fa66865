/** The identity an SSO provider confirms, and how it is matched to the SSH user. */
module Identity {
  import opened Text

  datatype Identity = Identity(subject: string, preferredUsername: string, email: string)

  /** The first claim that is not blank. */
  function BestIdentifier(i: Identity): string {
    if !Blank(i.preferredUsername) then TrimSpace(i.preferredUsername)
    else if !Blank(i.email) then TrimSpace(i.email)
    else TrimSpace(i.subject)
  }

  /** A claim matches the folded user name in full or by its part before '@'. */
  predicate ClaimMatches(claim: string, user: string) {
    var c := Folded(claim);
    && c != ""
    && (c == user || (Index(c, '@') > 0 && c[..Index(c, '@')] == user))
  }

  predicate MatchesSSHUser(i: Identity, user: string) {
    var u := Folded(user);
    && u != ""
    && (ClaimMatches(i.preferredUsername, u) || ClaimMatches(i.email, u) || ClaimMatches(i.subject, u))
  }

  /** A claim that is, once folded, the user name itself or an address at it. */
  ghost predicate Names(claim: string, user: string) {
    || Folded(claim) == Folded(user)
    || ('@' !in Folded(user) && exists domain :: Folded(claim) == Folded(user) + "@" + domain)
  }

  /** An identity stands for a user that is not blank when one of its claims names the user. */
  ghost predicate StandsFor(i: Identity, user: string) {
    !Blank(user) && (Names(i.preferredUsername, user) || Names(i.email, user) || Names(i.subject, user))
  }

  lemma ClaimMatchesIff(claim: string, user: string)
    requires Folded(user) != ""
    ensures ClaimMatches(claim, Folded(user)) <==> Names(claim, user)
  {
    hide Folded, Index;
    var c, u := Folded(claim), Folded(user);
    var at := Index(c, '@');
    if ClaimMatches(claim, u) && c != u {
      assert c == u + "@" + c[at + 1..];
      assert Names(claim, user);
    }
    if Names(claim, user) && c != u {
      var domain :| c == u + "@" + domain;
      assert c[..|u|] == u && c[|u|] == '@';
      IndexAt(c, '@', |u|);
    }
  }

  /** The matching accepts exactly the identities that stand for the user. */
  lemma MatchesIff(i: Identity, user: string)
    ensures MatchesSSHUser(i, user) <==> StandsFor(i, user)
  {
    hide ClaimMatches, Names, TrimSpace;
    assert |Folded(user)| == |TrimSpace(user)|;
    if Folded(user) != "" {
      ClaimMatchesIff(i.preferredUsername, user);
      ClaimMatchesIff(i.email, user);
      ClaimMatchesIff(i.subject, user);
    }
  }

  /** The identifier is the first claim that has one: the user name, the address, the subject. */
  lemma BestIdentifierIs(i: Identity)
    ensures BestIdentifier(i) == "" <==> Blank(i.preferredUsername) && Blank(i.email) && Blank(i.subject)
    ensures !Blank(i.preferredUsername) ==> BestIdentifier(i) == TrimSpace(i.preferredUsername)
    ensures Blank(i.preferredUsername) && !Blank(i.email) ==> BestIdentifier(i) == TrimSpace(i.email)
    ensures Blank(i.preferredUsername) && Blank(i.email) ==> BestIdentifier(i) == TrimSpace(i.subject)
  {
  }

  /** An identity that matches anyone has an identifier to log, and matches no blank user. */
  lemma MatchHasIdentifier(i: Identity, user: string)
    requires MatchesSSHUser(i, user)
    ensures BestIdentifier(i) != "" && !Blank(user)
  {
    assert |Folded(i.preferredUsername)| == |TrimSpace(i.preferredUsername)|;
    assert |Folded(i.email)| == |TrimSpace(i.email)|;
    assert |Folded(i.subject)| == |TrimSpace(i.subject)|;
  }

  /** The name the SSO gate matches against: "unknown" stands in for a blank SSH user. */
  function EffectiveUser(user: string): string { if Blank(user) then "unknown" else user }
}
