/**
 * The header's user label (Frontend/components/GlobalHeader.js): the
 * display name fallback chain and the avatar initial.
 */
module GlobalHeader {
  import opened Values
  import opened Text

  /** The claims tried for the display name, in order. */
  const NameClaims: seq<string> := ["cognito:username", "username", "name", "email"]

  /** The first truthy claim from index `i` on, else 'User'. */
  function FirstTruthyClaim(user: Value, i: nat): (r: Value)
    requires i <= |NameClaims|
    ensures Truthy(r)
    ensures r == Str("User") || exists j :: i <= j < |NameClaims| && r == Get(user, NameClaims[j])
    decreases |NameClaims| - i
  {
    if i == |NameClaims| then Str("User")
    else if Truthy(Get(user, NameClaims[i])) then Get(user, NameClaims[i])
    else FirstTruthyClaim(user, i + 1)
  }

  /** `getDisplayUsername`. */
  function DisplayUsername(user: Value): (r: Value)
    ensures Truthy(r)
  {
    FirstTruthyClaim(user, 0)
  }

  /**
   * `getAvatarInitial`: the first character, upper-cased. A truthy claim
   * that is not a string has no `charAt`, and the call throws (None).
   */
  function AvatarInitial(user: Value): (r: Option<string>)
    ensures DisplayUsername(user).Str? <==> r.Some?
    ensures r.Some? ==> |r.value| == 1 && r.value[0] == UpperChar(DisplayUsername(user).s[0])
  {
    var name := DisplayUsername(user);
    if name.Str? then Some([UpperChar(name.s[0])]) else None
  }

  /** The display name is the first truthy of the four claims, else 'User'. */
  lemma {:induction false} DisplayUsernameIsFirstTruthy(user: Value, k: nat)
    requires k < |NameClaims|
    requires Truthy(Get(user, NameClaims[k]))
    requires forall j :: 0 <= j < k ==> !Truthy(Get(user, NameClaims[j]))
    ensures DisplayUsername(user) == Get(user, NameClaims[k])
  {
    FirstTruthyFrom(user, 0, k);
  }

  lemma {:induction false} FirstTruthyFrom(user: Value, i: nat, k: nat)
    requires i <= k < |NameClaims|
    requires Truthy(Get(user, NameClaims[k]))
    requires forall j :: i <= j < k ==> !Truthy(Get(user, NameClaims[j]))
    ensures FirstTruthyClaim(user, i) == Get(user, NameClaims[k])
    decreases k - i
  {
    if i < k {
      FirstTruthyFrom(user, i + 1, k);
    }
  }

  /** With none of the claims truthy the label is 'User'. */
  lemma {:induction false} NoClaimsGivesUser(user: Value)
    requires forall j :: 0 <= j < |NameClaims| ==> !Truthy(Get(user, NameClaims[j]))
    ensures DisplayUsername(user) == Str("User")
  {
    assert !Truthy(Get(user, NameClaims[0]));
    assert !Truthy(Get(user, NameClaims[1]));
    assert !Truthy(Get(user, NameClaims[2]));
    assert !Truthy(Get(user, NameClaims[3]));
  }

  /** A missing user (null or undefined) shows 'User' and the initial 'U'. */
  lemma NoUserShowsU(user: Value)
    requires user == Null || user == Undefined
    ensures DisplayUsername(user) == Str("User") && AvatarInitial(user) == Some("U")
  {
    NoClaimsGivesUser(user);
  }

  /** When every claim present is a string, the initial always exists. */
  lemma StringClaimsHaveInitial(user: Value)
    requires forall j :: 0 <= j < |NameClaims| ==> Get(user, NameClaims[j]).Str? || !Truthy(Get(user, NameClaims[j]))
    ensures AvatarInitial(user).Some?
  {
    var r := DisplayUsername(user);
    if r != Str("User") {
      var j :| 0 <= j < |NameClaims| && r == Get(user, NameClaims[j]);
    }
  }
}
