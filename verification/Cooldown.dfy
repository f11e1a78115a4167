// storage/failures.py and pipeline/failure.py: at most one failure comment per pull request and cooldown.
module Cooldown {
  import opened Common

  /** Whether the slot is free: no record, or a record at least `cooldown` old. */
  predicate SlotFree(lastPosted: map<PrKey, int>, pr: PrKey, now: int, cooldown: nat) {
    pr in lastPosted ==> lastPosted[pr] <= now - cooldown
  }

  class FailureCooldowns {
    var lastPosted: map<PrKey, int>

    constructor ()
      ensures lastPosted == map[]
    {
      lastPosted := map[];
    }

    method ClaimFailureSlot(pr: PrKey, cooldown: nat, now: int) returns (granted: bool)
      modifies this
      ensures granted <==> (pr in old(lastPosted) ==> old(lastPosted)[pr] + cooldown <= now)
      ensures lastPosted == if granted then old(lastPosted)[pr := now] else old(lastPosted)
    {
      var cutoff := now - cooldown;
      if pr in lastPosted && lastPosted[pr] > cutoff {
        return false;
      }
      lastPosted := lastPosted[pr := now];
      granted := true;
    }

    /** `accepted` is whether GitHub takes the comment; an error while posting is swallowed. */
    method MaybePostFailureComment(pr: PrKey, cooldown: nat, now: int, accepted: bool)
      returns (attempted: bool, posted: bool)
      modifies this
      ensures attempted <==> (pr in old(lastPosted) ==> old(lastPosted)[pr] + cooldown <= now)
      ensures posted <==> attempted && accepted
      ensures lastPosted == if attempted then old(lastPosted)[pr := now] else old(lastPosted)
    {
      var allowed := ClaimFailureSlot(pr, cooldown, now);
      if !allowed {
        return false, false;
      }
      attempted := true;
      posted := accepted;
    }
  }

  // ---------- runs of claims ----------

  datatype Claim = Claim(pr: PrKey, now: int)

  function AfterClaims(claims: seq<Claim>, cooldown: nat): map<PrKey, int> {
    if claims == [] then map[]
    else
      var last := claims[|claims| - 1];
      var table := AfterClaims(claims[..|claims| - 1], cooldown);
      if SlotFree(table, last.pr, last.now, cooldown) then table[last.pr := last.now] else table
  }

  /** The instants at which claims for `pr` were granted, in order. */
  function Grants(claims: seq<Claim>, cooldown: nat, pr: PrKey): seq<int> {
    if claims == [] then []
    else
      var last := claims[|claims| - 1];
      var before := claims[..|claims| - 1];
      Grants(before, cooldown, pr) +
      if last.pr == pr && SlotFree(AfterClaims(before, cooldown), pr, last.now, cooldown) then [last.now] else []
  }

  function ClaimsFor(claims: seq<Claim>, pr: PrKey): seq<Claim> {
    if claims == [] then []
    else
      var last := claims[|claims| - 1];
      ClaimsFor(claims[..|claims| - 1], pr) + if last.pr == pr then [last] else []
  }

  ghost predicate Spaced(instants: seq<int>, gap: nat) {
    forall i, k :: 0 <= i < k < |instants| ==> instants[i] + gap <= instants[k]
  }

  /** The table row of a pull request is its latest grant, and grants are at least a cooldown apart. */
  lemma {:induction false} GrantsAreSpaced(claims: seq<Claim>, cooldown: nat, pr: PrKey)
    ensures Spaced(Grants(claims, cooldown, pr), cooldown)
    ensures var grants, table := Grants(claims, cooldown, pr), AfterClaims(claims, cooldown);
            && (pr in table <==> grants != [])
            && (grants != [] ==> table[pr] == grants[|grants| - 1])
  {
    if claims != [] {
      GrantsAreSpaced(claims[..|claims| - 1], cooldown, pr);
    }
  }

  /**
   * Whatever the clock does, a claim is granted exactly when every earlier grant of the same pull request
   * lies at least a cooldown in the past.
   */
  lemma GrantedIffAllGrantsAreOld(claims: seq<Claim>, cooldown: nat, pr: PrKey, now: int)
    ensures Grants(claims + [Claim(pr, now)], cooldown, pr) == Grants(claims, cooldown, pr) + [now] <==>
            forall g :: g in Grants(claims, cooldown, pr) ==> g + cooldown <= now
  {
    GrantsAreSpaced(claims, cooldown, pr);
    var grants := Grants(claims, cooldown, pr);
    assert (claims + [Claim(pr, now)])[..|claims|] == claims;
    if grants != [] {
      assert grants[|grants| - 1] in grants;
    }
  }

  lemma {:induction false} SpacedSpan(instants: seq<int>, gap: nat)
    requires Spaced(instants, gap) && instants != []
    ensures (|instants| - 1) * gap <= instants[|instants| - 1] - instants[0]
  {
    var n := |instants| - 1;
    if n > 0 {
      SpacedSpan(instants[..n], gap);
      assert n * gap == (n - 1) * gap + gap;
    }
  }

  /** Any `n` consecutive grants that fall into a window of length `window` satisfy (n - 1) * cooldown <= window. */
  lemma CommentsPerWindow(claims: seq<Claim>, cooldown: nat, pr: PrKey, from: nat, to: nat, start: int, window: nat)
    requires from < to <= |Grants(claims, cooldown, pr)|
    requires forall i :: from <= i < to ==> start <= Grants(claims, cooldown, pr)[i] <= start + window
    ensures (to - from - 1) * cooldown <= window
  {
    GrantsAreSpaced(claims, cooldown, pr);
    var grants := Grants(claims, cooldown, pr);
    SpacedSpan(grants[from..to], cooldown);
  }

  /** Claims for other pull requests never matter. */
  lemma {:induction false} OtherPullRequestsDoNotMatter(claims: seq<Claim>, cooldown: nat, pr: PrKey)
    ensures Grants(claims, cooldown, pr) == Grants(ClaimsFor(claims, pr), cooldown, pr)
  {
    if claims != [] {
      var n := |claims| - 1;
      var before := claims[..n];
      OtherPullRequestsDoNotMatter(before, cooldown, pr);
      GrantsAreSpaced(before, cooldown, pr);
      GrantsAreSpaced(ClaimsFor(before, pr), cooldown, pr);
      if claims[n].pr == pr {
        assert (ClaimsFor(before, pr) + [claims[n]])[..|ClaimsFor(before, pr)|] == ClaimsFor(before, pr);
      } else {
        assert ClaimsFor(claims, pr) == ClaimsFor(before, pr);
      }
    }
  }
}
