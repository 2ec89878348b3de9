/** Checking the vote extensions of an extended commit (`baseapp/abci_utils.go`). */
module VoteExtensions {
  import opened Bytes

  datatype Validator = Validator(address: Key, power: int)

  datatype BlockIdFlag = Absent | Commit | Nil

  datatype Vote = Vote(validator: Validator, flag: BlockIdFlag, extension: Key, signature: Key)

  datatype ExtendedCommit = ExtendedCommit(round: int, votes: seq<Vote>)

  datatype LastCommit = LastCommit(round: int, validators: seq<Validator>)

  const TWO_63: int := 0x8000_0000_0000_0000

  /** Sums of signed 64-bit numbers wrap around. */
  function Int64(x: int): int {
    (x + TWO_63) % (2 * TWO_63) - TWO_63
  }

  lemma NoWrap(x: int)
    requires 0 <= x < TWO_63
    ensures Int64(x) == x && 0 <= Third(x) < TWO_63 - 1 && Int64(Third(x) + 1) == x / 3 + 1
  {
  }

  /** Division that truncates towards zero. */
  function Third(x: int): int {
    if x < 0 then -(-x / 3) else x / 3
  }

  /** Voting power first, larger ones before, and then the address. */
  predicate Before(a: Validator, b: Validator) {
    if a.power == b.power then AtMost(a.address, b.address) else a.power > b.power
  }

  /** The extended commit is about the validators of the last commit, each of them once and in order. */
  ghost predicate SameValidators(ec: ExtendedCommit, lc: LastCommit) {
    && ec.round == lc.round && |ec.votes| == |lc.validators|
    && (forall i :: 0 <= i < |ec.votes| ==> ec.votes[i].validator == lc.validators[i])
    && (forall i :: 0 < i < |ec.votes| ==> Before(ec.votes[i - 1].validator, ec.votes[i].validator))
    && (forall i, j :: 0 <= i < j < |ec.votes| ==> ec.votes[i].validator.address != ec.votes[j].validator.address)
  }

  method ValidateAgainstLastCommit(ec: ExtendedCommit, lc: LastCommit) returns (ok: bool)
    ensures ok <==> SameValidators(ec, lc)
  {
    if ec.round != lc.round || |ec.votes| != |lc.validators| {
      return false;
    }
    var i := 1;
    while i < |ec.votes|
      invariant 1 <= i && (i <= |ec.votes| || |ec.votes| == 0)
      invariant forall j :: 0 < j < i && j < |ec.votes| ==> Before(ec.votes[j - 1].validator, ec.votes[j].validator)
    {
      if !Before(ec.votes[i - 1].validator, ec.votes[i].validator) {
        return false;
      }
      i := i + 1;
    }
    var addressCache: set<Key> := {};
    i := 0;
    while i < |ec.votes|
      invariant 0 <= i <= |ec.votes|
      invariant addressCache == set j | 0 <= j < i :: ec.votes[j].validator.address
      invariant forall j :: 0 <= j < i ==> ec.votes[j].validator == lc.validators[j]
      invariant forall j, k :: 0 <= j < k < i ==> ec.votes[j].validator.address != ec.votes[k].validator.address
    {
      var v := ec.votes[i].validator;
      if v.address in addressCache {
        return false;
      }
      addressCache := addressCache + {v.address};
      if v.address != lc.validators[i].address {
        return false;
      }
      if v.power != lc.validators[i].power {
        return false;
      }
      i := i + 1;
    }
    return true;
  }

  /** The power of the validators among the first `n` whose votes count. */
  function Power(validators: seq<Validator>, counted: set<nat>, n: nat): int
    requires n <= |validators|
  {
    if n == 0 then 0
    else Power(validators, counted, n - 1) + if n - 1 in counted then validators[n - 1].power else 0
  }

  function Sum(validators: seq<Validator>, n: nat): int
    requires n <= |validators|
  {
    if n == 0 then 0 else Sum(validators, n - 1) + validators[n - 1].power
  }

  function Total(validators: seq<Validator>): int {
    Sum(validators, |validators|)
  }

  /** Powers are not negative and twice their sum is a signed 64-bit number. */
  predicate PowersOk(validators: seq<Validator>) {
    (forall i :: 0 <= i < |validators| ==> validators[i].power >= 0) && Total(validators) * 2 < TWO_63
  }

  lemma {:induction false} SumBounds(validators: seq<Validator>, n: nat, m: nat)
    requires n <= m <= |validators| && forall i :: 0 <= i < |validators| ==> validators[i].power >= 0
    ensures 0 <= Sum(validators, n) <= Sum(validators, m)
    decreases m
  {
    if n < m {
      SumBounds(validators, n, m - 1);
    } else if n > 0 {
      SumBounds(validators, n - 1, m - 1);
    }
  }

  lemma {:induction false} PowerBounds(validators: seq<Validator>, counted: set<nat>, n: nat, m: nat)
    requires n <= m <= |validators| && forall i :: 0 <= i < |validators| ==> validators[i].power >= 0
    ensures 0 <= Power(validators, counted, n) <= Sum(validators, m)
    decreases m
  {
    if n < m {
      PowerBounds(validators, counted, n, m - 1);
    } else if n > 0 {
      PowerBounds(validators, counted, n - 1, m - 1);
    }
  }

  /** The votes for the block; in an accepted commit their extensions have been verified. */
  function Verified(ec: ExtendedCommit): set<nat> {
    set i: nat | i < |ec.votes| && ec.votes[i].flag == Commit
  }

  /** Every vote for the block has an extension that verifies; without extensions, none has one. */
  predicate ExtensionsOk(ec: ExtendedCommit, enabled: bool, verifies: (int, Vote) -> bool, n: nat)
    requires n <= |ec.votes|
  {
    forall i :: 0 <= i < n && ec.votes[i].flag == Commit ==>
      if enabled then ec.votes[i].signature != [] && verifies(ec.round, ec.votes[i])
      else ec.votes[i].extension == [] && ec.votes[i].signature == []
  }

  /** What it takes for an extended commit to be accepted. */
  ghost predicate Accepted(ec: ExtendedCommit, lc: LastCommit, enabled: bool, verifies: (int, Vote) -> bool) {
    && SameValidators(ec, lc) && ExtensionsOk(ec, enabled, verifies, |ec.votes|) && enabled
    && Total(lc.validators) > 0 && 3 * Power(lc.validators, Verified(ec), |ec.votes|) > 2 * Total(lc.validators)
  }

  /**
   * `verifies` stands for finding the validator's key and checking the signature of the extension
   * for the previous height and the round of the commit.
   */
  method ValidateVoteExtensions(ec: ExtendedCommit, lc: LastCommit, enabled: bool, verifies: (int, Vote) -> bool)
    returns (ok: bool)
    ensures PowersOk(lc.validators) ==> (ok <==> Accepted(ec, lc, enabled, verifies))
    ensures ok ==> SameValidators(ec, lc) && ExtensionsOk(ec, enabled, verifies, |ec.votes|)
  {
    ok := ValidateAgainstLastCommit(ec, lc);
    if !ok {
      return;
    }
    var totalVP, sumVP;
    ok, totalVP, sumVP := TallyVotes(ec, lc, enabled, verifies);
    if !ok || totalVP <= 0 {
      return false;
    }
    if PowersOk(lc.validators) {
      NoWrap(totalVP * 2);
    }
    var requiredVP := Int64(Third(Int64(totalVP * 2)) + 1);
    return sumVP >= requiredVP;
  }

  /** Adds up the powers, and those of the votes whose extensions verify. */
  method TallyVotes(ec: ExtendedCommit, lc: LastCommit, enabled: bool, verifies: (int, Vote) -> bool)
    returns (ok: bool, totalVP: int, sumVP: int)
    requires SameValidators(ec, lc)
    ensures ok <==> ExtensionsOk(ec, enabled, verifies, |ec.votes|)
    ensures ok && PowersOk(lc.validators) ==> totalVP == Total(lc.validators)
    ensures ok && PowersOk(lc.validators) ==>
              sumVP == if enabled then Power(lc.validators, Verified(ec), |ec.votes|) else 0
  {
    totalVP, sumVP := 0, 0;
    var i := 0;
    while i < |ec.votes|
      invariant 0 <= i <= |ec.votes| && ExtensionsOk(ec, enabled, verifies, i)
      invariant PowersOk(lc.validators) ==> totalVP == Sum(lc.validators, i)
      invariant PowersOk(lc.validators) ==> sumVP == if enabled then Power(lc.validators, Verified(ec), i) else 0
    {
      var vote := ec.votes[i];
      if PowersOk(lc.validators) {
        Fits(lc.validators, Verified(ec), i);
      }
      totalVP := Int64(totalVP + vote.validator.power);
      if vote.flag == Commit {
        if !enabled {
          if vote.extension != [] || vote.signature != [] {
            return false, totalVP, sumVP;
          }
        } else {
          if vote.signature == [] || !verifies(ec.round, vote) {
            return false, totalVP, sumVP;
          }
          sumVP := Int64(sumVP + vote.validator.power);
        }
      }
      i := i + 1;
    }
    return true, totalVP, sumVP;
  }

  /** Adding the power of one more validator does not wrap around. */
  lemma Fits(validators: seq<Validator>, counted: set<nat>, i: nat)
    requires i < |validators| && PowersOk(validators)
    ensures Int64(Sum(validators, i) + validators[i].power) == Sum(validators, i + 1)
    ensures i in counted ==>
              Int64(Power(validators, counted, i) + validators[i].power) == Power(validators, counted, i + 1)
  {
    SumBounds(validators, i + 1, |validators|);
    PowerBounds(validators, counted, i + 1, |validators|);
    NoWrap(Sum(validators, i + 1));
    NoWrap(Power(validators, counted, i + 1));
  }

  // ---------------------------------------------------------------------------
  // Quorums
  // ---------------------------------------------------------------------------

  /** Power is counted twice exactly where two sets overlap. */
  lemma {:induction false} Overlap(validators: seq<Validator>, a: set<nat>, b: set<nat>, n: nat)
    requires n <= |validators| && forall i :: 0 <= i < |validators| ==> validators[i].power >= 0
    ensures Power(validators, a, n) + Power(validators, b, n)
            <= Sum(validators, n) + Power(validators, a * b, n)
  {
    if n > 0 {
      Overlap(validators, a, b, n - 1);
    }
  }

  /**
   * Two extended commits that are accepted against the same last commit: the validators whose
   * extensions were verified in both hold more than a third of the power.
   */
  lemma QuorumsIntersect(e1: ExtendedCommit, e2: ExtendedCommit, lc: LastCommit, enabled1: bool, enabled2: bool,
                         verifies1: (int, Vote) -> bool, verifies2: (int, Vote) -> bool)
    requires PowersOk(lc.validators)
    requires Accepted(e1, lc, enabled1, verifies1) && Accepted(e2, lc, enabled2, verifies2)
    ensures enabled1 && enabled2
    ensures 3 * Power(lc.validators, Verified(e1) * Verified(e2), |lc.validators|) > Total(lc.validators)
    ensures forall i :: i in Verified(e1) * Verified(e2) ==>
              && i < |lc.validators| && e1.votes[i].validator == e2.votes[i].validator == lc.validators[i]
              && verifies1(e1.round, e1.votes[i]) && verifies2(e2.round, e2.votes[i])
  {
    Overlap(lc.validators, Verified(e1), Verified(e2), |lc.validators|);
  }
}
