/** light/verifier.go, with the commit checks of types/validator_set.go it calls. */
module Verifier {
  import Q = Quorums

  /** A validator as the validators hash covers it: its key (and so its address) and power. */
  datatype Member = Member(key: nat, power: nat)

  /** Hashes are injective: a validators hash is the set, a header hash the header. `sound`
      stands for the remaining checks of ValidateBasic. */
  datatype Header = Header(chain: nat, height: int, time: int, vals: seq<Member>, nextVals: seq<Member>,
                           lastBlock: BlockID, rest: nat, sound: bool)

  datatype BlockID = NoID | ID(header: Header, parts: nat)

  /** `signer` is the key under which the signature on the commit's block verifies. */
  datatype Sig = Absent | ForNil(address: nat, signer: nat) | ForBlock(address: nat, signer: nat)

  datatype Commit = Commit(height: int, block: BlockID, sigs: seq<Sig>, sound: bool)

  datatype SignedHeader = SignedHeader(header: Header, commit: Commit)

  /** A header with the validators supplied for it. */
  datatype Light = Light(sh: SignedHeader, vals: seq<Member>)

  datatype Settings = Settings(chain: nat, period: int, drift: int, num: nat, den: nat)

  datatype CommitCheck = CommitOk | NotEnough | BadCommit

  datatype Check = Ok | Expired | Invalid | CantTrust | Failed

  function Powers(vals: seq<Member>): (p: seq<nat>)
    ensures |p| == |vals|
  {
    seq(|vals|, i requires 0 <= i < |vals| => vals[i].power)
  }

  function TotalPower(vals: seq<Member>): nat {
    Q.Total(Powers(vals))
  }

  // ----- commits

  predicate CommitFits(vals: seq<Member>, id: BlockID, height: int, commit: Commit) {
    |vals| == |commit.sigs| && height == commit.height && id == commit.block
  }

  function Tally(vals: seq<Member>, sigs: seq<Sig>, n: nat): nat
    requires n <= |sigs| == |vals|
  {
    if n == 0 then 0 else Tally(vals, sigs, n - 1) + if sigs[n - 1].ForBlock? then vals[n - 1].power else 0
  }

  /** VerifyCommit: every signature that is there must verify. */
  function VerifyCommit(vals: seq<Member>, id: BlockID, height: int, commit: Commit): CommitCheck {
    if !CommitFits(vals, id, height, commit) then BadCommit
    else if exists i :: 0 <= i < |vals| && !commit.sigs[i].Absent? && commit.sigs[i].signer != vals[i].key
    then BadCommit
    else if Tally(vals, commit.sigs, |vals|) > TotalPower(vals) * 2 / 3 then CommitOk else NotEnough
  }

  /** VerifyCommitLight: stops at +2/3. */
  function LightScan(vals: seq<Member>, sigs: seq<Sig>, i: nat, tally: nat, needed: nat): CommitCheck
    requires i <= |sigs| == |vals|
    decreases |sigs| - i
  {
    if i == |sigs| then NotEnough
    else if !sigs[i].ForBlock? then LightScan(vals, sigs, i + 1, tally, needed)
    else if sigs[i].signer != vals[i].key then BadCommit
    else if tally + vals[i].power > needed then CommitOk
    else LightScan(vals, sigs, i + 1, tally + vals[i].power, needed)
  }

  function VerifyCommitLight(vals: seq<Member>, id: BlockID, height: int, commit: Commit): CommitCheck {
    if !CommitFits(vals, id, height, commit) then BadCommit
    else LightScan(vals, commit.sigs, 0, 0, TotalPower(vals) * 2 / 3)
  }

  /** GetByAddress: the position, or the length if there is none. */
  function IndexOf(vals: seq<Member>, address: nat): (i: nat)
    ensures i <= |vals| && (i < |vals| ==> vals[i].key == address)
  {
    if |vals| == 0 then 0
    else if vals[0].key == address then 0 else 1 + IndexOf(vals[1..], address)
  }

  /** VerifyCommitLightTrusting: signatures of known validators, each at most once. */
  function TrustScan(vals: seq<Member>, sigs: seq<Sig>, i: nat, seen: set<nat>, tally: nat, needed: nat): CommitCheck
    requires i <= |sigs|
    decreases |sigs| - i
  {
    if i == |sigs| then NotEnough
    else if !sigs[i].ForBlock? then TrustScan(vals, sigs, i + 1, seen, tally, needed)
    else
      var v := IndexOf(vals, sigs[i].address);
      if v == |vals| then TrustScan(vals, sigs, i + 1, seen, tally, needed)
      else if v in seen || sigs[i].signer != vals[v].key then BadCommit
      else if tally + vals[v].power > needed then CommitOk
      else TrustScan(vals, sigs, i + 1, seen + {v}, tally + vals[v].power, needed)
  }

  function VerifyTrusting(vals: seq<Member>, commit: Commit, num: nat, den: nat): CommitCheck {
    if den == 0 then BadCommit
    else TrustScan(vals, commit.sigs, 0, {}, 0, TotalPower(vals) * num / den)
  }

  // ----- headers

  predicate Basic(chain: nat, sh: SignedHeader) {
    && sh.header.sound && sh.commit.sound && sh.header.chain == chain
    && sh.commit.height == sh.header.height
    && sh.commit.block.ID? && sh.commit.block.header == sh.header
  }

  predicate HeaderExpired(h: Header, period: int, now: int) {
    !(h.time + period > now)
  }

  /** verifyNewHeaderAndVals. */
  predicate NewHeaderOk(s: Settings, trusted: Header, next: Light, now: int) {
    && Basic(s.chain, next.sh)
    && next.sh.header.height > trusted.height
    && next.sh.header.time > trusted.time
    && next.sh.header.time < now + s.drift
    && next.sh.header.vals == next.vals
  }

  function VerifyNonAdjacent(s: Settings, trusted: Light, next: Light, now: int): Check {
    if next.sh.header.height == trusted.sh.header.height + 1 then Failed
    else if HeaderExpired(trusted.sh.header, s.period, now) then Expired
    else if !NewHeaderOk(s, trusted.sh.header, next, now) then Invalid
    else
      match VerifyTrusting(trusted.vals, next.sh.commit, s.num, s.den)
      case NotEnough => CantTrust
      case BadCommit => Failed
      case CommitOk =>
        if VerifyCommitLight(next.vals, next.sh.commit.block, next.sh.header.height, next.sh.commit) == CommitOk
        then Ok else Invalid
  }

  function VerifyAdjacent(s: Settings, trusted: SignedHeader, next: Light, now: int): Check {
    if next.sh.header.height != trusted.header.height + 1 then Failed
    else if HeaderExpired(trusted.header, s.period, now) then Expired
    else if !NewHeaderOk(s, trusted.header, next, now) then Invalid
    else if next.sh.header.vals != trusted.header.nextVals then Failed
    else if VerifyCommitLight(next.vals, next.sh.commit.block, next.sh.header.height, next.sh.commit) == CommitOk
    then Ok else Invalid
  }

  function Verify(s: Settings, trusted: Light, next: Light, now: int): Check {
    if next.sh.header.height != trusted.sh.header.height + 1 then VerifyNonAdjacent(s, trusted, next, now)
    else VerifyAdjacent(s, trusted.sh, next, now)
  }

  // ----- what a check that succeeds says

  /** Validators whose own signature for the block is in the commit. */
  ghost predicate Signed(vals: seq<Member>, sigs: seq<Sig>, v: nat) {
    v < |vals| && exists k :: 0 <= k < |sigs| && sigs[k].ForBlock? && sigs[k].signer == vals[v].key
  }

  ghost predicate AllSigned(vals: seq<Member>, sigs: seq<Sig>, who: set<nat>) {
    forall v :: v in who ==> Signed(vals, sigs, v)
  }

  lemma {:induction false} TrustScanSound(vals: seq<Member>, sigs: seq<Sig>, i: nat, seen: set<nat>, tally: nat,
                                          needed: nat)
    returns (who: set<nat>)
    requires i <= |sigs| && tally == Q.Power(Powers(vals), seen) && AllSigned(vals, sigs, seen)
    requires TrustScan(vals, sigs, i, seen, tally, needed) == CommitOk
    ensures AllSigned(vals, sigs, who) && Q.Power(Powers(vals), who) > needed
    decreases |sigs| - i
  {
    if !sigs[i].ForBlock? {
      who := TrustScanSound(vals, sigs, i + 1, seen, tally, needed);
    } else {
      var v := IndexOf(vals, sigs[i].address);
      if v == |vals| {
        who := TrustScanSound(vals, sigs, i + 1, seen, tally, needed);
      } else {
        Q.PowerAdd(Powers(vals), seen, v);
        if tally + vals[v].power > needed {
          who := seen + {v};
        } else {
          who := TrustScanSound(vals, sigs, i + 1, seen + {v}, tally + vals[v].power, needed);
        }
      }
    }
  }

  lemma {:induction false} LightScanSound(vals: seq<Member>, sigs: seq<Sig>, i: nat, seen: set<nat>, tally: nat,
                                          needed: nat)
    returns (who: set<nat>)
    requires i <= |sigs| == |vals| && tally == Q.Power(Powers(vals), seen) && AllSigned(vals, sigs, seen)
    requires forall v :: v in seen ==> v < i
    requires LightScan(vals, sigs, i, tally, needed) == CommitOk
    ensures AllSigned(vals, sigs, who) && Q.Power(Powers(vals), who) > needed
    decreases |sigs| - i
  {
    if !sigs[i].ForBlock? {
      who := LightScanSound(vals, sigs, i + 1, seen, tally, needed);
    } else {
      Q.PowerAdd(Powers(vals), seen, i);
      if tally + vals[i].power > needed {
        who := seen + {i};
      } else {
        who := LightScanSound(vals, sigs, i + 1, seen + {i}, tally + vals[i].power, needed);
      }
    }
  }

  lemma OverShare(got: nat, total: nat, num: nat, den: nat)
    requires 0 < den <= 3 * num && got > total * num / den
    ensures 3 * got > total
  {
    var x := total * num;
    assert got * den >= (x / den + 1) * den > x;
    assert total * (3 * num) >= total * den;
    assert 3 * got * den > total * den;
  }

  /** Less than a third is no more than the trust level lets through. */
  lemma BelowLevel(faulty: nat, total: nat, num: nat, den: nat)
    requires 0 < den <= 3 * num && 3 * faulty < total
    ensures faulty <= total * num / den
  {
    if faulty > total * num / den {
      OverShare(faulty, total, num, den);
    }
  }

  /** The header of a non-adjacent step has +2/3 of its own validators behind it, and among
      its signers a trusted validator that is not faulty, while the faulty ones of the trusted
      set do not reach the trust level. */
  lemma NonAdjacentSound(s: Settings, trusted: Light, next: Light, now: int, faulty: set<nat>)
    returns (who: set<nat>, v: nat)
    requires s.den > 0 && Q.Power(Powers(trusted.vals), faulty) <= TotalPower(trusted.vals) * s.num / s.den
    requires VerifyNonAdjacent(s, trusted, next, now) == Ok
    ensures AllSigned(next.vals, next.sh.commit.sigs, who) && Q.Quorum(Powers(next.vals), who)
    ensures v !in faulty && Signed(trusted.vals, next.sh.commit.sigs, v)
    ensures next.sh.commit.block.ID? && next.sh.commit.block.header == next.sh.header &&
            next.sh.header.vals == next.vals
  {
    hide TrustScan, LightScan;
    Q.PowerEmpty(Powers(next.vals));
    who := LightScanSound(next.vals, next.sh.commit.sigs, 0, {}, 0, TotalPower(next.vals) * 2 / 3);
    Q.QuorumThreshold(TotalPower(next.vals), Q.Power(Powers(next.vals), who));
    Q.PowerEmpty(Powers(trusted.vals));
    var trusting := TrustScanSound(trusted.vals, next.sh.commit.sigs, 0, {}, 0,
                                   TotalPower(trusted.vals) * s.num / s.den);
    v := OneOutside(trusted.vals, trusting, faulty);
  }

  /** The heavier of two sets has a member that the other lacks. */
  lemma OneOutside(vals: seq<Member>, who: set<nat>, faulty: set<nat>) returns (v: nat)
    requires Q.Power(Powers(vals), who) > Q.Power(Powers(vals), faulty)
    ensures v in who && v < |vals| && v !in faulty
  {
    if forall u :: u in who && u < |vals| ==> u in faulty {
      Q.PowerMonotone(Powers(vals), who, faulty);
      assert false;
    }
    v :| v in who && v < |vals| && v !in faulty;
  }

  /** An adjacent header has +2/3 of the validators its predecessor named behind it. */
  lemma AdjacentSound(s: Settings, trusted: SignedHeader, next: Light, now: int) returns (who: set<nat>)
    requires VerifyAdjacent(s, trusted, next, now) == Ok
    ensures next.vals == next.sh.header.vals == trusted.header.nextVals
    ensures AllSigned(trusted.header.nextVals, next.sh.commit.sigs, who) &&
            Q.Quorum(Powers(trusted.header.nextVals), who)
    ensures next.sh.commit.block.ID? && next.sh.commit.block.header == next.sh.header
  {
    hide LightScan;
    Q.PowerEmpty(Powers(next.vals));
    who := LightScanSound(next.vals, next.sh.commit.sigs, 0, {}, 0, TotalPower(next.vals) * 2 / 3);
    Q.QuorumThreshold(TotalPower(next.vals), Q.Power(Powers(next.vals), who));
  }

  /** What the full check accepts, the light one does. */
  lemma FullImpliesLight(vals: seq<Member>, id: BlockID, height: int, commit: Commit)
    requires VerifyCommit(vals, id, height, commit) == CommitOk
    ensures VerifyCommitLight(vals, id, height, commit) == CommitOk
  {
    LightReaches(vals, commit.sigs, 0, TotalPower(vals) * 2 / 3);
  }

  lemma {:induction false} LightReaches(vals: seq<Member>, sigs: seq<Sig>, i: nat, needed: nat)
    requires i <= |sigs| == |vals|
    requires forall k :: 0 <= k < |vals| && sigs[k].ForBlock? ==> sigs[k].signer == vals[k].key
    requires Tally(vals, sigs, i) <= needed < Tally(vals, sigs, |vals|)
    ensures LightScan(vals, sigs, i, Tally(vals, sigs, i), needed) == CommitOk
    decreases |sigs| - i
  {
    if Tally(vals, sigs, i + 1) <= needed {
      LightReaches(vals, sigs, i + 1, needed);
    }
  }

  // ----- paths

  /** Each header verified by the one before it. */
  ghost predicate IsPath(s: Settings, path: seq<Light>, now: int) {
    |path| > 0 && forall i :: 0 < i < |path| ==> Verify(s, path[i - 1], path[i], now) == Ok
  }

  /** Heights and times rise along a path, every header but the last is unexpired, and every
      header but the first is sound, its validators being those its hash names. */
  lemma {:induction false} PathRises(s: Settings, path: seq<Light>, now: int, i: nat, j: nat)
    requires IsPath(s, path, now) && i < j < |path|
    ensures path[i].sh.header.height < path[j].sh.header.height && path[i].sh.header.time < path[j].sh.header.time
    ensures path[i].sh.header.time + s.period > now && path[j].sh.header.time < now + s.drift
    ensures Basic(s.chain, path[j].sh) && path[j].sh.header.vals == path[j].vals
    decreases j - i
  {
    hide VerifyCommitLight, VerifyTrusting, Basic;
    assert Verify(s, path[j - 1], path[j], now) == Ok;
    assert Verify(s, path[i], path[i + 1], now) == Ok;
    if i < j - 1 {
      PathRises(s, path, now, i, j - 1);
    }
  }
}
