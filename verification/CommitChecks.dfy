/** When the two checks that stop early, VerifyCommitLight and VerifyCommitLightTrusting,
    accept a commit: exactly, and in terms of its signatures. */
module CommitChecks {
  import Q = Quorums
  import opened Verifier

  predicate DistinctKeys(vals: seq<Member>) {
    forall i, j :: 0 <= i < j < |vals| ==> vals[i].key != vals[j].key
  }

  lemma {:induction false} IndexIs(vals: seq<Member>, v: nat)
    requires DistinctKeys(vals) && v < |vals|
    ensures IndexOf(vals, vals[v].key) == v
  {
    if v > 0 {
      IndexIs(vals[1..], v - 1);
    }
  }

  lemma {:induction false} IndexNone(vals: seq<Member>, address: nat)
    ensures IndexOf(vals, address) == |vals| <==> forall v :: 0 <= v < |vals| ==> vals[v].key != address
  {
    if |vals| > 0 {
      IndexNone(vals[1..], address);
      assert forall v :: 0 <= v < |vals| - 1 ==> vals[1..][v] == vals[v + 1];
      if forall v :: 0 <= v < |vals| ==> vals[v].key != address {
        assert vals[0].key != address;
      }
    }
  }

  // ----- the trusting check

  predicate Names(vals: seq<Member>, sig: Sig, v: nat) {
    v < |vals| && sig.ForBlock? && sig.address == vals[v].key
  }

  ghost predicate IsNamed(vals: seq<Member>, sigs: seq<Sig>, n: nat, v: nat)
    requires n <= |sigs|
  {
    exists k :: 0 <= k < n && Names(vals, sigs[k], v)
  }

  /** Members of the trusted set named by one of the first n signatures. */
  ghost function Named(vals: seq<Member>, sigs: seq<Sig>, n: nat): set<nat>
    requires n <= |sigs|
  {
    set v | 0 <= v < |vals| && IsNamed(vals, sigs, n, v)
  }

  /** No trusted member is named twice, and each signature that names one is its own. */
  ghost predicate Clean(vals: seq<Member>, sigs: seq<Sig>, n: nat)
    requires n <= |sigs|
  {
    && (forall k, v: nat :: 0 <= k < n && Names(vals, sigs[k], v) ==> sigs[k].signer == vals[v].key)
    && (forall j, k, v: nat :: 0 <= j < k < n && Names(vals, sigs[j], v) ==> !Names(vals, sigs[k], v))
  }

  ghost function NamedPower(vals: seq<Member>, sigs: seq<Sig>, n: nat): nat
    requires n <= |sigs|
  {
    Q.Power(Powers(vals), Named(vals, sigs, n))
  }

  lemma NamedMore(vals: seq<Member>, sigs: seq<Sig>, a: nat, b: nat)
    requires a <= b <= |sigs|
    ensures NamedPower(vals, sigs, a) <= NamedPower(vals, sigs, b)
  {
    Q.PowerMonotone(Powers(vals), Named(vals, sigs, a), Named(vals, sigs, b));
  }

  lemma CleanLess(vals: seq<Member>, sigs: seq<Sig>, a: nat, b: nat)
    requires a <= b <= |sigs| && Clean(vals, sigs, b)
    ensures Clean(vals, sigs, a)
  {
  }

  /** The position a signature names, or the length. */
  function Place(vals: seq<Member>, sig: Sig): nat {
    if sig.ForBlock? then IndexOf(vals, sig.address) else |vals|
  }

  lemma PlaceIs(vals: seq<Member>, sig: Sig, v: nat)
    requires DistinctKeys(vals)
    ensures Names(vals, sig, v) <==> v == Place(vals, sig) < |vals|
  {
    if sig.ForBlock? {
      IndexNone(vals, sig.address);
    }
    if Names(vals, sig, v) {
      IndexIs(vals, v);
    }
  }

  lemma NamedNext(vals: seq<Member>, sigs: seq<Sig>, i: nat)
    requires i < |sigs| && DistinctKeys(vals)
    ensures var v := Place(vals, sigs[i]);
            Named(vals, sigs, i + 1) == Named(vals, sigs, i) + if v < |vals| then {v} else {}
  {
    hide Place;
    forall u: nat ensures IsNamed(vals, sigs, i + 1, u) <==> IsNamed(vals, sigs, i, u) || Names(vals, sigs[i], u) {
      if IsNamed(vals, sigs, i + 1, u) {
        var k :| 0 <= k < i + 1 && Names(vals, sigs[k], u);
        assert k < i || Names(vals, sigs[i], u);
      }
      if IsNamed(vals, sigs, i, u) {
        var k :| 0 <= k < i && Names(vals, sigs[k], u);
        assert k < i + 1;
      }
    }
    forall u: nat ensures Names(vals, sigs[i], u) <==> u == Place(vals, sigs[i]) < |vals| {
      PlaceIs(vals, sigs[i], u);
    }
  }

  lemma CleanNext(vals: seq<Member>, sigs: seq<Sig>, i: nat)
    requires i < |sigs| && DistinctKeys(vals) && Clean(vals, sigs, i)
    ensures var v := Place(vals, sigs[i]);
            Clean(vals, sigs, i + 1) <==>
            (v < |vals| ==> sigs[i].ForBlock? && v !in Named(vals, sigs, i) && sigs[i].signer == vals[v].key)
  {
    hide Place;
    var v := Place(vals, sigs[i]);
    forall u: nat ensures Names(vals, sigs[i], u) <==> u == v < |vals| {
      PlaceIs(vals, sigs[i], u);
    }
    if v < |vals| {
      assert Names(vals, sigs[i], v);
      if v in Named(vals, sigs, i) {
        var j :| 0 <= j < i && Names(vals, sigs[j], v);
        assert !Clean(vals, sigs, i + 1);
      } else {
        assert !IsNamed(vals, sigs, i, v);
        assert forall j :: 0 <= j < i ==> !Names(vals, sigs[j], v);
      }
    }
  }

  /** Some of the first signatures, all clean, are enough. */
  ghost predicate Reaches(vals: seq<Member>, sigs: seq<Sig>, needed: nat, n: nat)
    requires n <= |sigs|
  {
    Clean(vals, sigs, n) && NamedPower(vals, sigs, n) > needed
  }

  lemma {:induction false} TrustScanIs(vals: seq<Member>, sigs: seq<Sig>, i: nat, needed: nat)
    requires i <= |sigs| && DistinctKeys(vals) && Clean(vals, sigs, i) && NamedPower(vals, sigs, i) <= needed
    ensures var r := TrustScan(vals, sigs, i, Named(vals, sigs, i), NamedPower(vals, sigs, i), needed);
            && (r == CommitOk <==> exists n :: i <= n <= |sigs| && Reaches(vals, sigs, needed, n))
            && (r == NotEnough <==> Clean(vals, sigs, |sigs|) && NamedPower(vals, sigs, |sigs|) <= needed)
    decreases |sigs| - i
  {
    hide Clean, Named, IndexOf, DistinctKeys;
    if i < |sigs| {
      NamedNext(vals, sigs, i);
      CleanNext(vals, sigs, i);
      var v := Place(vals, sigs[i]);
      var seen := Named(vals, sigs, i);
      if v < |vals| && v !in seen {
        Q.PowerAdd(Powers(vals), seen, v);
      }
      assert seen + {} == seen;
      if !Clean(vals, sigs, i + 1) {
        forall n | i <= n <= |sigs| && Clean(vals, sigs, n) ensures n == i {
          if n > i { CleanLess(vals, sigs, i + 1, n); }
        }
      } else if NamedPower(vals, sigs, i + 1) > needed {
        assert Reaches(vals, sigs, needed, i + 1);
        NamedMore(vals, sigs, i + 1, |sigs|);
      } else {
        TrustScanIs(vals, sigs, i + 1, needed);
        assert !Reaches(vals, sigs, needed, i);
      }
    }
  }

  /** The trusting check accepts exactly if some first signatures are clean and reach more than
      the trust level of the trusted power, and finds too little exactly if all are clean and do
      not. */
  lemma {:induction false} TrustingIs(vals: seq<Member>, commit: Commit, num: nat, den: nat)
    requires den > 0 && DistinctKeys(vals)
    ensures var r, sigs, needed := VerifyTrusting(vals, commit, num, den), commit.sigs, TotalPower(vals) * num / den;
            && (r == CommitOk <==> exists n :: 0 <= n <= |sigs| && Reaches(vals, sigs, needed, n))
            && (r == NotEnough <==> Clean(vals, sigs, |sigs|) && NamedPower(vals, sigs, |sigs|) <= needed)
  {
    assert Named(vals, commit.sigs, 0) == {};
    Q.PowerEmpty(Powers(vals));
    TrustScanIs(vals, commit.sigs, 0, TotalPower(vals) * num / den);
  }

  /** So with clean signatures it only counts the trusted power among the signers. */
  lemma {:induction false} TrustingCounts(vals: seq<Member>, commit: Commit, num: nat, den: nat)
    requires den > 0 && DistinctKeys(vals) && Clean(vals, commit.sigs, |commit.sigs|)
    ensures VerifyTrusting(vals, commit, num, den) ==
            if NamedPower(vals, commit.sigs, |commit.sigs|) > TotalPower(vals) * num / den then CommitOk else NotEnough
  {
    TrustingIs(vals, commit, num, den);
    hide Clean, Named, VerifyTrusting, TotalPower;
    var sigs, needed := commit.sigs, TotalPower(vals) * num / den;
    if NamedPower(vals, sigs, |sigs|) > needed {
      assert Reaches(vals, sigs, needed, |sigs|);
    }
  }

  // ----- the light check

  /** Positions among the first n whose signature is for the block. */
  ghost function Signing(sigs: seq<Sig>, n: nat): set<nat>
    requires n <= |sigs|
  {
    set k | 0 <= k < n && sigs[k].ForBlock?
  }

  ghost predicate OwnSigs(vals: seq<Member>, sigs: seq<Sig>, n: nat)
    requires n <= |sigs| == |vals|
  {
    forall k :: 0 <= k < n && sigs[k].ForBlock? ==> sigs[k].signer == vals[k].key
  }

  ghost predicate Passes(vals: seq<Member>, sigs: seq<Sig>, needed: nat, n: nat)
    requires n <= |sigs| == |vals|
  {
    OwnSigs(vals, sigs, n) && Q.Power(Powers(vals), Signing(sigs, n)) > needed
  }

  lemma SigningMore(vals: seq<Member>, sigs: seq<Sig>, a: nat, b: nat)
    requires a <= b <= |sigs|
    ensures Q.Power(Powers(vals), Signing(sigs, a)) <= Q.Power(Powers(vals), Signing(sigs, b))
  {
    Q.PowerMonotone(Powers(vals), Signing(sigs, a), Signing(sigs, b));
  }

  lemma {:induction false} LightScanIs(vals: seq<Member>, sigs: seq<Sig>, i: nat, needed: nat)
    requires i <= |sigs| == |vals| && OwnSigs(vals, sigs, i) && Q.Power(Powers(vals), Signing(sigs, i)) <= needed
    ensures var r := LightScan(vals, sigs, i, Q.Power(Powers(vals), Signing(sigs, i)), needed);
            && (r == CommitOk <==> exists n :: i <= n <= |sigs| && Passes(vals, sigs, needed, n))
            && (r == NotEnough <==>
                OwnSigs(vals, sigs, |sigs|) && Q.Power(Powers(vals), Signing(sigs, |sigs|)) <= needed)
    decreases |sigs| - i
  {
    if i < |sigs| {
      var done := Signing(sigs, i);
      assert Signing(sigs, i + 1) == done + if sigs[i].ForBlock? then {i} else {};
      assert done + {} == done;
      Q.PowerAdd(Powers(vals), done, i);
      hide Q.Power;
      if !OwnSigs(vals, sigs, i + 1) {
        assert forall n :: i < n <= |sigs| ==> !OwnSigs(vals, sigs, n);
        assert !Passes(vals, sigs, needed, i);
      } else if Q.Power(Powers(vals), Signing(sigs, i + 1)) > needed {
        assert Passes(vals, sigs, needed, i + 1);
        SigningMore(vals, sigs, i + 1, |sigs|);
      } else {
        LightScanIs(vals, sigs, i + 1, needed);
        assert !Passes(vals, sigs, needed, i);
      }
    }
  }

  /** The light check accepts exactly if the commit is for the block and height, with a
      signature or none of each validator, and some first signatures for it are the validators'
      own and hold +2/3. */
  lemma {:induction false} LightIs(vals: seq<Member>, id: BlockID, height: int, commit: Commit)
    ensures VerifyCommitLight(vals, id, height, commit) == CommitOk <==>
            && |commit.sigs| == |vals| && commit.height == height && commit.block == id
            && exists n :: 0 <= n <= |vals| && OwnSigs(vals, commit.sigs, n) &&
                 Q.Quorum(Powers(vals), Signing(commit.sigs, n))
  {
    if CommitFits(vals, id, height, commit) {
      var needed := TotalPower(vals) * 2 / 3;
      assert Signing(commit.sigs, 0) == {};
      Q.PowerEmpty(Powers(vals));
      LightScanIs(vals, commit.sigs, 0, needed);
      hide LightScan, Q.Power, Q.Total;
      forall n | 0 <= n <= |vals|
        ensures Passes(vals, commit.sigs, needed, n) <==>
                OwnSigs(vals, commit.sigs, n) && Q.Quorum(Powers(vals), Signing(commit.sigs, n))
      {
        Q.QuorumThreshold(TotalPower(vals), Q.Power(Powers(vals), Signing(commit.sigs, n)));
      }
    }
  }

  // ----- a whole step

  /** A new header that can be looked at: sound, of this chain, with its own validators and a commit
      for it, later than the trusted one, whose trust has not run out, and not from the future. */
  predicate Comparable(s: Settings, trusted: Header, next: Light, now: int) {
    var header, commit := next.sh.header, next.sh.commit;
    && trusted.time + s.period > now
    && header.sound && commit.sound && header.chain == s.chain && header.vals == next.vals
    && commit.height == header.height && commit.block.ID? && commit.block.header == header
    && header.height > trusted.height && trusted.time < header.time < now + s.drift
  }

  /** First signatures of the commit, each its validator's own, with +2/3 of the power. */
  ghost predicate WellSigned(vals: seq<Member>, sigs: seq<Sig>) {
    && |sigs| == |vals|
    && exists n :: 0 <= n <= |vals| && OwnSigs(vals, sigs, n) && Q.Quorum(Powers(vals), Signing(sigs, n))
  }

  lemma SignedIs(next: Light)
    requires next.sh.commit.height == next.sh.header.height
    ensures VerifyCommitLight(next.vals, next.sh.commit.block, next.sh.header.height, next.sh.commit) == CommitOk <==>
            WellSigned(next.vals, next.sh.commit.sigs)
  {
    LightIs(next.vals, next.sh.commit.block, next.sh.header.height, next.sh.commit);
    hide OwnSigs, Signing;
  }

  /** An adjacent step verifies exactly if the header is comparable, of the next height, with the
      validators the trusted one names for it, and well signed. */
  lemma {:induction false} AdjacentIs(s: Settings, trusted: SignedHeader, next: Light, now: int)
    ensures VerifyAdjacent(s, trusted, next, now) == Ok <==>
            && Comparable(s, trusted.header, next, now) && next.sh.header.height == trusted.header.height + 1
            && next.vals == trusted.header.nextVals && WellSigned(next.vals, next.sh.commit.sigs)
  {
    hide VerifyCommitLight, WellSigned;
    if next.sh.commit.height == next.sh.header.height {
      SignedIs(next);
    }
  }

  /** Any other step exactly if the header is comparable, not of the next height, trusted signers
      reach the trust level, and it is well signed. */
  lemma {:induction false} NonAdjacentIs(s: Settings, trusted: Light, next: Light, now: int)
    requires s.den > 0 && DistinctKeys(trusted.vals)
    ensures var sigs, needed := next.sh.commit.sigs, TotalPower(trusted.vals) * s.num / s.den;
            VerifyNonAdjacent(s, trusted, next, now) == Ok <==>
            && Comparable(s, trusted.sh.header, next, now) && next.sh.header.height != trusted.sh.header.height + 1
            && (exists n :: 0 <= n <= |sigs| && Reaches(trusted.vals, sigs, needed, n))
            && WellSigned(next.vals, sigs)
  {
    hide VerifyCommitLight, VerifyTrusting, WellSigned, Reaches;
    TrustingIs(trusted.vals, next.sh.commit, s.num, s.den);
    if next.sh.commit.height == next.sh.header.height {
      SignedIs(next);
    }
  }
}
