/** privval/file.go: the signer that never signs two messages for one height, round and
    step, whatever crashes in between. */
module PrivVal {
  import opened Common

  datatype VoteType = Prevote | Precommit

  /** What is signed. Sign bytes stand for the message itself: the encoding is injective and
      says whether it is a vote or a proposal. */
  datatype Message =
    | Vote(kind: VoteType, height: int, round: int, body: nat, time: int)
    | Proposal(height: int, round: int, body: nat, time: int)

  datatype HRS = HRS(height: int, round: int, step: int) {
    predicate Lt(that: HRS) {
      || height < that.height
      || (height == that.height && (round < that.round || (round == that.round && step < that.step)))
    }
  }

  const STEP_NONE := 0

  function StepOf(m: Message): int {
    if m.Proposal? then 1 else if m.kind == Prevote then 2 else 3
  }

  function At(m: Message): HRS {
    HRS(m.height, m.round, StepOf(m))
  }

  /** FilePVLastSignState. */
  datatype Last = Last(height: int, round: int, step: int, signature: Option<nat>, signBytes: Option<Message>) {
    function Hrs(): HRS {
      HRS(height, round, step)
    }
  }

  const NOTHING := Last(0, 0, STEP_NONE, None, None)

  datatype Check = Fresh | Same | Regression | NoSignBytes | NilSignature

  /** CheckHRS. */
  function CheckHRS(last: Last, at: HRS): Check {
    if last.height > at.height then Regression
    else if last.height == at.height && last.round > at.round then Regression
    else if last.height == at.height && last.round == at.round && last.step > at.step then Regression
    else if last.Hrs() == at then
      if last.signBytes.None? then NoSignBytes
      else if last.signature.None? then NilSignature else Same
    else Fresh
  }

  /** The checks for equality up to the timestamp; decoding fails on the other kind. */
  datatype Compared = Undecodable | Differ | SameUpTo(time: int)

  function Compare(last: Message, m: Message): Compared {
    if last.Vote? != m.Vote? then Undecodable
    else if m.(time := last.time) == last then SameUpTo(last.time) else Differ
  }

  datatype Outcome = Signed(message: Message, signature: nat) | Refused | Panicked | Crashed

  /** Where the process may stop while a request is served. */
  datatype Crash = NoCrash | BeforeSave | AfterSave

  datatype Request = Request(message: Message, made: nat, crash: Crash)

  /** The signer and its file, with what it has released and what has reached the file. */
  datatype Signer = Signer(last: Last, saved: Last, released: seq<(Message, nat)>, log: seq<Message>)

  const NEW := Signer(NOTHING, NOTHING, [], [])

  function Released(s: Signer, m: Message, signature: nat): (Signer, Outcome) {
    (s.(released := s.released + [(m, signature)]), Signed(m, signature))
  }

  /** One request: signVote and signProposal. `made` is the signature the key makes if asked. */
  function Served(s: Signer, q: Request): (Signer, Outcome) {
    var m := q.message;
    match CheckHRS(s.last, At(m))
    case Regression => (s, Refused)
    case NoSignBytes => (s, Refused)
    case NilSignature => (s, Panicked)
    case Same =>
      var bytes, signature := s.last.signBytes.value, s.last.signature.value;
      if m == bytes then Released(s, m, signature)
      else
        (match Compare(bytes, m)
         case Undecodable => (s, Panicked)
         case Differ => (s, Refused)
         case SameUpTo(time) => Released(s, m.(time := time), signature))
    case Fresh =>
      var next := Last(m.height, m.round, StepOf(m), Some(q.made), Some(m));
      if q.crash == BeforeSave then (s.(last := s.saved), Crashed)
      else
        var kept := s.(last := next, saved := next, log := s.log + [m]);
        if q.crash == AfterSave then (kept, Crashed) else Released(kept, m, q.made)
  }

  class FilePV {
    var last: Last                 // in memory
    var saved: Last                // in the state file
    ghost var released: seq<(Message, nat)>
    ghost var log: seq<Message>    // every message whose signature reached the file

    ghost function Value(): Signer
      reads this
    {
      Signer(last, saved, released, log)
    }

    /** LoadOrGenFilePV with no files yet. */
    constructor ()
      ensures Value() == NEW
    {
      last, saved, released, log := NOTHING, NOTHING, [], [];
    }

    /** LoadFilePV: whatever was only in memory is gone. */
    method Reload()
      modifies this`last
      ensures last == saved
    {
      last := saved;
    }

    method SaveSigned(height: int, round: int, step: int, signBytes: Message, signature: nat)
      modifies this
      ensures var next := Last(height, round, step, Some(signature), Some(signBytes));
              Value() == old(Value()).(last := next, saved := next, log := old(log) + [signBytes])
    {
      last := Last(height, round, step, Some(signature), Some(signBytes));
      saved := last;
      log := log + [signBytes];
    }

    method Sign(m: Message, made: nat, crash: Crash) returns (r: Outcome)
      modifies this
      ensures (Value(), r) == Served(old(Value()), Request(m, made, crash))
    {
      var height, round, step := m.height, m.round, StepOf(m);
      match CheckHRS(last, HRS(height, round, step))
      case Regression => return Refused;
      case NoSignBytes => return Refused;
      case NilSignature => return Panicked;
      case Same =>
        if m == last.signBytes.value {
          r := Signed(m, last.signature.value);
        } else {
          match Compare(last.signBytes.value, m)
          case Undecodable => return Panicked;
          case Differ => return Refused;
          case SameUpTo(time) => r := Signed(m.(time := time), last.signature.value);
        }
        released := released + [(r.message, r.signature)];
      case Fresh =>
        if crash == BeforeSave {
          Reload();
          return Crashed;
        }
        SaveSigned(height, round, step, m, made);
        if crash == AfterSave {
          Reload();
          return Crashed;
        }
        r := Signed(m, made);
        released := released + [(r.message, r.signature)];
    }
  }

  // ----- every run

  /** The stored step says what kind of sign bytes are stored with it. */
  ghost predicate Coherent(s: Last) {
    && (s.signBytes.Some? <==> s.signature.Some?)
    && (s.signBytes.None? ==> s == NOTHING)
    && (s.signBytes.Some? ==> At(s.signBytes.value) == s.Hrs())
  }

  ghost predicate Rising(log: seq<Message>) {
    forall i, j :: 0 <= i < j < |log| ==> At(log[i]).Lt(At(log[j]))
  }

  ghost predicate NewestSaved(log: seq<Message>, s: Last) {
    if |log| == 0 then s == NOTHING else s.signBytes == Some(log[|log| - 1])
  }

  ghost predicate FromLog(released: seq<(Message, nat)>, log: seq<Message>) {
    forall i :: 0 <= i < |released| ==> released[i].0 in log
  }

  ghost predicate AsSaved(released: seq<(Message, nat)>, s: Last) {
    forall i :: 0 <= i < |released| && s.signBytes == Some(released[i].0) ==> s.signature == Some(released[i].1)
  }

  ghost predicate OnePerStep(released: seq<(Message, nat)>) {
    forall i, j :: 0 <= i < j < |released| && At(released[i].0) == At(released[j].0) ==> released[i] == released[j]
  }

  ghost predicate Inv(s: Signer) {
    && s.last == s.saved && Coherent(s.saved) && Rising(s.log) && NewestSaved(s.log, s.saved)
    && FromLog(s.released, s.log) && AsSaved(s.released, s.saved) && OnePerStep(s.released)
  }

  /** Everything signed so far lies at or before the last sign state. */
  lemma NoneAhead(s: Signer, i: nat)
    requires Inv(s) && i < |s.log|
    ensures At(s.log[i]).Lt(s.saved.Hrs()) || (At(s.log[i]) == s.saved.Hrs() && s.saved.signBytes == Some(s.log[i]))
  {
  }

  lemma {:induction false} SavedKept(s: Signer, m: Message, made: nat)
    requires Inv(s) && s.saved.Hrs().Lt(At(m))
    ensures var next := Last(m.height, m.round, StepOf(m), Some(made), Some(m));
            Inv(s.(last := next, saved := next, log := s.log + [m]))
  {
    forall i | 0 <= i < |s.log| ensures At(s.log[i]).Lt(At(m)) {
      NoneAhead(s, i);
    }
    hide OnePerStep;
  }

  /** Releasing what is saved, again or for the first time. */
  lemma {:induction false} ReleasedKept(s: Signer, m: Message, signature: nat)
    requires Inv(s) && s.saved.signBytes == Some(m) && s.saved.signature == Some(signature)
    ensures Inv(Released(s, m, signature).0)
  {
    var k := |s.log| - 1;
    forall i | 0 <= i < |s.released| && At(s.released[i].0) == At(m) ensures s.released[i] == (m, signature) {
      var j :| 0 <= j < |s.log| && s.log[j] == s.released[i].0;
      NoneAhead(s, j);
    }
    hide Rising, NewestSaved, Coherent;
  }

  /** Serving a request, or crashing over it, keeps the invariant; the panics are out of reach. */
  lemma {:induction false} ServedKept(s: Signer, q: Request)
    requires Inv(s)
    ensures Inv(Served(s, q).0) && Served(s, q).1 != Panicked
  {
    hide Rising, NewestSaved, FromLog, AsSaved, OnePerStep;
    var m := q.message;
    match CheckHRS(s.last, At(m)) {
      case Same =>
        ReleasedKept(s, s.saved.signBytes.value, s.saved.signature.value);
      case Fresh =>
        SavedKept(s, m, q.made);
        var next := Last(m.height, m.round, StepOf(m), Some(q.made), Some(m));
        ReleasedKept(s.(last := next, saved := next, log := s.log + [m]), m, q.made);
      case _ =>
    }
  }

  function After(requests: seq<Request>): Signer {
    if |requests| == 0 then NEW else Served(After(requests[..|requests| - 1]), requests[|requests| - 1]).0
  }

  lemma {:induction false} AlwaysInv(requests: seq<Request>)
    ensures Inv(After(requests))
  {
    if |requests| > 0 {
      AlwaysInv(requests[..|requests| - 1]);
      ServedKept(After(requests[..|requests| - 1]), requests[|requests| - 1]);
    }
  }

  // ----- what is answered, by the messages alone

  predicate SameRound(a: Message, b: Message) {
    a.height == b.height && a.round == b.round
  }

  predicate EarlierRound(a: Message, b: Message) {
    a.height < b.height || (a.height == b.height && a.round < b.round)
  }

  /** Of one round: the proposal, then the prevote, then the precommit. */
  predicate EarlierKind(a: Message, b: Message) {
    (a.Proposal? && b.Vote?) || (a.Vote? && b.Vote? && a.kind == Prevote && b.kind == Precommit)
  }

  predicate SameKind(a: Message, b: Message) {
    (a.Proposal? && b.Proposal?) || (a.Vote? && b.Vote? && a.kind == b.kind)
  }

  predicate Before(a: Message, b: Message) {
    EarlierRound(a, b) || (SameRound(a, b) && EarlierKind(a, b))
  }

  lemma BeforeIs(a: Message, b: Message)
    ensures Before(a, b) <==> At(a).Lt(At(b))
    ensures SameRound(a, b) && SameKind(a, b) <==> At(a) == At(b)
  {
  }

  ghost predicate OneEach(released: seq<(Message, nat)>) {
    forall i, j :: 0 <= i < j < |released| && SameRound(released[i].0, released[j].0) &&
                   SameKind(released[i].0, released[j].0) ==>
      released[i] == released[j]
  }

  ghost predicate InOrder(log: seq<Message>) {
    forall i, j :: 0 <= i < j < |log| ==> Before(log[i], log[j])
  }

  /** No double signing: after any requests with any crashes, all signatures released for a
      proposal, a prevote or a precommit of one height and round are one signature on one
      message, timestamp included; what reached the file strictly rises; and the next request
      cannot panic. */
  lemma NoDoubleSigning(requests: seq<Request>, next: Request)
    ensures OneEach(After(requests).released) && InOrder(After(requests).log)
    ensures FromLog(After(requests).released, After(requests).log)
    ensures Served(After(requests), next).1 != Panicked
  {
    hide Served, FromLog, At, Before, SameRound, SameKind;
    AlwaysInv(requests);
    ServedKept(After(requests), next);
    var s := After(requests);
    forall i, j | 0 <= i < j < |s.log| ensures Before(s.log[i], s.log[j]) {
      BeforeIs(s.log[i], s.log[j]);
    }
    forall i, j | 0 <= i < j < |s.released| && SameRound(s.released[i].0, s.released[j].0) &&
                  SameKind(s.released[i].0, s.released[j].0)
      ensures s.released[i] == s.released[j]
    {
      BeforeIs(s.released[i].0, s.released[j].0);
    }
  }

  predicate Repeats(m: Message, saved: Message) {
    m.(time := saved.time) == saved
  }

  /** Past the message saved last; with none saved, from height and round 0 on. */
  predicate Past(m: Message, saved: Option<Message>) {
    match saved
    case None => m.height > 0 || (m.height == 0 && m.round >= 0)
    case Some(last) => Before(last, m)
  }

  ghost predicate Saves(s: Last, m: Message, made: nat) {
    s.signBytes == Some(m) && s.signature == Some(made)
  }

  /** The requests answered are those past the last one and those that repeat it, up to the
      timestamp; a repeat gets the old timestamp and signature, and all others are refused.
      What is past the last one is saved, unless the crash comes before. */
  lemma AnsweredExactly(requests: seq<Request>, q: Request)
    ensures var s, m := After(requests), q.message;
            var (s', r) := Served(s, q);
            if !Past(m, s.saved.signBytes) then
              && s'.saved == s.saved
              && r == if s.saved.signBytes.Some? && s.saved.signature.Some? && Repeats(m, s.saved.signBytes.value)
                      then Signed(s.saved.signBytes.value, s.saved.signature.value) else Refused
            else if q.crash == BeforeSave then r == Crashed && s'.saved == s.saved
            else Saves(s'.saved, m, q.made) && r == if q.crash == AfterSave then Crashed else Signed(m, q.made)
    ensures var s := After(requests); s.saved.signBytes.Some? <==> s.saved.signature.Some?
  {
    AlwaysInv(requests);
    hide Rising, NewestSaved, FromLog, AsSaved, OnePerStep;
    var s, m := After(requests), q.message;
    if s.saved.signBytes.Some? {
      BeforeIs(s.saved.signBytes.value, m);
    }
  }

  /** The signer never blocks a validator that keeps to the order: in a round past the last one,
      its proposal, prevote and precommit are all signed, in this order, and with any of them
      left out. */
  lemma {:induction false} SignsWholeRound(requests: seq<Request>, proposal: Request, prevote: Request,
                                           precommit: Request)
    requires proposal.crash == prevote.crash == precommit.crash == NoCrash
    requires proposal.message.Proposal? && prevote.message.Vote? && prevote.message.kind == Prevote
    requires precommit.message.Vote? && precommit.message.kind == Precommit
    requires SameRound(proposal.message, prevote.message) && SameRound(prevote.message, precommit.message)
    requires match After(requests).saved.signBytes
             case None => proposal.message.height > 0
             case Some(last) => EarlierRound(last, proposal.message)
    ensures var s := After(requests);
            var (s1, r1) := Served(s, proposal);
            var (s2, r2) := Served(s1, prevote);
            && r1 == Signed(proposal.message, proposal.made) && r2 == Signed(prevote.message, prevote.made)
            && Served(s2, precommit).1 == Signed(precommit.message, precommit.made)
            && Served(s, prevote).1 == r2 && Served(s, precommit).1 == Served(s2, precommit).1
  {
    hide Served;
    AnsweredExactly(requests, proposal);
    AnsweredExactly(requests, prevote);
    AnsweredExactly(requests, precommit);
    var one := requests + [proposal];
    var two := one + [prevote];
    assert one[..|requests|] == requests && two[..|one|] == one;
    AnsweredExactly(one, prevote);
    AnsweredExactly(two, precommit);
  }

  /** And going back is refused: after a precommit the prevote and the proposal of its round,
      after a prevote the proposal. */
  lemma {:induction false} RefusesGoingBack(requests: seq<Request>, q: Request)
    requires q.crash == NoCrash && After(requests).saved.signBytes.Some?
    requires SameRound(After(requests).saved.signBytes.value, q.message)
    requires EarlierKind(q.message, After(requests).saved.signBytes.value)
    ensures Served(After(requests), q) == (After(requests), Refused)
  {
    AnsweredExactly(requests, q);
    AlwaysInv(requests);
    hide Rising, NewestSaved, FromLog, AsSaved, OnePerStep;
  }
}
