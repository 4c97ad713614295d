/** The artifact store of one experiment: attempt records that are written once, retry claims
    under a quota, and summaries that are replaced as a whole. */
module Artifacts {
  import opened Outcome
  import opened Sequences
  import opened Records

  // ---------------------------------------------------------------- records

  datatype Status =
    | Passed | TaskFailed | TaskTimeout | ProviderFailure | InfrastructureFailure | Cancelled | Inconclusive
  {
    predicate Measurable() {
      Passed? || TaskFailed? || TaskTimeout?
    }
  }

  datatype VerificationState = VerificationPassed | VerificationFailed | VerificationNotRun

  datatype Verification = Verification(state: VerificationState, findings: seq<string>)

  /** The nine fields a trial summary copies from its attempt; `details` stands for the runtime
      and delivery states, the metrics and the artifact references. */
  datatype TrialOutcome = TrialOutcome(
    status: Status, declared: Settings, observed: Settings, verification: Verification, findings: seq<string>, details: string)

  datatype AttemptRecord = AttemptRecord(key: AttemptKey, digest: string, outcome: TrialOutcome)

  /** An attempt reference is the path of its record, which is as good as its key. */
  datatype TrialRecord = TrialRecord(
    key: TrialKey, digest: string, memberships: seq<PairKey>, selected: nat, refs: seq<AttemptKey>, outcome: TrialOutcome)

  datatype BlockResult = BlockResult(
    key: BlockKey, digest: string, resolved: bool, exhausted: bool, selected: nat, refs: seq<AttemptKey>, findings: seq<string>)

  datatype PairResult = PairResult(
    key: PairKey, digest: string, selected: Option<nat>, valid: bool, diff: map<string, Difference>, findings: seq<string>)

  datatype Claim = Claim(digest: string, key: BlockKey, attempt: nat)

  // ---------------------------------------------------------------- the files

  type Attempts = map<AttemptKey, AttemptRecord>

  /** The files of one block. A pair's path names its axis and not its variants. */
  datatype Shelf = Shelf(
    attempts: Attempts, result: Option<BlockResult>, trials: map<string, TrialRecord>, pairs: map<string, PairResult>)

  const BARE := Shelf(map[], None, map[], map[])

  datatype ClaimPath = ClaimPath(key: BlockKey, attempt: nat)

  type Claims = map<ClaimPath, Claim>

  datatype Store = Store(shelves: map<BlockKey, Shelf>, claims: Claims)
  {
    function At(key: BlockKey): Shelf {
      if key in shelves then shelves[key] else BARE
    }
  }

  /** One step of the harness: executing a trial writes nothing, the others one file. */
  datatype Step =
    | Execute(key: AttemptKey)
    | RecordAttempt(record: AttemptRecord)
    | WriteClaim(claim: Claim)
    | WriteResult(result: BlockResult)
    | WriteTrial(trial: TrialRecord)
    | WritePair(pair: PairResult)
  {
    function Block(): BlockKey {
      match this
      case Execute(key) => key.block
      case RecordAttempt(record) => record.key.block
      case WriteClaim(claim) => claim.key
      case WriteResult(result) => result.key
      case WriteTrial(trial) => trial.key.Block()
      case WritePair(pair) => pair.key.Block()
    }
  }

  function ApplyToShelf(shelf: Shelf, step: Step): Shelf {
    match step
    case Execute(_) => shelf
    case RecordAttempt(record) => shelf.(attempts := shelf.attempts[record.key := record])
    case WriteClaim(_) => shelf
    case WriteResult(result) => shelf.(result := Some(result))
    case WriteTrial(trial) => shelf.(trials := shelf.trials[trial.key.variant := trial])
    case WritePair(pair) => shelf.(pairs := shelf.pairs[pair.key.axis := pair])
  }

  function Apply(s: Store, step: Step): Store {
    match step
    case Execute(_) => s
    case WriteClaim(claim) => s.(claims := s.claims[ClaimPath(claim.key, claim.attempt) := claim])
    case _ => s.(shelves := s.shelves[step.Block() := ApplyToShelf(s.At(step.Block()), step)])
  }

  function ApplyAll(s: Store, steps: seq<Step>): Store {
    if steps == [] then s else Apply(ApplyAll(s, Init(steps)), Last(steps))
  }

  lemma {:induction false} ApplyAllAppend(s: Store, a: seq<Step>, b: seq<Step>)
    ensures ApplyAll(s, a + b) == ApplyAll(ApplyAll(s, a), b)
    decreases |b|
  {
    if b == [] {
      assert a + b == a;
    } else {
      ApplyAllAppend(s, a, Init(b));
      assert Init(a + b) == a + Init(b) && Last(a + b) == Last(b);
    }
  }

  // ---------------------------------------------------------------- the store object

  predicate QuotaUsedUp(claims: Claims, maximum: Option<nat>) {
    maximum.Some? && |claims| >= maximum.value
  }

  ghost predicate ProperAttempts(a: Attempts, digest: string) {
    forall k :: k in a ==> a[k].key == k && a[k].digest == digest
  }

  ghost predicate Proper(s: Store, digest: string) {
    && (forall k :: k in s.shelves ==> ProperAttempts(s.shelves[k].attempts, digest))
    && (forall p :: p in s.claims ==> s.claims[p] == Claim(digest, p.key, p.attempt))
  }

  /** One process writes at a time: it holds the experiment's run lock. */
  class ArtifactStore {
    const digest: string
    var shelves: map<BlockKey, Shelf>
    var claims: Claims
    /** Every step since construction, in order. */
    ghost var history: seq<Step>

    function State(): (s: Store)
      reads this
    {
      Store(shelves, claims)
    }

    /** Records and claims are where they belong: the store holds what it wrote itself. */
    ghost predicate Valid()
      reads this
    {
      Proper(State(), digest)
    }

    constructor (digest: string, files: Store)
      requires Proper(files, digest)
      ensures Valid() && State() == files && this.digest == digest && history == []
    {
      this.digest := digest;
      shelves, claims, history := files.shelves, files.claims, [];
    }

    /** Writes a record once: writing the same one again changes nothing, and a different one
        is refused. */
    method AppendImmutable(record: AttemptRecord) returns (ok: bool)
      requires Valid() && record.digest == digest
      modifies this`shelves, this`history
      ensures Valid()
      ensures ok <==> (record.key in old(State()).At(record.key.block).attempts
                       ==> old(State()).At(record.key.block).attempts[record.key] == record)
      ensures record.key in old(State()).At(record.key.block).attempts ==> State() == old(State()) && history == old(history)
      ensures record.key !in old(State()).At(record.key.block).attempts ==>
        State() == Apply(old(State()), RecordAttempt(record)) && history == old(history) + [RecordAttempt(record)]
    {
      var shelf := State().At(record.key.block);
      if record.key in shelf.attempts {
        return shelf.attempts[record.key] == record;
      }
      shelves := shelves[record.key.block := shelf.(attempts := shelf.attempts[record.key := record])];
      history := history + [RecordAttempt(record)];
      return true;
    }

    method WriteSummary(step: Step)
      requires Valid() && (step.WriteResult? || step.WriteTrial? || step.WritePair?)
      modifies this`shelves, this`history
      ensures Valid()
      ensures State() == Apply(old(State()), step) && history == old(history) + [step]
    {
      shelves := shelves[step.Block() := ApplyToShelf(State().At(step.Block()), step)];
      history := history + [step];
    }

    method CountClaims() returns (count: nat)
      requires Valid()
      ensures count == |claims|
    {
      var paths := claims.Keys;
      count := 0;
      while paths != {}
        invariant count + |paths| == |claims|
        decreases paths
      {
        var path :| path in paths;
        paths := paths - {path};
        count := count + 1;
      }
    }

    /** Claims a retry of a block: a claim already made is confirmed, a new one needs quota. */
    method ClaimRetry(key: BlockKey, attempt: nat, maximum: Option<nat>) returns (granted: bool)
      requires Valid() && 2 <= attempt
      modifies this`claims, this`history
      ensures Valid()
      ensures granted <==> ClaimPath(key, attempt) in old(claims) || !QuotaUsedUp(old(claims), maximum)
      ensures State() == if granted && ClaimPath(key, attempt) !in old(claims)
                         then Apply(old(State()), WriteClaim(Claim(digest, key, attempt))) else old(State())
      ensures history == old(history) + if granted && ClaimPath(key, attempt) !in old(claims)
                                        then [WriteClaim(Claim(digest, key, attempt))] else []
    {
      if ClaimPath(key, attempt) in claims {
        return true;
      }
      var count := CountClaims();
      if maximum.Some? && count >= maximum.value {
        return false;
      }
      claims := claims[ClaimPath(key, attempt) := Claim(digest, key, attempt)];
      history := history + [WriteClaim(Claim(digest, key, attempt))];
      return true;
    }
  }
}
