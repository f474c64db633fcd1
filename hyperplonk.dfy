/**
 * The two prover pipelines of hyperplonk/src/hyperplonk.rs: the baseline
 * `local_hyperplonk` and the plus variant `local_hyperplonkpp`. Every random
 * sample of the source is an input here (`Instance`, `LinkInputs`). Each
 * pipeline is a method that pushes onto the five lists of the proof bundle in
 * the source's order; each is proved equal to a declarative description of the
 * bundle (`BaselineBundle`, `PlusBundle`), and the lemmas at the end state what
 * the source promises about that bundle.
 */
module Hyperplonk {
  import opened Field
  import opened Tables
  import opened Primitives

  /**
   * The samples both pipelines draw: the witness table M and the permutation
   * table S_sigma over n+2 variables, the input, selector, identity-label and
   * eq tables over n variables, the opening challenge, and beta and gamma.
   */
  datatype Instance = Instance(
    m: Table, input: Table, q1: Table, q2: Table, ssigma: Table, sid: Table, eq: Table,
    challenge: seq<nat>, beta: nat, gamma: nat)

  /** The extra samples of the plus variant: the table s and two (n+2)-point challenges. */
  datatype LinkInputs = LinkInputs(s: Table, challengeP2: seq<nat>, challengeP2b: seq<nat>)

  /** The sizes at which the source samples each table and challenge. */
  predicate WellSized(n: nat, inst: Instance) {
    && |inst.m| == 4 * Pow2(n) && |inst.ssigma| == 4 * Pow2(n)
    && |inst.input| == Pow2(n) && |inst.q1| == Pow2(n) && |inst.q2| == Pow2(n)
    && |inst.sid| == Pow2(n) && |inst.eq| == Pow2(n)
    && |inst.challenge| == n
  }

  predicate LinkWellSized(n: nat, x: LinkInputs) {
    |x.s| == 4 * Pow2(n) && |x.challengeP2| == n + 2 && |x.challengeP2b| == n + 2
  }

  /** The wire tables a, b, c and their permutation labels. */
  datatype Wires = Wires(a: Table, b: Table, c: Table, sigmaA: Table, sigmaB: Table, sigmaC: Table)

  /**
   * Arithmetization: a, b, c are M with its two leading variables fixed to
   * (0,0), (0,1), (1,0); the labels are S_sigma fixed the same way. Each is a
   * quarter of its source table.
   */
  function Arithmetize(backend: Backend, n: nat, inst: Instance): (w: Wires)
    requires FixesTwoVariables(backend.fixVariable)
    requires |inst.m| == 4 * Pow2(n) && |inst.ssigma| == 4 * Pow2(n)
    ensures 4 * |w.a| == |inst.m| && 4 * |w.b| == |inst.m| && 4 * |w.c| == |inst.m|
    ensures 4 * |w.sigmaA| == |inst.ssigma| && 4 * |w.sigmaB| == |inst.ssigma| && 4 * |w.sigmaC| == |inst.ssigma|
  {
    var fix := backend.fixVariable;
    Wires(fix(inst.m, [0, 0]), fix(inst.m, [0, 1]), fix(inst.m, [1, 0]),
          fix(inst.ssigma, [0, 0]), fix(inst.ssigma, [0, 1]), fix(inst.ssigma, [1, 0]))
  }

  // ---------------------------------------------------------------------------
  // The proof bundle

  /** Gate identity: the sum-check proofs and the (commitment, opening) pairs. */
  datatype GateIdentityPart = GateIdentityPart(proofs: seq<SumcheckProof>, commitments: seq<(Commitment, Opening)>)

  /** Wire identity: the sum-check proofs, the commitments and the openings. */
  datatype WiringPart = WiringPart(proofs: seq<SumcheckProof>, commits: seq<Commitment>, opens: seq<Opening>)

  datatype ProofBundle = ProofBundle(gateIdentity: GateIdentityPart, wiring: WiringPart)

  /** The tables of the wire identity: num, den, h = num / den and the accumulator tables. */
  datatype WiringTables = WiringTables(num: Table, den: Table, h: Table, vx0: Table, vx1: Table, v1x: Table)

  /** The six gate-identity sum-checks, in the source's order, all at the challenge. */
  function GateIdentityProofs(p: Prime, inst: Instance, w: Wires): seq<SumcheckProof> {
    var ch := inst.challenge;
    [ SumcheckProduct(inst.eq, inst.q1, ch),
      SumcheckProduct(inst.q1, SumTable(p, w.a, w.b), ch),
      SumcheckProduct(inst.eq, inst.q2, ch),
      SumcheckProduct(w.a, w.b, ch),
      SumcheckProduct(inst.q2, w.a, ch),
      SumcheckProduct(inst.eq, NegSumTable(p, w.c, inst.input), ch) ]
  }

  /** The nine polynomials committed before the gate identity, in commit order. */
  function CommittedTables(inst: Instance, w: Wires): seq<Table> {
    [w.a, w.b, w.c, inst.input, inst.q1, inst.q2, w.sigmaA, w.sigmaB, w.sigmaC]
  }

  /** Each of the nine polynomials with its commitment and its opening at the challenge. */
  function GateIdentityCommitments(inst: Instance, w: Wires): seq<(Commitment, Opening)> {
    var ts := CommittedTables(inst, w);
    seq(|ts|, k requires 0 <= k < |ts| => (Commit(ts[k]), Open(ts[k], inst.challenge)))
  }

  /**
   * num, den and h at every gate, then the accumulator run on h. num blinds
   * the wires with their permutation labels, den with the identity label. The
   * tables exist exactly when no identity-labelled blinded term vanishes;
   * otherwise the division fails at the first gate where one does. When they
   * exist, h, num and den have gate_count entries, den is non-zero and
   * h * den == num at every gate.
   */
  function WiringTablesOf(p: Prime, backend: Backend, n: nat, inst: Instance, w: Wires): (r: Result<WiringTables>)
    requires |w.a| >= Pow2(n) && |w.b| >= Pow2(n) && |w.c| >= Pow2(n)
    requires |w.sigmaA| >= Pow2(n) && |w.sigmaB| >= Pow2(n) && |w.sigmaC| >= Pow2(n)
    requires |inst.sid| >= Pow2(n)
    ensures r.Ok? <==> forall i :: 0 <= i < Pow2(n) ==> IdentityTermsNonZero(p, inst, w, i)
    ensures r.Err? ==>
      && r.error.index < Pow2(n) && !IdentityTermsNonZero(p, inst, w, r.error.index)
      && forall j :: 0 <= j < r.error.index ==> IdentityTermsNonZero(p, inst, w, j)
    ensures r.Ok? ==>
      var t := r.value;
      && t.num == WireProduct(p, Pow2(n), w.a, w.b, w.c, w.sigmaA, w.sigmaB, w.sigmaC, inst.beta, inst.gamma)
      && t.den == WireProduct(p, Pow2(n), w.a, w.b, w.c, inst.sid, inst.sid, inst.sid, inst.beta, inst.gamma)
      && |t.h| == Pow2(n)
      && (forall i :: 0 <= i < Pow2(n) ==> t.h[i] < p && t.den[i] != 0 && Mul(p, t.h[i], t.den[i]) == t.num[i])
      && (t.vx0, t.vx1, t.v1x) == backend.accProduct(t.h)
  {
    var num := WireProduct(p, Pow2(n), w.a, w.b, w.c, w.sigmaA, w.sigmaB, w.sigmaC, inst.beta, inst.gamma);
    var den := WireProduct(p, Pow2(n), w.a, w.b, w.c, inst.sid, inst.sid, inst.sid, inst.beta, inst.gamma);
    assert forall i :: 0 <= i < Pow2(n) ==> (den[i] % p != 0 <==> IdentityTermsNonZero(p, inst, w, i)) by {
      forall i | 0 <= i < Pow2(n)
        ensures den[i] % p != 0 <==> IdentityTermsNonZero(p, inst, w, i)
      {
        Reduced(p, den[i]);
      }
    }
    match Quotients(p, num, den)
    case Err(e) => Err(e)
    case Ok(h) =>
      QuotientsRatio(p, num, den);
      var acc := backend.accProduct(h);
      Ok(WiringTables(num, den, h, acc.0, acc.1, acc.2))
  }

  /** The six wire-identity sum-checks, in the source's order, all at the challenge. */
  function WiringProofs(eq: Table, t: WiringTables, ch: seq<nat>): seq<SumcheckProof> {
    [ SumcheckProduct(eq, t.v1x, ch),
      SumcheckProduct(eq, t.vx0, ch),
      SumcheckProduct(t.vx0, t.vx1, ch),
      SumcheckProduct(eq, t.den, ch),
      SumcheckProduct(eq, t.num, ch),
      SumcheckProduct(t.h, t.num, ch) ]
  }

  function WiringCommits(t: WiringTables): seq<Commitment> {
    [Commit(t.h), Commit(t.num), Commit(t.den), Commit(t.vx0), Commit(t.vx1), Commit(t.v1x)]
  }

  function WiringOpens(t: WiringTables, ch: seq<nat>): seq<Opening> {
    [Open(t.h, ch), Open(t.num, ch), Open(t.den, ch), Open(t.vx0, ch), Open(t.vx1, ch), Open(t.v1x, ch)]
  }

  /** The bundle `local_hyperplonk` returns. */
  function BaselineBundle(p: Prime, backend: Backend, n: nat, inst: Instance): Result<ProofBundle>
    requires FixesTwoVariables(backend.fixVariable) && WellSized(n, inst)
  {
    var w := Arithmetize(backend, n, inst);
    match WiringTablesOf(p, backend, n, inst, w)
    case Err(e) => Err(e)
    case Ok(t) =>
      Ok(ProofBundle(
        GateIdentityPart(GateIdentityProofs(p, inst, w), GateIdentityCommitments(inst, w)),
        WiringPart(WiringProofs(inst.eq, t, inst.challenge), WiringCommits(t), WiringOpens(t, inst.challenge))))
  }

  /** The bundle `local_hyperplonkpp` returns: the witness link goes first in the wiring lists. */
  function PlusBundle(p: Prime, backend: Backend, n: nat, inst: Instance, x: LinkInputs): Result<ProofBundle>
    requires FixesTwoVariables(backend.fixVariable) && WellSized(n, inst)
  {
    var w := Arithmetize(backend, n, inst);
    match WiringTablesOf(p, backend, n, inst, w)
    case Err(e) => Err(e)
    case Ok(t) =>
      Ok(ProofBundle(
        GateIdentityPart(GateIdentityProofs(p, inst, w), GateIdentityCommitments(inst, w)),
        WiringPart(
          [SumcheckProduct(inst.m, x.s, x.challengeP2)] + WiringProofs(inst.eq, t, inst.challenge),
          [Commit(x.s)] + WiringCommits(t),
          [Open(x.s, x.challengeP2), Open(inst.m, x.challengeP2), Open(inst.m, x.challengeP2b)]
            + WiringOpens(t, inst.challenge))))
  }

  // ---------------------------------------------------------------------------
  // The pipelines

  /** Commit phase: the nine polynomials, in order a, b, c, I, q1, q2, sigma_a, sigma_b, sigma_c. */
  method CommitWires(inst: Instance, w: Wires) returns (coms: seq<Commitment>)
    ensures |coms| == 9
    ensures forall k :: 0 <= k < 9 ==> coms[k] == Commit(CommittedTables(inst, w)[k])
  {
    var comA := Commit(w.a);
    var comB := Commit(w.b);
    var comC := Commit(w.c);
    var comIn := Commit(inst.input);
    var comQ1 := Commit(inst.q1);
    var comQ2 := Commit(inst.q2);
    var comSigmaA := Commit(w.sigmaA);
    var comSigmaB := Commit(w.sigmaB);
    var comSigmaC := Commit(w.sigmaC);
    coms := [comA, comB, comC, comIn, comQ1, comQ2, comSigmaA, comSigmaB, comSigmaC];
  }

  /** Gate identity: six product sum-checks pushed in order, building sum_ab and sum_ci on the way. */
  method ProveGateIdentity(p: Prime, inst: Instance, w: Wires) returns (proofs: seq<SumcheckProof>)
    ensures proofs == GateIdentityProofs(p, inst, w)
  {
    var ch := inst.challenge;
    proofs := [];
    proofs := proofs + [SumcheckProduct(inst.eq, inst.q1, ch)];
    var sumAB := SumTable(p, w.a, w.b);
    proofs := proofs + [SumcheckProduct(inst.q1, sumAB, ch)];
    proofs := proofs + [SumcheckProduct(inst.eq, inst.q2, ch)];
    proofs := proofs + [SumcheckProduct(w.a, w.b, ch)];
    proofs := proofs + [SumcheckProduct(inst.q2, w.a, ch)];
    var sumCI := NegSumTable(p, w.c, inst.input);
    proofs := proofs + [SumcheckProduct(inst.eq, sumCI, ch)];
  }

  /**
   * Wire identity: num, den, h and the accumulator, then commit and open of
   * the six tables and the six sum-checks, appended to the lists it is given.
   * Aborts, with nothing appended, when den has a zero entry.
   */
  method ProveWiringIdentity(p: Prime, backend: Backend, n: nat, inst: Instance, w: Wires,
                             proofs0: seq<SumcheckProof>, commits0: seq<Commitment>, opens0: seq<Opening>)
    returns (r: Result<WiringPart>)
    requires |w.a| >= Pow2(n) && |w.b| >= Pow2(n) && |w.c| >= Pow2(n)
    requires |w.sigmaA| >= Pow2(n) && |w.sigmaB| >= Pow2(n) && |w.sigmaC| >= Pow2(n)
    requires |inst.sid| >= Pow2(n)
    ensures WiringTablesOf(p, backend, n, inst, w).Err? ==> r == Err(WiringTablesOf(p, backend, n, inst, w).error)
    ensures WiringTablesOf(p, backend, n, inst, w).Ok? ==>
      var t := WiringTablesOf(p, backend, n, inst, w).value;
      r == Ok(WiringPart(proofs0 + WiringProofs(inst.eq, t, inst.challenge),
                         commits0 + WiringCommits(t),
                         opens0 + WiringOpens(t, inst.challenge)))
  {
    var ch := inst.challenge;
    var num := WireProduct(p, Pow2(n), w.a, w.b, w.c, w.sigmaA, w.sigmaB, w.sigmaC, inst.beta, inst.gamma);
    var den := WireProduct(p, Pow2(n), w.a, w.b, w.c, inst.sid, inst.sid, inst.sid, inst.beta, inst.gamma);
    var quotients := Quotients(p, num, den);
    if quotients.Err? {
      return Err(quotients.error);
    }
    var h := quotients.value;
    var acc := backend.accProduct(h);
    var vx0, vx1, v1x := acc.0, acc.1, acc.2;
    var proofs, commits, opens := proofs0, commits0, opens0;
    commits := commits + [Commit(h)];
    opens := opens + [Open(h, ch)];
    commits := commits + [Commit(num)];
    opens := opens + [Open(num, ch)];
    commits := commits + [Commit(den)];
    opens := opens + [Open(den, ch)];
    commits := commits + [Commit(vx0)];
    opens := opens + [Open(vx0, ch)];
    commits := commits + [Commit(vx1)];
    opens := opens + [Open(vx1, ch)];
    commits := commits + [Commit(v1x)];
    opens := opens + [Open(v1x, ch)];
    proofs := proofs + [SumcheckProduct(inst.eq, v1x, ch)];
    proofs := proofs + [SumcheckProduct(inst.eq, vx0, ch)];
    proofs := proofs + [SumcheckProduct(vx0, vx1, ch)];
    proofs := proofs + [SumcheckProduct(inst.eq, den, ch)];
    proofs := proofs + [SumcheckProduct(inst.eq, num, ch)];
    proofs := proofs + [SumcheckProduct(h, num, ch)];
    var t := WiringTables(num, den, h, vx0, vx1, v1x);
    assert WiringTablesOf(p, backend, n, inst, w) == Ok(t);
    assert commits == commits0 + WiringCommits(t);
    assert opens == opens0 + WiringOpens(t, ch);
    assert proofs == proofs0 + WiringProofs(inst.eq, t, ch);
    r := Ok(WiringPart(proofs, commits, opens));
  }

  /** Open phase: each of the nine commitments paired with its polynomial's opening at the challenge. */
  method OpenWires(coms: seq<Commitment>, inst: Instance, w: Wires) returns (pairs: seq<(Commitment, Opening)>)
    requires |coms| == 9
    ensures |pairs| == 9
    ensures forall k :: 0 <= k < 9 ==> pairs[k] == (coms[k], Open(CommittedTables(inst, w)[k], inst.challenge))
  {
    var ch := inst.challenge;
    pairs := [];
    pairs := pairs + [(coms[0], Open(w.a, ch))];
    pairs := pairs + [(coms[1], Open(w.b, ch))];
    pairs := pairs + [(coms[2], Open(w.c, ch))];
    pairs := pairs + [(coms[3], Open(inst.input, ch))];
    pairs := pairs + [(coms[4], Open(inst.q1, ch))];
    pairs := pairs + [(coms[5], Open(inst.q2, ch))];
    pairs := pairs + [(coms[6], Open(w.sigmaA, ch))];
    pairs := pairs + [(coms[7], Open(w.sigmaB, ch))];
    pairs := pairs + [(coms[8], Open(w.sigmaC, ch))];
  }

  /** The plus variant's extra step: commit s, prove (M, s), open s once and M twice. */
  method LinkWitness(inst: Instance, x: LinkInputs)
    returns (proofs: seq<SumcheckProof>, commits: seq<Commitment>, opens: seq<Opening>)
    ensures proofs == [SumcheckProduct(inst.m, x.s, x.challengeP2)]
    ensures commits == [Commit(x.s)]
    ensures opens == [Open(x.s, x.challengeP2), Open(inst.m, x.challengeP2), Open(inst.m, x.challengeP2b)]
  {
    proofs, commits, opens := [], [], [];
    commits := commits + [Commit(x.s)];
    proofs := proofs + [SumcheckProduct(inst.m, x.s, x.challengeP2)];
    opens := opens + [Open(x.s, x.challengeP2)];
    opens := opens + [Open(inst.m, x.challengeP2)];
    opens := opens + [Open(inst.m, x.challengeP2b)];
  }

  /** local_hyperplonk */
  method LocalHyperplonk(p: Prime, backend: Backend, n: nat, inst: Instance) returns (r: Result<ProofBundle>)
    requires FixesTwoVariables(backend.fixVariable) && WellSized(n, inst)
    ensures r == BaselineBundle(p, backend, n, inst)
  {
    var w := Arithmetize(backend, n, inst);
    var coms := CommitWires(inst, w);
    var gateProofs := ProveGateIdentity(p, inst, w);
    var wiring := ProveWiringIdentity(p, backend, n, inst, w, [], [], []);
    if wiring.Err? {
      return Err(wiring.error);
    }
    var gateCommitments := OpenWires(coms, inst, w);
    assert gateCommitments == GateIdentityCommitments(inst, w);
    ghost var t := WiringTablesOf(p, backend, n, inst, w).value;
    assert wiring.value.proofs == WiringProofs(inst.eq, t, inst.challenge);
    assert wiring.value.commits == WiringCommits(t);
    assert wiring.value.opens == WiringOpens(t, inst.challenge);
    r := Ok(ProofBundle(GateIdentityPart(gateProofs, gateCommitments), wiring.value));
  }

  /** local_hyperplonkpp */
  method LocalHyperplonkPP(p: Prime, backend: Backend, n: nat, inst: Instance, x: LinkInputs)
    returns (r: Result<ProofBundle>)
    requires FixesTwoVariables(backend.fixVariable) && WellSized(n, inst) && LinkWellSized(n, x)
    ensures r == PlusBundle(p, backend, n, inst, x)
  {
    var w := Arithmetize(backend, n, inst);
    var coms := CommitWires(inst, w);
    var gateProofs := ProveGateIdentity(p, inst, w);
    var proofs, commits, opens := LinkWitness(inst, x);
    var wiring := ProveWiringIdentity(p, backend, n, inst, w, proofs, commits, opens);
    if wiring.Err? {
      return Err(wiring.error);
    }
    var gateCommitments := OpenWires(coms, inst, w);
    assert gateCommitments == GateIdentityCommitments(inst, w);
    r := Ok(ProofBundle(GateIdentityPart(gateProofs, gateCommitments), wiring.value));
  }

  // ---------------------------------------------------------------------------
  // What the bundle promises

  /** The (left, right) operand tables of a list of sum-check proofs. */
  function Operands(proofs: seq<SumcheckProof>): seq<(Table, Table)> {
    seq(|proofs|, k requires 0 <= k < |proofs| => (proofs[k].left, proofs[k].right))
  }

  /** Every wire and label table, and both helper tables, have gate_count entries. */
  lemma TableSizes(p: Prime, backend: Backend, n: nat, inst: Instance)
    requires FixesTwoVariables(backend.fixVariable) && WellSized(n, inst)
    ensures var w := Arithmetize(backend, n, inst);
      && |w.a| == Pow2(n) && |w.b| == Pow2(n) && |w.c| == Pow2(n)
      && |w.sigmaA| == Pow2(n) && |w.sigmaB| == Pow2(n) && |w.sigmaC| == Pow2(n)
      && |SumTable(p, w.a, w.b)| == Pow2(n) && |NegSumTable(p, w.c, inst.input)| == Pow2(n)
  {
  }

  /**
   * The gate identity holds six sum-checks, all at the challenge, on the pairs
   * (eq, q1), (q1, sum_ab), (eq, q2), (a, b), (q2, a), (eq, sum_ci) in that order.
   */
  lemma GateIdentityProofsInOrder(p: Prime, backend: Backend, n: nat, inst: Instance)
    requires FixesTwoVariables(backend.fixVariable) && WellSized(n, inst)
    requires BaselineBundle(p, backend, n, inst).Ok?
    ensures var w := Arithmetize(backend, n, inst);
            var proofs := BaselineBundle(p, backend, n, inst).value.gateIdentity.proofs;
      && |proofs| == 6
      && (forall k :: 0 <= k < |proofs| ==> proofs[k].point == inst.challenge)
      && Operands(proofs) == [(inst.eq, inst.q1), (inst.q1, SumTable(p, w.a, w.b)), (inst.eq, inst.q2),
                              (w.a, w.b), (inst.q2, w.a), (inst.eq, NegSumTable(p, w.c, inst.input))]
  {
  }

  /**
   * The gate identity pairs each of a, b, c, I, q1, q2, sigma_a, sigma_b,
   * sigma_c, in that order, with one commitment to it and one opening of it at
   * the challenge.
   */
  lemma GateIdentityCommitmentsInOrder(p: Prime, backend: Backend, n: nat, inst: Instance)
    requires FixesTwoVariables(backend.fixVariable) && WellSized(n, inst)
    requires BaselineBundle(p, backend, n, inst).Ok?
    ensures var w := Arithmetize(backend, n, inst);
            var pairs := BaselineBundle(p, backend, n, inst).value.gateIdentity.commitments;
            var tables := [w.a, w.b, w.c, inst.input, inst.q1, inst.q2, w.sigmaA, w.sigmaB, w.sigmaC];
      && |pairs| == 9
      && forall k :: 0 <= k < 9 ==> pairs[k].0 == Commit(tables[k]) && pairs[k].1 == Open(tables[k], inst.challenge)
  {
  }

  /**
   * The baseline's wire identity commits h, num, den, vx0, vx1, v1x in that
   * order, opens the same six tables in the same order at the challenge, and
   * proves the pairs (eq, v1x), (eq, vx0), (vx0, vx1), (eq, den), (eq, num),
   * (h, num) at the challenge.
   */
  lemma WiringListsInOrder(p: Prime, backend: Backend, n: nat, inst: Instance)
    requires FixesTwoVariables(backend.fixVariable) && WellSized(n, inst)
    requires BaselineBundle(p, backend, n, inst).Ok?
    ensures var t := WiringTablesOf(p, backend, n, inst, Arithmetize(backend, n, inst)).value;
            var wiring := BaselineBundle(p, backend, n, inst).value.wiring;
            var tables := [t.h, t.num, t.den, t.vx0, t.vx1, t.v1x];
      && |wiring.commits| == 6 && |wiring.opens| == 6 && |wiring.proofs| == 6
      && (forall k :: 0 <= k < 6 ==> wiring.commits[k] == Commit(tables[k]))
      && (forall k :: 0 <= k < 6 ==> wiring.opens[k] == Open(tables[k], inst.challenge))
      && (forall k :: 0 <= k < 6 ==> wiring.proofs[k].point == inst.challenge)
      && Operands(wiring.proofs) == [(inst.eq, t.v1x), (inst.eq, t.vx0), (t.vx0, t.vx1),
                                     (inst.eq, t.den), (inst.eq, t.num), (t.h, t.num)]
  {
  }

  /**
   * The baseline succeeds exactly when no blinded identity term
   * w[i] + beta * sid[i] + gamma vanishes; otherwise it aborts at the first gate
   * where one does.
   */
  lemma BaselineSucceedsIff(p: Prime, backend: Backend, n: nat, inst: Instance)
    requires FixesTwoVariables(backend.fixVariable) && WellSized(n, inst)
    ensures var w := Arithmetize(backend, n, inst);
      BaselineBundle(p, backend, n, inst).Ok? <==>
        forall i :: 0 <= i < Pow2(n) ==> IdentityTermsNonZero(p, inst, w, i)
    ensures var w := Arithmetize(backend, n, inst);
            var r := BaselineBundle(p, backend, n, inst);
      r.Err? ==>
        && r.error.index < Pow2(n) && !IdentityTermsNonZero(p, inst, w, r.error.index)
        && forall j :: 0 <= j < r.error.index ==> IdentityTermsNonZero(p, inst, w, j)
  {
    BaselineWiring(p, backend, n, inst);
  }

  /** None of the three identity-labelled blinded terms at gate i is zero. */
  predicate IdentityTermsNonZero(p: Prime, inst: Instance, w: Wires, i: nat)
    requires i < |w.a| && i < |w.b| && i < |w.c| && i < |inst.sid|
  {
    && Blind(p, w.a[i], inst.sid[i], inst.beta, inst.gamma) != 0
    && Blind(p, w.b[i], inst.sid[i], inst.beta, inst.gamma) != 0
    && Blind(p, w.c[i], inst.sid[i], inst.beta, inst.gamma) != 0
  }

  /**
   * The first three wiring commitments are to h, num and den, all of gate_count
   * entries, and at every gate den is non-zero and h * den == num.
   */
  lemma WiringRatio(p: Prime, backend: Backend, n: nat, inst: Instance)
    requires FixesTwoVariables(backend.fixVariable) && WellSized(n, inst)
    requires BaselineBundle(p, backend, n, inst).Ok?
    ensures var commits := BaselineBundle(p, backend, n, inst).value.wiring.commits;
      |commits| >= 3 &&
      var h, num, den := commits[0].table, commits[1].table, commits[2].table;
      && |h| == Pow2(n) && |num| == Pow2(n) && |den| == Pow2(n)
      && forall i :: 0 <= i < Pow2(n) ==> den[i] != 0 && Mul(p, h[i], den[i]) == num[i]
  {
    BaselineWiring(p, backend, n, inst);
  }

  /** The baseline's wiring part is built from the wiring tables, and exists exactly when they do. */
  lemma BaselineWiring(p: Prime, backend: Backend, n: nat, inst: Instance)
    requires FixesTwoVariables(backend.fixVariable) && WellSized(n, inst)
    ensures var t := WiringTablesOf(p, backend, n, inst, Arithmetize(backend, n, inst));
            var r := BaselineBundle(p, backend, n, inst);
      && (r.Ok? <==> t.Ok?)
      && (r.Err? ==> r.error == t.error)
      && (r.Ok? ==> r.value.wiring == WiringPart(WiringProofs(inst.eq, t.value, inst.challenge),
                                                 WiringCommits(t.value), WiringOpens(t.value, inst.challenge)))
  {
  }

  /**
   * When every permutation label agrees with the identity label (the trivial
   * permutation), num equals den and the committed h is the all-ones table.
   */
  lemma TrivialPermutationUnitRatio(p: Prime, backend: Backend, n: nat, inst: Instance)
    requires FixesTwoVariables(backend.fixVariable) && WellSized(n, inst)
    requires var w := Arithmetize(backend, n, inst);
      forall i :: 0 <= i < Pow2(n) ==>
        w.sigmaA[i] == inst.sid[i] && w.sigmaB[i] == inst.sid[i] && w.sigmaC[i] == inst.sid[i]
    requires BaselineBundle(p, backend, n, inst).Ok?
    ensures BaselineBundle(p, backend, n, inst).value.wiring.commits[0] == Commit(seq(Pow2(n), i => 1))
  {
    var w := Arithmetize(backend, n, inst);
    var num := WireProduct(p, Pow2(n), w.a, w.b, w.c, w.sigmaA, w.sigmaB, w.sigmaC, inst.beta, inst.gamma);
    var den := WireProduct(p, Pow2(n), w.a, w.b, w.c, inst.sid, inst.sid, inst.sid, inst.beta, inst.gamma);
    assert num == den;
    UnitQuotients(p, den);
  }

  /**
   * With beta = gamma = 0 and all-zero wire tables every den entry is zero, so
   * both pipelines abort with a division by zero at the first gate.
   */
  lemma DegenerateBlindingAborts(p: Prime, backend: Backend, n: nat, inst: Instance, x: LinkInputs)
    requires FixesTwoVariables(backend.fixVariable) && WellSized(n, inst)
    requires inst.beta == 0 && inst.gamma == 0
    requires var w := Arithmetize(backend, n, inst);
      forall i :: 0 <= i < Pow2(n) ==> w.a[i] == 0 && w.b[i] == 0 && w.c[i] == 0
    ensures BaselineBundle(p, backend, n, inst) == Err(DivisionByZero(0))
    ensures PlusBundle(p, backend, n, inst, x) == Err(DivisionByZero(0))
  {
    var w := Arithmetize(backend, n, inst);
    var den := WireProduct(p, Pow2(n), w.a, w.b, w.c, inst.sid, inst.sid, inst.sid, inst.beta, inst.gamma);
    BlindOfZero(p, inst.sid[0]);
    assert den[0] == 0;
    var num := WireProduct(p, Pow2(n), w.a, w.b, w.c, w.sigmaA, w.sigmaB, w.sigmaC, inst.beta, inst.gamma);
    FirstDenominatorZero(p, num, den);
    BaselineWiring(p, backend, n, inst);
    PlusExtendsBaseline(p, backend, n, inst, x);
  }

  /**
   * The plus variant's bundle is the baseline's for the same inputs with the
   * witness link in front of the wiring lists: one sum-check (M, s) at
   * challenge_p2, one commitment to s, and the openings of s and M at
   * challenge_p2 and of M at challenge_p2_2. It fails exactly when the
   * baseline does, with the same error.
   */
  lemma PlusExtendsBaseline(p: Prime, backend: Backend, n: nat, inst: Instance, x: LinkInputs)
    requires FixesTwoVariables(backend.fixVariable) && WellSized(n, inst)
    ensures PlusBundle(p, backend, n, inst, x).Ok? <==> BaselineBundle(p, backend, n, inst).Ok?
    ensures BaselineBundle(p, backend, n, inst).Err? ==>
      PlusBundle(p, backend, n, inst, x) == BaselineBundle(p, backend, n, inst)
    ensures BaselineBundle(p, backend, n, inst).Ok? ==>
      var base, plus := BaselineBundle(p, backend, n, inst).value, PlusBundle(p, backend, n, inst, x).value;
      && plus.gateIdentity == base.gateIdentity
      && plus.wiring.proofs == [SumcheckProduct(inst.m, x.s, x.challengeP2)] + base.wiring.proofs
      && plus.wiring.commits == [Commit(x.s)] + base.wiring.commits
      && plus.wiring.opens ==
           [Open(x.s, x.challengeP2), Open(inst.m, x.challengeP2), Open(inst.m, x.challengeP2b)]
           + base.wiring.opens
  {
  }

  /** The plus variant's list sizes: 6 and 9 for the gate identity, 7, 7 and 9 for the wiring. */
  lemma PlusListSizes(p: Prime, backend: Backend, n: nat, inst: Instance, x: LinkInputs)
    requires FixesTwoVariables(backend.fixVariable) && WellSized(n, inst)
    requires PlusBundle(p, backend, n, inst, x).Ok?
    ensures var b := PlusBundle(p, backend, n, inst, x).value;
      && |b.gateIdentity.proofs| == 6 && |b.gateIdentity.commitments| == 9
      && |b.wiring.proofs| == 7 && |b.wiring.commits| == 7 && |b.wiring.opens| == 9
  {
  }

  /**
   * sum_ab and sum_ci are the factors the gate polynomial needs: at every gate,
   * eq * (q1 * sum_ab + q2 * a * b + sum_ci) is
   * F = eq * (q1 * (a + b) + q2 * a * b - c + I).
   */
  lemma GateIdentityRecombination(p: Prime, backend: Backend, n: nat, inst: Instance)
    requires FixesTwoVariables(backend.fixVariable) && WellSized(n, inst)
    ensures var w := Arithmetize(backend, n, inst);
            var sumAB, sumCI := SumTable(p, w.a, w.b), NegSumTable(p, w.c, inst.input);
      && |sumAB| == Pow2(n) && |sumCI| == Pow2(n)
      && forall i :: 0 <= i < Pow2(n) ==>
           Mul(p, inst.eq[i], Add(p, Add(p, Mul(p, inst.q1[i], sumAB[i]), Mul(p, Mul(p, inst.q2[i], w.a[i]), w.b[i])),
                                  sumCI[i]))
           == GateValue(p, inst.eq[i], inst.q1[i], inst.q2[i], w.a[i], w.b[i], w.c[i], inst.input[i])
  {
    var w := Arithmetize(backend, n, inst);
    forall i | 0 <= i < Pow2(n)
      ensures Mul(p, inst.eq[i], Add(p, Add(p, Mul(p, inst.q1[i], SumTable(p, w.a, w.b)[i]),
                                            Mul(p, Mul(p, inst.q2[i], w.a[i]), w.b[i])),
                                     NegSumTable(p, w.c, inst.input)[i]))
              == GateValue(p, inst.eq[i], inst.q1[i], inst.q2[i], w.a[i], w.b[i], w.c[i], inst.input[i])
    {
      GateFactors(p, inst.eq[i], inst.q1[i], inst.q2[i], w.a[i], w.b[i], w.c[i], inst.input[i]);
    }
  }
}
