# HyperPlonk prover pipelines, modelled in Dafny

This project models the two cost-simulation prover pipelines in
`hyperplonk/src/hyperplonk.rs`: the baseline `local_hyperplonk` and the plus
variant `local_hyperplonkpp`. Both build a HyperPlonk-style proof bundle. The
bundle has two groups:

- gate identity: the sum-check proofs, and the (commitment, opening) pairs;
- wire identity: the sum-check proofs, the commitments and the openings.

The model has four modules.

- `Field` (`field.dfy`): arithmetic in the scalar field. The Rust code is
  generic over the pairing `E`, so the modulus is a parameter `p` of type
  `Prime`, and every fact is proved for every prime. The multiplicative
  inverse is computed by extended Euclid. It is absent exactly for zero, which
  is how the field's `inverse` behaves.
- `Tables` (`tables.dfy`): the tables the prover computes itself. These are
  `sum_ab`, `sum_ci`, the grand-product terms `num` and `den`, and the
  quotient `h = num / den`. The zipped `map`/`collect` pipelines become
  functions over `seq<nat>`. A division by zero aborts the source with a
  panic; here it is the error `DivisionByZero(i)` at the first zero `den[i]`.
- `Primitives` (`primitives.dfy`): the collaborators the source calls but does
  not contain. `sumcheck_product`, `commit` and `open` are tagged terms that
  record the tables and the point they were applied to. `fix_variable` and
  `acc_product` are function values in a `Backend` record, because the prover
  reads their output tables. `fix_variable` has only a length contract: fixing
  two variables of a table of `4 * 2^k` entries leaves a quarter of it.
  `acc_product` has no contract.
- `Hyperplonk` (`hyperplonk.dfy`): the two pipelines. Each is a method that
  pushes onto the five lists in the source's order. Each is proved equal to
  a declarative bundle (`BaselineBundle`, `PlusBundle`). Lemmas then state
  the list sizes and orders, the challenge each entry uses, the ratio
  `h * den == num`, when a pipeline aborts, and that the plus bundle is the
  baseline bundle with a fixed prefix on the wiring lists.

All randomness is passed in. `Instance` holds the samples both pipelines
draw. `LinkInputs` holds the plus variant's extra table `s` and its two
`(n+2)`-point challenges. `WellSized` gives the sizes at which the source
samples them.

## Model

| member | source | states |
|---|---|---|
| `Field.Neg` | hyperplonk/src/hyperplonk.rs:94 | the negation `-c` is a reduced element whose sum with `c` is zero |
| `Field.Inverse` | hyperplonk/src/hyperplonk.rs:120 | the inverse behind field division exists exactly when `x` is non-zero mod p; when it exists it is reduced and `x * inv == 1` |
| `Field.Div` | hyperplonk/src/hyperplonk.rs:120 | `x / y` is defined exactly when `y` is non-zero; the quotient is reduced and the quotient times `y` is `x` |
| `Field.QuotientUnique` | hyperplonk/src/hyperplonk.rs:120 | any `z` with `z * y == x` is the quotient `x / y` (mod p), so `/` has exactly one answer |
| `Field.NoZeroDivisors` | hyperplonk/src/hyperplonk.rs:113-119 | a product is zero if and only if one factor is zero mod p |
| `Tables.Pow2` | hyperplonk/src/hyperplonk.rs:20 | `gate_count = 1 << n`, the number of points of the n-variable hypercube, is larger than n (so at least one gate) |
| `Tables.SumTable` | hyperplonk/src/hyperplonk.rs:80-84 | `sum_ab` has the zipped length (min of the two lengths); each entry is reduced, and subtracting `b[i]` from it gives back `a[i]` |
| `Tables.NegSumTable` | hyperplonk/src/hyperplonk.rs:91-95 | `sum_ci` has the zipped length; each entry is reduced, and adding `c[i]` to it gives back `input[i]` |
| `Tables.WireProduct` | hyperplonk/src/hyperplonk.rs:106-119 | `num`/`den` have exactly `count` reduced entries; entry i is zero if and only if one of its three blinded terms `w[i] + beta*label[i] + gamma` is zero |
| `Tables.BlindOfZero` | hyperplonk/src/hyperplonk.rs:115-117 | with `beta = gamma = 0`, the blinded term of a zero wire value is zero whatever the label |
| `Tables.Quotients` | hyperplonk/src/hyperplonk.rs:120 | `h` exists exactly when no `den[i]` in the zipped range is zero; then it has the zipped length and `h[i] * den[i] == num[i]` at every i; otherwise the error names the first zero `den` entry |
| `Tables.QuotientsRatio` | hyperplonk/src/hyperplonk.rs:120 | for reduced tables of equal length, a successful `h` has that length, every `den[i]` is non-zero and `h[i] * den[i] == num[i]` exactly |
| `Tables.QuotientsUnique` | hyperplonk/src/hyperplonk.rs:120 | `h` is the only reduced table whose entries times `den` give `num` |
| `Tables.UnitQuotients` | hyperplonk/src/hyperplonk.rs:120 | a table with no zero entry divided by itself is the all-ones table |
| `Tables.FirstDenominatorZero` | hyperplonk/src/hyperplonk.rs:120 | a zero `den[0]` aborts the division at index 0 |
| `Tables.GateFactors` | hyperplonk/src/hyperplonk.rs:75-96 | at one point, `eq * (q1 * (a+b) + q2 * a * b + (-c + I))` computed with field operations equals `F = eq*(q1*(a+b) + q2*a*b - c + I)` computed over the integers and reduced once |
| `Hyperplonk.Arithmetize` | hyperplonk/src/hyperplonk.rs:23-35 | `a, b, c` and the three labels come from fixing two variables of `M` and `S_sigma` to (0,0), (0,1), (1,0); each is a quarter of its source table |
| `Hyperplonk.CommitWires` | hyperplonk/src/hyperplonk.rs:55-66 | nine commitments, to a, b, c, I, q1, q2, sigma_a, sigma_b, sigma_c in that order |
| `Hyperplonk.ProveGateIdentity` | hyperplonk/src/hyperplonk.rs:73-96 | the pushed gate-identity proofs are the exact six-entry list of `GateIdentityProofs` |
| `Hyperplonk.ProveWiringIdentity` | hyperplonk/src/hyperplonk.rs:100-143 | aborts with the division's error when `h` cannot be built; otherwise appends exactly the six wiring proofs, six commitments and six openings to the lists it is given |
| `Hyperplonk.OpenWires` | hyperplonk/src/hyperplonk.rs:148-156 | nine pairs, each commitment paired with the opening of the same polynomial at the challenge, in commit order |
| `Hyperplonk.LinkWitness` | hyperplonk/src/hyperplonk.rs:259-264 | the plus step: one sum-check `(M, s)` at `challengep2`, one commitment to `s`, and the openings of `s` and `M` at `challengep2` and of `M` at `challengep2_2` |
| `Hyperplonk.LocalHyperplonk` | hyperplonk/src/hyperplonk.rs:15-166 | the baseline pipeline returns exactly `BaselineBundle` for the same inputs, including its abort |
| `Hyperplonk.LocalHyperplonkPP` | hyperplonk/src/hyperplonk.rs:168-327 | the plus pipeline returns exactly `PlusBundle` for the same inputs, including its abort |
| `Hyperplonk.TableSizes` | hyperplonk/src/hyperplonk.rs:20-95 | every wire and label table, `sum_ab` and `sum_ci` have `gate_count = 2^n` entries |
| `Hyperplonk.GateIdentityProofsInOrder` | hyperplonk/src/hyperplonk.rs:79-96 | six gate-identity proofs, all at `challenge`, on (eq,q1), (q1,sum_ab), (eq,q2), (a,b), (q2,a), (eq,sum_ci) in that order |
| `Hyperplonk.GateIdentityCommitmentsInOrder` | hyperplonk/src/hyperplonk.rs:148-156 | nine pairs; pair k commits to and opens at `challenge` the k-th of a, b, c, I, q1, q2, sigma_a, sigma_b, sigma_c, so each is committed once and opened once |
| `Hyperplonk.WiringListsInOrder` | hyperplonk/src/hyperplonk.rs:125-143 | baseline wiring: commits to h, num, den, vx0, vx1, v1x; opens of the same six tables at `challenge`; six proofs at `challenge` on (eq,v1x), (eq,vx0), (vx0,vx1), (eq,den), (eq,num), (h,num) |
| `Hyperplonk.BaselineWiring` | hyperplonk/src/hyperplonk.rs:106-143 | the baseline exists exactly when the wiring tables do, with the same error; its wiring part is built from those tables |
| `Hyperplonk.BaselineSucceedsIff` | hyperplonk/src/hyperplonk.rs:113-120 | the baseline succeeds if and only if no blinded identity term `w[i] + beta*sid[i] + gamma` is zero; otherwise it aborts at the first gate where one is |
| `Hyperplonk.WiringTablesOf` | hyperplonk/src/hyperplonk.rs:106-122 | the wire-identity tables exist exactly when no identity-labelled blinded term `w[i] + beta*sid[i] + gamma` is zero; otherwise the division fails at the first gate where one is. When they exist, `num` and `den` are the grand-product tables with the permutation and the identity labels, `h` has `gate_count` entries with `den[i] != 0` and `h[i] * den[i] == num[i]` at every gate, and `vx0, vx1, v1x` are `acc_product(h)` |
| `Hyperplonk.WiringRatio` | hyperplonk/src/hyperplonk.rs:120-130 | in the returned bundle the first three wiring commitments are to `h`, `num`, `den`, of `gate_count` entries, with `den[i] != 0` and `h[i] * den[i] == num[i]` at every gate |
| `Hyperplonk.TrivialPermutationUnitRatio` | hyperplonk/src/hyperplonk.rs:106-125 | when every permutation label equals the identity label, the committed `h` is the all-ones table |
| `Hyperplonk.DegenerateBlindingAborts` | hyperplonk/src/hyperplonk.rs:113-120 | with `beta = gamma = 0` and zero wire tables, both pipelines abort with a division by zero at gate 0 |
| `Hyperplonk.PlusExtendsBaseline` | hyperplonk/src/hyperplonk.rs:259-304 | the plus bundle fails exactly when the baseline does, with the same error. Otherwise its gate part equals the baseline's, and its wiring lists are the baseline's with a fixed prefix: `sumcheck(M, s, challengep2)` on proofs, `commit(s)` on commits, and `open(s, challengep2), open(M, challengep2), open(M, challengep2_2)` on opens |
| `Hyperplonk.PlusListSizes` | hyperplonk/src/hyperplonk.rs:255-317 | plus variant: 6 gate proofs, 9 gate pairs, 7 wiring proofs, 7 wiring commits, 9 wiring opens |
| `Hyperplonk.GateIdentityRecombination` | hyperplonk/src/hyperplonk.rs:75-96 | at every gate, `sum_ab` and `sum_ci` are the factors the gate polynomial needs: `eq * (q1*sum_ab + q2*a*b + sum_ci)` equals `F = eq*(q1*(a+b) + q2*a*b - c + I)` |

## Left out

- Randomness: `random_evaluations`, `StdRng::from_entropy` and `UniformRand` (lines 19, 22-49, 172-204, 259). Every table, `beta`, `gamma` and every challenge is an input. `WellSized` and `LinkWellSized` give the sizes at which the source samples them.
- Commitment parameters: `new_toy(g1, g2, s).mature()` (lines 41-44, 194-197). `commit` and `open` are terms that record only the table and the point. Any concrete commitment scheme is a function of these terms.
- The internals of `fix_variable`, `sumcheck_product`, `acc_product`, `commit` and `open`. They live outside the file, in another crate. The code shown does not fix the index convention of `fix_variable`, so the model does not assume one.
- `acc_product` has no contract, so the model states nothing about the lengths of `vx0`, `vx1`, `v1x`. The model does not check the collaborators' own dimension requirements (equal operand lengths for the sum-check, the point's arity for `open`).
- Timers (`start_timer!` / `end_timer!`): instrumentation only.
- Tables.Pow2: the model uses unbounded integers, so it does not model `usize` overflow. In the source, `gate_count = 1 << n` (lines 20, 173) overflows for `n >= 64`, and the table sizes `gate_count * 4` (lines 22, 32, 175, 185, 259) overflow already for `n >= 62`.
- Field element representation: elements are naturals, and every operation reduces modulo `p`. The model carries no fixed curve modulus, because the code is generic over the pairing.
- A zero `den` entry panics in the source, inside the field division's `unwrap`. The model returns `Err(DivisionByZero(i))` instead and produces no bundle. The source produces no output either.
- Soundness. The tables are independent random samples, so the gate and wire identities do not actually hold. Only the arithmetic and the composition of the bundle are modelled.
- Value-level distinctness: the "once each" facts are about positions in the lists. Two independently sampled tables can be equal as values.
- The plus variant opens `M` at two points but never commits to `M` itself (lines 259-264). Only its slices `a, b, c` are committed. The model reproduces this as written.
