/**
 * The collaborators the prover calls but does not implement: partial variable
 * fixing, the grand-product accumulator, the product sum-check and the
 * polynomial commitment scheme.
 *
 * fix_variable and acc_product produce tables that the prover goes on to
 * index, so they are function values held in a `Backend`; fix_variable carries
 * only its length contract and acc_product none. The sum-check proof, the
 * commitment and the opening proof are only stored in the proof bundle, so
 * each is a tagged term recording exactly which tables and which point it was
 * computed from: any concrete scheme is a function of these terms.
 */
module Primitives {
  import opened Tables

  /** sumcheck_product(left, right, point): a proof for the sum of left[i] * right[i]. */
  datatype SumcheckProof = SumcheckProduct(left: Table, right: Table, point: seq<nat>)

  /** commitment.commit(table) */
  datatype Commitment = Commit(table: Table)

  /** commitment.open(table, point): the evaluation at point with its opening proof. */
  datatype Opening = Open(table: Table, point: seq<nat>)

  datatype Backend = Backend(
    fixVariable: (Table, seq<nat>) -> Table,
    accProduct: Table -> (Table, Table, Table))

  /**
   * Fixing two variables of a (k+2)-variable table, of 4 * 2^k entries, leaves
   * a k-variable table: a quarter of the length.
   */
  ghost predicate FixesTwoVariables(fix: (Table, seq<nat>) -> Table) {
    forall t: Table, point: seq<nat>, k: nat {:trigger fix(t, point), Pow2(k)} ::
      |point| == 2 && |t| == 4 * Pow2(k) ==> 4 * |fix(t, point)| == |t|
  }
}
