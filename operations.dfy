/** The operations held in the registry, seen only through what the registry
    and the evaluator use of them: which variant they are and how many input
    matrices one evaluation consumes. */
module Operations {

  datatype Kind = Identity | Transpose | Scalar | Add | Sub | Comp

  datatype Operation = Operation(kind: Kind, inputCount: nat)

  /** The catalogue every calculator starts with. */
  function CreateOperations(): (ops: seq<Operation>)
    ensures |ops| == 2
    ensures ops[0].kind == Identity && ops[1].kind == Transpose
    ensures forall k :: 0 <= k < |ops| ==> ops[k].inputCount == 1
  {
    [Operation(Identity, 1), Operation(Transpose, 1)]
  }
}
