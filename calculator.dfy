/** The calculator's operation registry: a bounded, index-addressed list of
    operations, the checks every command argument passes through, and the
    bookkeeping half of `eval`. */
module Calculator {
  import opened Base
  import opened Operations
  import opened Lines

  /** The largest matrix order `eval` accepts. */
  const MaxMatSize: Int32 := 5

  /** One more than the largest `size_t`, for a 64-bit `size_t`. */
  const SizeModulus: nat := 0x1_0000_0000_0000_0000

  /** `m_maxOperation` as `size_t`: the usual arithmetic conversions turn a negative
      `int` into a huge unsigned value before it is compared with a vector size. */
  function AsSize(m: Int32): (s: nat)
    ensures s < SizeModulus
    ensures s % SizeModulus == m as int % SizeModulus
    ensures m >= 0 ==> s == m as int
  {
    if m < 0 then m as int + SizeModulus else m as int
  }

  /** A bounds-checked registry index. `None` stands for a token that is not a
      number: its extraction sets failbit and the stream throws. */
  function ReadOperationIndex(size: nat, token: Option<Int32>): (r: Result<nat>)
    ensures r.Ok? <==> token.Some? && 0 <= token.value as int < size
    ensures r.Ok? ==> r.value == token.value as int
    ensures token.None? ==> r == Err(StreamFailure)
    ensures token.Some? && r.Err? ==> r.error == InputError
  {
    match token
    case None => Err(StreamFailure)
    case Some(i) => if i as int >= size || i < 0 then Err(InputError) else Ok(i as nat)
  }

  /** Appending as the calculator does it: refused only once the registry is
      already larger than the capacity. */
  function Append(ops: seq<Operation>, maxOperation: Int32, op: Operation): (r: Result<seq<Operation>>)
    ensures r.Ok? <==> |ops| <= AsSize(maxOperation)
    ensures r.Ok? ==> |r.value| == |ops| + 1 && r.value[..|ops|] == ops && r.value[|ops|] == op
    ensures r.Err? ==> r.error == InputError
  {
    if |ops| > AsSize(maxOperation) then Err(InputError) else Ok(ops + [op])
  }

  /** Appending with the bound the error message announces: refused once the
      registry holds `maxOperation` entries. */
  function AppendIntended(ops: seq<Operation>, maxOperation: Int32, op: Operation): (r: Result<seq<Operation>>)
    ensures r.Ok? <==> |ops| < AsSize(maxOperation)
    ensures r.Ok? ==> |r.value| == |ops| + 1 <= AsSize(maxOperation)
    ensures r.Ok? ==> r.value[..|ops|] == ops && r.value[|ops|] == op
    ensures r.Err? ==> r.error == InputError
  {
    if |ops| >= AsSize(maxOperation) then Err(InputError) else Ok(ops + [op])
  }

  /** The registry after a run of add commands, each refused one leaving it as it was. */
  function AddAll(ops: seq<Operation>, maxOperation: Int32, news: seq<Operation>): seq<Operation>
    decreases |news|
  {
    if news == [] then ops
    else
      var next := match Append(ops, maxOperation, news[0])
        case Ok(grown) => grown
        case Err(_) => ops;
      AddAll(next, maxOperation, news[1..])
  }

  /** The same run of add commands under the intended check. */
  function AddAllIntended(ops: seq<Operation>, maxOperation: Int32, news: seq<Operation>): seq<Operation>
    decreases |news|
  {
    if news == [] then ops
    else
      var next := match AppendIntended(ops, maxOperation, news[0])
        case Ok(grown) => grown
        case Err(_) => ops;
      AddAllIntended(next, maxOperation, news[1..])
  }

  function Min(a: int, b: int): int {
    if a <= b then a else b
  }

  /** Deleting as `del` does: the index is checked, then the entry is erased and
      every later entry moves down one place. */
  function Delete(ops: seq<Operation>, token: Option<Int32>): (r: Result<seq<Operation>>)
    ensures r.Ok? <==> ReadOperationIndex(|ops|, token).Ok?
    ensures r.Err? ==> r.error == ReadOperationIndex(|ops|, token).error
    ensures r.Ok? ==> |r.value| == |ops| - 1
    ensures r.Ok? ==> forall j :: 0 <= j < token.value as int ==> r.value[j] == ops[j]
    ensures r.Ok? ==> forall j :: token.value as int < j < |ops| ==> r.value[j - 1] == ops[j]
  {
    match ReadOperationIndex(|ops|, token)
    case Err(e) => Err(e)
    case Ok(i) => Ok(ops[..i] + ops[i + 1..])
  }

  /** The capacity check of `updateMaxFunc`. `None` stands for a token that is not a
      number; that stream reports failure through its state, and the calculator
      raises an InputException for it. */
  function CheckCapacity(token: Option<Int32>): (r: Result<Int32>)
    ensures r.Ok? <==> token.Some? && 2 <= token.value <= 100
    ensures r.Ok? ==> r.value == token.value
    ensures r.Err? ==> r.error == InputError
  {
    match token
    case None => Err(InputError)
    case Some(m) => if m < 2 || m > 100 then Err(InputError) else Ok(m)
  }

  /** A matrix of the requested order holding the entries read for it. */
  datatype Matrix = Matrix(order: Int32, elements: seq<int>)

  /** What `eval` hands to the operation: the operation and its input matrices. */
  datatype Evaluation = Evaluation(operation: Operation, inputs: seq<Matrix>)

  class FunctionCalculator {
    var operations: seq<Operation>
    var maxOperation: Int32

    /** The initializer list does not set `m_maxOperation`, and `updateMaxFunc`
        writes it before any add, so it is a parameter. */
    constructor (maxOperation: Int32)
      ensures operations == CreateOperations()
      ensures this.maxOperation == maxOperation
    {
      operations := CreateOperations();
      this.maxOperation := maxOperation;
    }

    /** The bound the calculator's check actually keeps: one more than the capacity. */
    predicate WithinCapacity()
      reads this
    {
      |operations| <= AsSize(maxOperation) + 1
    }

    method AddOperation(op: Operation) returns (r: Outcome)
      modifies this`operations
      ensures r.Pass? <==> |old(operations)| <= AsSize(maxOperation)
      ensures r.Pass? ==> operations == old(operations) + [op]
      ensures r.Fail? ==> r.error == InputError && operations == old(operations)
      ensures Append(old(operations), maxOperation, op) == if r.Pass? then Ok(operations) else Err(r.error)
      ensures old(WithinCapacity()) ==> WithinCapacity()
    {
      var grown := Append(operations, maxOperation, op);
      if grown.Err? {
        return Fail(grown.error);
      }
      operations := grown.value;
      r := Pass;
    }

    method Del(token: Option<Int32>) returns (r: Outcome)
      modifies this`operations
      ensures r.Pass? <==> ReadOperationIndex(|old(operations)|, token).Ok?
      ensures r.Pass? ==> operations == old(operations)[..token.value as int] + old(operations)[token.value as int + 1..]
      ensures r.Fail? ==> r.error == ReadOperationIndex(|old(operations)|, token).error && operations == old(operations)
      ensures Delete(old(operations), token) == if r.Pass? then Ok(operations) else Err(r.error)
      ensures old(WithinCapacity()) ==> WithinCapacity()
    {
      var shrunk := Delete(operations, token);
      if shrunk.Err? {
        return Fail(shrunk.error);
      }
      operations := shrunk.value;
      r := Pass;
    }

    /** The validation and input collection of `eval`: the operation index, then the
        order (`None` when it is not a number), then what is left of the line, then
        one matrix per input the operation takes, from `supplied` in order. */
    method Eval(indexToken: Option<Int32>, sizeToken: Option<Int32>, rest: string, supplied: seq<seq<int>>)
      returns (r: Result<Evaluation>)
      ensures ReadOperationIndex(|operations|, indexToken).Err? ==>
        r == Err(ReadOperationIndex(|operations|, indexToken).error)
      ensures ReadOperationIndex(|operations|, indexToken).Ok? && sizeToken.None? ==>
        r == Err(StreamFailure)
      ensures ReadOperationIndex(|operations|, indexToken).Ok? && sizeToken.Some? && sizeToken.value > MaxMatSize ==>
        r == Err(InputError)
      ensures ReadOperationIndex(|operations|, indexToken).Ok? && sizeToken.Some? && sizeToken.value <= MaxMatSize
              && HasNonWhitespace(rest) ==>
        r == Err(InputError)
      ensures r.Ok? <==>
        && ReadOperationIndex(|operations|, indexToken).Ok?
        && sizeToken.Some? && sizeToken.value <= MaxMatSize
        && !HasNonWhitespace(rest)
        && operations[indexToken.value].inputCount <= |supplied|
      ensures ReadOperationIndex(|operations|, indexToken).Ok? && sizeToken.Some? && sizeToken.value <= MaxMatSize
              && !HasNonWhitespace(rest) && |supplied| < operations[indexToken.value].inputCount ==>
        r == Err(InputExhausted)
      ensures r.Ok? ==> r.value.operation == operations[indexToken.value]
      ensures r.Ok? ==> |r.value.inputs| == r.value.operation.inputCount
      ensures r.Ok? ==> forall k :: 0 <= k < |r.value.inputs| ==>
        r.value.inputs[k] == Matrix(sizeToken.value, supplied[k])
    {
      var index := ReadOperationIndex(|operations|, indexToken);
      if index.Err? {
        return Err(index.error);
      }
      var operation := operations[index.value];
      var inputCount := operation.inputCount;
      if sizeToken.None? {
        return Err(StreamFailure);
      }
      var size := sizeToken.value;
      if size > MaxMatSize {
        return Err(InputError);
      }
      if HasNonWhitespace(rest) {
        return Err(InputError);
      }
      var matrixVec: seq<Matrix> := [];
      var i := 0;
      while i < inputCount
        invariant i <= inputCount && i <= |supplied|
        invariant |matrixVec| == i
        invariant forall k :: 0 <= k < i ==> matrixVec[k] == Matrix(size, supplied[k])
      {
        if i == |supplied| {
          return Err(InputExhausted);
        }
        matrixVec := matrixVec + [Matrix(size, supplied[i])];
        i := i + 1;
      }
      r := Ok(Evaluation(operation, matrixVec));
    }

    /** The retry loop of `updateMaxFunc` over the successive numbers typed at its
        prompt. It stops at the first acceptable one and returns its position;
        `None` when the attempts run out, where the calculator would keep asking. */
    method UpdateMaxFunc(attempts: seq<Option<Int32>>) returns (used: Option<nat>)
      modifies this`maxOperation
      ensures used.Some? ==> used.value < |attempts| && CheckCapacity(attempts[used.value]).Ok?
      ensures used.Some? ==> maxOperation == attempts[used.value].value
      ensures used.Some? ==> forall j :: 0 <= j < used.value ==> CheckCapacity(attempts[j]).Err?
      ensures used.None? ==> forall j :: 0 <= j < |attempts| ==> CheckCapacity(attempts[j]).Err?
      ensures used.None? ==> maxOperation == old(maxOperation)
      ensures used.Some? ==> 2 <= maxOperation <= 100
    {
      var i := 0;
      while i < |attempts|
        invariant i <= |attempts|
        invariant forall j :: 0 <= j < i ==> CheckCapacity(attempts[j]).Err?
        invariant maxOperation == old(maxOperation)
      {
        var checked := CheckCapacity(attempts[i]);
        if checked.Ok? {
          maxOperation := checked.value;
          return Some(i);
        }
        i := i + 1;
      }
      used := None;
    }
  }
}
