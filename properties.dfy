/** Properties of the registry that relate several commands. */
module RegistryProperties {
  import opened Base
  import opened Operations
  import opened Calculator

  /** A run of add commands fills the registry in order, up to one entry past the
      capacity, and every later add is refused. */
  lemma {:induction false} AddAllContents(ops: seq<Operation>, maxOperation: Int32, news: seq<Operation>)
    requires |ops| <= AsSize(maxOperation) + 1
    ensures AddAll(ops, maxOperation, news) == ops + news[..Min(|news|, AsSize(maxOperation) + 1 - |ops|)]
    decreases |news|
  {
    var cap := AsSize(maxOperation) + 1;
    if news != [] {
      if |ops| < cap {
        var next := ops + [news[0]];
        AddAllContents(next, maxOperation, news[1..]);
        var k := Min(|news| - 1, cap - |next|);
        assert Min(|news|, cap - |ops|) == k + 1;
        calc {
          AddAll(ops, maxOperation, news);
          AddAll(next, maxOperation, news[1..]);
          next + news[1..][..k];
          { assert [news[0]] + news[1..][..k] == news[..k + 1]; }
          ops + news[..k + 1];
        }
      } else {
        AddAllContents(ops, maxOperation, news[1..]);
        assert news[1..][..0] == news[..0];
      }
    }
  }

  /** The registry the calculator keeps can hold one entry more than its capacity,
      and no more. */
  lemma AddAllBound(ops: seq<Operation>, maxOperation: Int32, news: seq<Operation>)
    requires |ops| <= AsSize(maxOperation) + 1
    ensures |AddAll(ops, maxOperation, news)| <= AsSize(maxOperation) + 1
    ensures |AddAll(ops, maxOperation, news)| == AsSize(maxOperation) + 1 <==> |ops| + |news| >= AsSize(maxOperation) + 1
  {
    AddAllContents(ops, maxOperation, news);
  }

  /** With a capacity chosen at the prompt, a fresh registry followed by any run of
      add commands ends with at most capacity + 1 entries. */
  lemma SessionBound(choice: Option<Int32>, news: seq<Operation>)
    requires CheckCapacity(choice).Ok?
    ensures |AddAll(CreateOperations(), choice.value, news)| <= choice.value as int + 1
  {
    AddAllBound(CreateOperations(), choice.value, news);
  }

  /** A registry exactly at capacity still accepts one more operation, where the
      intended check refuses it. */
  lemma AppendAdmitsOneOverCapacity(ops: seq<Operation>, maxOperation: Int32, op: Operation)
    requires 0 <= maxOperation && |ops| == maxOperation as int
    ensures Append(ops, maxOperation, op).Ok?
    ensures |Append(ops, maxOperation, op).value| == maxOperation as int + 1
    ensures AppendIntended(ops, maxOperation, op) == Err(InputError)
  {
  }

  /** The intended check keeps every run of adds within the capacity. */
  lemma {:induction false} AppendIntendedKeepsCapacity(ops: seq<Operation>, maxOperation: Int32, news: seq<Operation>)
    requires |ops| <= AsSize(maxOperation)
    ensures |AddAllIntended(ops, maxOperation, news)| <= AsSize(maxOperation)
    decreases |news|
  {
    if news != [] {
      var next := match AppendIntended(ops, maxOperation, news[0])
        case Ok(grown) => grown
        case Err(_) => ops;
      AppendIntendedKeepsCapacity(next, maxOperation, news[1..]);
    }
  }

  /** Deleting removes exactly the addressed entry and keeps every other one. */
  lemma DeleteRemovesOne(ops: seq<Operation>, token: Option<Int32>)
    requires Delete(ops, token).Ok?
    ensures multiset(Delete(ops, token).value) + multiset{ops[token.value]} == multiset(ops)
  {
    var i := token.value as int;
    assert ops == ops[..i] + [ops[i]] + ops[i + 1..];
  }
}

/** A sample session, driven through the calculator's own contracts: `scal 3`,
    `add 0 2`, evaluation of the sum, then `del 0`. */
module Session {
  import opened Base
  import opened Operations
  import opened Calculator

  method SampleSession() {
    var fc := new FunctionCalculator(3);
    var scal := Operation(Scalar, 1);
    var r := fc.AddOperation(scal);
    assert r.Pass? && fc.operations[2] == scal;
    var sum := Operation(Add, fc.operations[0].inputCount + fc.operations[2].inputCount);
    r := fc.AddOperation(sum);
    assert r.Pass? && |fc.operations| == 4 && fc.operations[3] == sum;

    var unit := [1, 0, 0, 1];
    var e := fc.Eval(Some(3), Some(2), "", [unit, unit]);
    assert e.Ok? && e.value.inputs == [Matrix(2, unit), Matrix(2, unit)];
    e := fc.Eval(Some(3), Some(6), "", [unit, unit]);
    assert e == Err(InputError);
    e := fc.Eval(Some(3), Some(2), " 7", [unit, unit]);
    assert Lines.HasNonWhitespace(" 7") by { assert !Lines.IsSpace(" 7"[1]); }
    assert e == Err(InputError);

    r := fc.Del(Some(0));
    assert r.Pass? && |fc.operations| == 3 && fc.operations[2] == sum;
    e := fc.Eval(Some(2), Some(2), "", [unit, unit]);
    assert e.Ok? && e.value.operation == sum;
    e := fc.Eval(Some(2), Some(2), "", [unit]);
    assert e == Err(InputExhausted);

    // At capacity 3 the registry has reached capacity + 1 only after one more add.
    r := fc.AddOperation(scal);
    assert r.Pass? && |fc.operations| == 4;
    r := fc.AddOperation(scal);
    assert r == Fail(InputError) && |fc.operations| == 4;
  }
}
