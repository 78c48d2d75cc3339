/** Shared vocabulary: the exceptions the modelled code can raise, a failure-compatible
    Result, and small helpers over the per-seat lists (numpy boolean arrays and sums). */
module Common {

  /** What interrupts a modelled operation. The first seven are the Python exception classes
      the table, the cycles and the ranker raise; CardTypeError is the ranker's
      "Card Type error!" (Python `Exception`, C++ `std::runtime_error`); UndefinedBehaviour is
      an out-of-bounds access in the C++ ranker; NeverReturns stands for a skip loop that
      would spin forever; BadDraw is a supplied random draw that `randint` could not return. */
  datatype Exception =
    | AssertionError
    | IndexError
    | TypeError
    | ValueError
    | AttributeError
    | RuntimeError
    | ZeroDivisionError
    | CardTypeError
    | UndefinedBehaviour
    | NeverReturns
    | BadDraw

  datatype Result<T> = Ok(value: T) | Err(error: Exception) {
    predicate IsFailure() { Err? }
    function PropagateFailure<U>(): Result<U> requires Err? { Err(error) }
    function Extract(): T requires Ok? { value }
  }

  /** Outcome of a state-changing method: it finished, or it raised. */
  datatype Status = Done | Raised(exc: Exception)

  /** A method's status and the state it leaves agree with its specification function. */
  predicate Agrees<T(==)>(st: Status, spec: Result<T>, now: T) {
    match spec
    case Ok(v) => st == Done && now == v
    case Err(e) => st == Raised(e)
  }

  /** A state-changing method that also returns a value: its result and the state it leaves
      agree with its specification function. */
  predicate Returns<T(==), V(==)>(r: Result<V>, spec: Result<(T, V)>, now: T) {
    match spec
    case Ok(p) => r == Ok(p.1) && now == p.0
    case Err(e) => r == Err(e)
  }

  /** Python truthiness of an optional integer setting: None and 0 are both false. */
  predicate Truthy(x: Option<int>) { x.Some? && x.value != 0 }

  datatype Option<T> = None | Some(value: T)

  /** `sum(flags)` on a list or numpy array of booleans. */
  function CountTrue(s: seq<bool>): (k: nat)
    ensures k <= |s|
    ensures k == 0 <==> forall i :: 0 <= i < |s| ==> !s[i]
  {
    if s == [] then 0 else (if s[0] then 1 else 0) + CountTrue(s[1..])
  }

  /** Clearing a set flag lowers the count by one; clearing a clear flag changes nothing. */
  lemma {:induction false} CountTrueClear(s: seq<bool>, i: nat)
    requires i < |s|
    ensures CountTrue(s[i := false]) == CountTrue(s) - (if s[i] then 1 else 0)
  {
    if i > 0 {
      assert s[i := false][1..] == s[1..][i - 1 := false];
      CountTrueClear(s[1..], i - 1);
    }
  }

  /** numpy `+` on two boolean arrays of equal length: element-wise logical or. */
  function OrSeq(a: seq<bool>, b: seq<bool>): (r: seq<bool>)
    requires |a| == |b|
    ensures |r| == |a|
    ensures forall i :: 0 <= i < |r| ==> r[i] == (a[i] || b[i])
  {
    seq(|a|, i requires 0 <= i < |a| => a[i] || b[i])
  }

  /** `[value] * n`. */
  function Repeat<T>(value: T, n: nat): (r: seq<T>)
    ensures |r| == n
    ensures forall i :: 0 <= i < n ==> r[i] == value
  {
    seq(n, _ => value)
  }

  /** An or with flags that are all clear leaves the flags as they were. */
  lemma OrNothing(flags: seq<bool>)
    ensures OrSeq(flags, Repeat(false, |flags|)) == flags
  {
  }

  /** n set flags: an or with n clear ones leaves them set, and they sum to n. */
  lemma {:induction false} AllSet(n: nat)
    ensures OrSeq(Repeat(true, n), Repeat(false, n)) == Repeat(true, n)
    ensures CountTrue(Repeat(true, n)) == n
  {
    OrNothing(Repeat(true, n));
    if n > 0 {
      assert Repeat(true, n)[1..] == Repeat(true, n - 1);
      AllSet(n - 1);
    }
  }

  function SumReal(s: seq<real>): real {
    if s == [] then 0.0 else s[0] + SumReal(s[1..])
  }

  function MinReal(a: real, b: real): real { if a <= b then a else b }

  function MaxReal(a: real, b: real): real { if a >= b then a else b }

  lemma {:induction false} SumRealUpdate(s: seq<real>, i: nat, v: real)
    requires i < |s|
    ensures SumReal(s[i := v]) == SumReal(s) - s[i] + v
  {
    if i == 0 {
      assert s[i := v][1..] == s[1..];
    } else {
      assert s[i := v][1..] == s[1..][i - 1 := v];
      SumRealUpdate(s[1..], i - 1, v);
    }
  }

  /** `sum([x] * n)` is n times x. */
  lemma {:induction false} SumRealRepeat(x: real, n: nat)
    ensures SumReal(Repeat(x, n)) == n as real * x
  {
    if n > 0 {
      assert Repeat(x, n)[1..] == Repeat(x, n - 1);
      SumRealRepeat(x, n - 1);
    }
  }

  /** A list of zeros sums to 0. */
  lemma SumRealRepeatZero(n: nat)
    ensures SumReal(Repeat(0.0, n)) == 0.0
  {
    SumRealRepeat(0.0, n);
  }

  /** A list comprehension whose items may raise: the first error stops it. */
  function Collect<T>(rs: seq<Result<T>>): (r: Result<seq<T>>)
    ensures r.Ok? <==> forall i :: 0 <= i < |rs| ==> rs[i].Ok?
    ensures r.Ok? ==> |r.value| == |rs| && forall i :: 0 <= i < |rs| ==> rs[i] == Ok(r.value[i])
  {
    if rs == [] then Ok([])
    else
      var x :- rs[0];
      var rest :- Collect(rs[1..]);
      Ok([x] + rest)
  }

  lemma {:induction false} CollectFirstError<T>(rs: seq<Result<T>>, i: nat)
    requires i < |rs| && rs[i].Err? && forall j :: 0 <= j < i ==> rs[j].Ok?
    ensures Collect(rs) == Err(rs[i].error)
  {
    if i > 0 {
      assert rs[1..][i - 1] == rs[i];
      CollectFirstError(rs[1..], i - 1);
    }
  }

  /** The comprehension over a prefix one item longer: the new item's value is appended,
      or its error is the result. */
  lemma {:induction false} CollectSnoc<T>(rs: seq<Result<T>>, i: nat)
    requires i < |rs| && Collect(rs[..i]).Ok?
    ensures Collect(rs[..i + 1]) == match rs[i] case Ok(x) => Ok(Collect(rs[..i]).value + [x]) case Err(e) => Err(e)
  {
    if i == 0 {
      var one := rs[..1];
      assert one[0] == rs[0] && one[1..] == [] && rs[..0] == [];
      assert Collect(one[1..]) == Ok([]);
      if rs[0].Ok? {
        assert [rs[0].value] + Collect(one[1..]).value == [rs[0].value] == Collect(rs[..0]).value + [rs[0].value];
      }
    } else {
      assert rs[..i + 1][1..] == rs[1..][..i];
      assert rs[..i][1..] == rs[1..][..i - 1];
      assert rs[..i][0] == rs[..i + 1][0] == rs[0] && rs[1..][i - 1] == rs[i];
      var tail := Collect(rs[1..][..i - 1]).value;
      assert Collect(rs[..i]).value == [rs[0].value] + tail;
      CollectSnoc(rs[1..], i - 1);
      if rs[i].Ok? {
        assert [rs[0].value] + (tail + [rs[i].value]) == [rs[0].value] + tail + [rs[i].value];
      }
    }
  }

  /** An error in a prefix is the error of the whole comprehension. */
  lemma {:induction false} CollectPrefixError<T>(rs: seq<Result<T>>, i: nat)
    requires i <= |rs| && Collect(rs[..i]).Err?
    ensures Collect(rs) == Collect(rs[..i])
  {
    assert i > 0 && rs[..i][0] == rs[0];
    if rs[0].Ok? {
      assert rs[..i][1..] == rs[1..][..i - 1];
      CollectPrefixError(rs[1..], i - 1);
    }
  }

  /** When every item succeeds, the comprehension gives all their values. */
  lemma CollectAllOk<T>(rs: seq<Result<T>>, vs: seq<T>)
    requires |rs| == |vs| && forall i :: 0 <= i < |rs| ==> rs[i] == Ok(vs[i])
    ensures Collect(rs) == Ok(vs)
  {
    var r := Collect(rs);
    assert r.Ok?;
    assert r.value == vs;
  }
}
