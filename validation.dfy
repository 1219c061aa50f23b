/** The guard sequence at the start of `linprog`: rank and shape checks on the
    problem `minimise f'x subject to A x <= b, Aeq x = beq`, and the placeholder
    equality row `0 x = 0` substituted when no equality pair is supplied. */
module Validation {
  import opened NdArrays

  datatype Option<T> = None | Some(value: T)

  /** The arrays whose first axis `linprog` reads before checking their rank. */
  datatype Operand = OperandB | OperandF | OperandBeq

  /** The exceptions `linprog` raises before the solver is reached. */
  datatype Error =
    | NoFirstAxis(operand: Operand) // IndexError: `shape[0]` of a 0-dimensional array
    | BNotVector                    // ValueError: b is not one-dimensional
    | ANotMatrix                    // ValueError: A is not two-dimensional
    | AShapeMismatch                // ValueError: A.shape != (len b, len f)
    | UnpairedEquality              // ValueError: exactly one of Aeq, beq given
    | BeqNotVector                  // ValueError: beq is not one-dimensional
    | AeqNotMatrix                  // ValueError: Aeq is not two-dimensional
    | AeqShapeMismatch              // ValueError: Aeq.shape != (len beq, len f)
    | FEntryNotNumber               // TypeError: `%e` given an entry of f that is not one number

  datatype Result<T> = Ok(value: T) | Err(error: Error)

  /** The five arrays handed on to the data-file writer. */
  datatype Problem = Problem(f: NdArray, A: NdArray, b: NdArray, Aeq: NdArray, beq: NdArray)
  {
    /** The shape invariant the guards establish: b and beq are vectors, A is
        (len b) x (len f) and Aeq is (len beq) x (len f). */
    predicate Consistent()
    {
      f.Valid() && A.Valid() && b.Valid() && Aeq.Valid() && beq.Valid() &&
      |f.shape| >= 1 && InequalityShapes(f, A, b) && EqualityShapes(f, Aeq, beq)
    }

    /** Number of inequality constraints. */
    function M1(): nat
      requires Consistent()
    {
      b.shape[0]
    }

    /** Number of equality constraints. */
    function M2(): nat
      requires Consistent()
    {
      beq.shape[0]
    }

    /** Number of decision variables. */
    function N(): nat
      requires Consistent()
    {
      f.shape[0]
    }
  }

  /** The inequality part is well shaped. f's rank is never examined: only its
      first axis counts. */
  predicate InequalityShapes(f: NdArray, A: NdArray, b: NdArray)
  {
    |b.shape| == 1 && |f.shape| >= 1 && A.shape == [b.shape[0], f.shape[0]]
  }

  predicate EqualityShapes(f: NdArray, Aeq: NdArray, beq: NdArray)
  {
    |beq.shape| == 1 && |f.shape| >= 1 && Aeq.shape == [beq.shape[0], f.shape[0]]
  }

  /** The errors raised before the equality arguments are looked at. */
  predicate InequalityError(e: Error)
  {
    e in {NoFirstAxis(OperandB), NoFirstAxis(OperandF), BNotVector, ANotMatrix, AShapeMismatch}
  }

  /** The guard sequence of `linprog`, returning the normalised problem or the
      first error raised. */
  function Validate(f: NdArray, A: NdArray, b: NdArray, Aeq: Option<NdArray>, beq: Option<NdArray>)
    : (r: Result<Problem>)
    requires f.Valid() && A.Valid() && b.Valid()
    requires Aeq.Some? ==> Aeq.value.Valid()
    requires beq.Some? ==> beq.value.Valid()
    // accepted exactly when the shapes agree and the pair is both-or-neither
    ensures r.Ok? <==>
      InequalityShapes(f, A, b) &&
      ((Aeq.None? && beq.None?) ||
       (Aeq.Some? && beq.Some? && EqualityShapes(f, Aeq.value, beq.value)))
    // what an accepted problem looks like
    ensures r.Ok? ==> r.value.Consistent()
    ensures r.Ok? ==> r.value.f == f && r.value.A == A && r.value.b == b
    ensures r.Ok? && Aeq.Some? ==> r.value.Aeq == Aeq.value && r.value.beq == beq.value
    ensures r.Ok? && Aeq.None? ==>
      r.value.M2() == 1 && r.value.Aeq.shape == [1, f.shape[0]] && r.value.beq.data == [0.0] &&
      forall j :: 0 <= j < |r.value.Aeq.data| ==> r.value.Aeq.data[j] == 0.0
    // which error, in the order the guards are reached
    ensures b.shape == [] ==> r == Err(NoFirstAxis(OperandB))
    ensures b.shape != [] && f.shape == [] ==> r == Err(NoFirstAxis(OperandF))
    ensures |b.shape| > 1 && f.shape != [] ==> r == Err(BNotVector)
    ensures |b.shape| == 1 && f.shape != [] && A.Rank() != 2 ==> r == Err(ANotMatrix)
    ensures |b.shape| == 1 && f.shape != [] && A.Rank() == 2 && !InequalityShapes(f, A, b) ==>
      r == Err(AShapeMismatch)
    ensures InequalityShapes(f, A, b) && Aeq.Some? != beq.Some? ==> r == Err(UnpairedEquality)
    ensures InequalityShapes(f, A, b) && Aeq.Some? && beq.Some? ==>
      (beq.value.shape == [] ==> r == Err(NoFirstAxis(OperandBeq))) &&
      (|beq.value.shape| > 1 ==> r == Err(BeqNotVector)) &&
      (|beq.value.shape| == 1 && Aeq.value.Rank() != 2 ==> r == Err(AeqNotMatrix)) &&
      (|beq.value.shape| == 1 && Aeq.value.Rank() == 2 && !EqualityShapes(f, Aeq.value, beq.value) ==>
         r == Err(AeqShapeMismatch))
  {
    if b.shape == [] then Err(NoFirstAxis(OperandB))
    else if f.shape == [] then Err(NoFirstAxis(OperandF))
    else
      var m1, n := b.shape[0], f.shape[0];
      if b.Rank() != 1 then Err(BNotVector)
      else if A.Rank() != 2 then Err(ANotMatrix)
      else if A.shape != [m1, n] then Err(AShapeMismatch)
      else if Aeq.None? && beq.None? then
        Ok(Problem(f, A, b, Zeros(1, n), ZeroVector()))
      else if Aeq.None? || beq.None? then Err(UnpairedEquality)
      else if beq.value.shape == [] then Err(NoFirstAxis(OperandBeq))
      else
        var m2 := beq.value.shape[0];
        if beq.value.Rank() != 1 then Err(BeqNotVector)
        else if Aeq.value.Rank() != 2 then Err(AeqNotMatrix)
        else if Aeq.value.shape != [m2, n] then Err(AeqShapeMismatch)
        else Ok(Problem(f, A, b, Aeq.value, beq.value))
  }

  /** The checks on b and A come first: whatever they reject is rejected with
      the same error whatever equality pair accompanies it. */
  lemma InequalityErrorsIgnoreEquality(f: NdArray, A: NdArray, b: NdArray,
                                       Aeq: Option<NdArray>, beq: Option<NdArray>,
                                       Aeq': Option<NdArray>, beq': Option<NdArray>)
    requires f.Valid() && A.Valid() && b.Valid()
    requires Aeq.Some? ==> Aeq.value.Valid()
    requires beq.Some? ==> beq.value.Valid()
    requires Aeq'.Some? ==> Aeq'.value.Valid()
    requires beq'.Some? ==> beq'.value.Valid()
    requires Validate(f, A, b, Aeq, beq).Err? && InequalityError(Validate(f, A, b, Aeq, beq).error)
    ensures Validate(f, A, b, Aeq', beq') == Validate(f, A, b, Aeq, beq)
  {
  }

  /** An array that is not a vector for b, or not a matrix for A, is always
      rejected, with an error raised by the guards on b and A. */
  lemma RankErrorsAlwaysRaised(f: NdArray, A: NdArray, b: NdArray, Aeq: Option<NdArray>, beq: Option<NdArray>)
    requires f.Valid() && A.Valid() && b.Valid()
    requires Aeq.Some? ==> Aeq.value.Valid()
    requires beq.Some? ==> beq.value.Valid()
    requires b.Rank() != 1 || A.Rank() != 2
    ensures Validate(f, A, b, Aeq, beq).Err? && InequalityError(Validate(f, A, b, Aeq, beq).error)
  {
  }

  /** Only the first axis of f is ever read: two objective arrays of the same
      length, whatever their ranks, meet the same guards. */
  lemma ObjectiveRankNotChecked(f: NdArray, f': NdArray, A: NdArray, b: NdArray,
                                Aeq: Option<NdArray>, beq: Option<NdArray>)
    requires f.Valid() && f'.Valid() && A.Valid() && b.Valid()
    requires Aeq.Some? ==> Aeq.value.Valid()
    requires beq.Some? ==> beq.value.Valid()
    requires |f.shape| >= 1 && |f'.shape| >= 1 && f.shape[0] == f'.shape[0]
    ensures Validate(f, A, b, Aeq, beq).Ok? == Validate(f', A, b, Aeq, beq).Ok?
    ensures Validate(f, A, b, Aeq, beq).Err? ==>
      Validate(f', A, b, Aeq, beq) == Err(Validate(f, A, b, Aeq, beq).error)
  {
  }

  /** Normalisation is idempotent: a normalised problem passed back in with its
      equality pair supplied comes out unchanged. */
  lemma ValidateIdempotent(f: NdArray, A: NdArray, b: NdArray, Aeq: Option<NdArray>, beq: Option<NdArray>)
    requires f.Valid() && A.Valid() && b.Valid()
    requires Aeq.Some? ==> Aeq.value.Valid()
    requires beq.Some? ==> beq.value.Valid()
    requires Validate(f, A, b, Aeq, beq).Ok?
    ensures var p := Validate(f, A, b, Aeq, beq).value;
      Validate(p.f, p.A, p.b, Some(p.Aeq), Some(p.beq)) == Ok(p)
  {
  }
}
