/**
  Parameter state of the Laplace potential

      t(s) = (tau/2) exp(-tau |y - s|)

  with location `y` (any real) and rate `tau` (at least 1e-12). The C++ object
  is mutable; here it is an immutable record. `SetTau` and `SetPars` return
  the record the object would hold afterwards together with whether they
  threw; `SetY` cannot throw and returns the new record.
 */
module LaplaceParams {
  import opened Status

  /** Smallest rate `setTau` accepts. */
  const MinTau: real := 1e-12

  /** Length of the parameter vector `(y, tau)`. */
  const NumPars: nat := 2

  /** Constant capability flags of the potential. */
  const SuppFractional: bool := true
  const IsLogConcave: bool := true

  /** The two fields of the object: `yscal` and `tau`. */
  datatype Laplace = Laplace(y: real, tau: real)

  /** The class invariant every successful mutation keeps. */
  predicate Valid(p: Laplace) {
    p.tau >= MinTau
  }

  /** The object after a mutator, and whether the mutator threw. Because the
      C++ object is changed in place, the state after a throw still matters. */
  datatype Step = Step(pot: Laplace, status: Outcome)

  /** `setTau`: rejects a rate below `MinTau` and then leaves the object as it was. */
  function SetTau(p: Laplace, t: real): (r: Step)
    ensures r.status.Fail? <==> t < MinTau
    ensures r.status.Fail? ==> r.status.error == InvalidParameter && r.pot == p
    ensures r.status.Pass? ==> r.pot.tau == t && r.pot.y == p.y
    ensures r.status.Pass? ==> Valid(r.pot)
    ensures Valid(p) ==> Valid(r.pot)
  {
    if t < MinTau then Step(p, Fail(InvalidParameter))
    else Step(p.(tau := t), Pass)
  }

  /** `setY`: any location is accepted, and the rate is untouched. */
  function SetY(p: Laplace, py: real): (r: Laplace)
    ensures r.y == py && r.tau == p.tau
    ensures Valid(r) <==> Valid(p)
  {
    p.(y := py)
  }

  /** The constructor: `setY(py)` then `setTau(ptau)`. When `setTau` throws no
      object comes into existence. The fields start uninitialised; the
      placeholder below is never observable. */
  function Create(py: real, ptau: real): (r: Result<Laplace>)
    ensures r.Err? <==> ptau < MinTau
    ensures r.Err? ==> r.error == InvalidParameter
    ensures r.Ok? ==> Valid(r.value) && r.value.y == py && r.value.tau == ptau
  {
    var s := SetTau(SetY(Laplace(0.0, MinTau), py), ptau);
    if s.status.Fail? then Err(s.status.error) else Ok(s.pot)
  }

  /** `getPars`: the parameter vector in the fixed order `(y, tau)`. */
  function GetPars(p: Laplace): (pv: seq<real>)
    ensures |pv| == NumPars
    ensures pv[0] == p.y && pv[1] == p.tau
  {
    [p.y, p.tau]
  }

  /** `setPars`: `setY(pv[0])` then `setTau(pv[1])`. Not atomic: when the rate
      is rejected the new location has already been stored. */
  function SetPars(p: Laplace, pv: seq<real>): (r: Step)
    requires |pv| >= NumPars
    ensures r.pot.y == pv[0]
    ensures r.status.Fail? <==> pv[1] < MinTau
    ensures r.status.Fail? ==> r.status.error == InvalidParameter && r.pot.tau == p.tau
    ensures r.status.Pass? ==> GetPars(r.pot) == pv[..NumPars]
    ensures Valid(p) ==> Valid(r.pot)
  {
    SetTau(SetY(p, pv[0]), pv[1])
  }

  /** `isValidPars`: whether `setPars(pv)` would return normally. */
  function IsValidPars(pv: seq<real>): bool
    requires |pv| >= NumPars
  {
    pv[1] >= MinTau
  }

  /** `isValidPars` agrees with both setters that validate the rate, whatever
      the current state. */
  lemma IsValidParsMatchesSetters(p: Laplace, pv: seq<real>)
    requires |pv| >= NumPars
    ensures IsValidPars(pv) <==> SetTau(p, pv[1]).status.Pass?
    ensures IsValidPars(pv) <==> SetPars(p, pv).status.Pass?
    ensures IsValidPars(pv) ==> Valid(SetPars(p, pv).pot)
  {
  }

  /** The default constructor arguments `(0, 1)` produce a valid object. */
  lemma DefaultConstruction()
    ensures Create(0.0, 1.0) == Ok(Laplace(0.0, 1.0))
  {
  }

  /** Writing back what `getPars` read is a no-op that succeeds. */
  lemma SetParsGetPars(p: Laplace, q: Laplace)
    requires Valid(q)
    ensures SetPars(p, GetPars(q)) == Step(q, Pass)
  {
  }

  /** A rejected `setPars` can still change the object: the location is
      overwritten while the rate keeps its old value. */
  lemma SetParsPartialApply(p: Laplace, pv: seq<real>)
    requires |pv| >= NumPars && pv[1] < MinTau && pv[0] != p.y
    ensures SetPars(p, pv).status == Fail(InvalidParameter)
    ensures SetPars(p, pv).pot != p
    ensures SetPars(p, pv).pot == Laplace(pv[0], p.tau)
  {
  }
}
