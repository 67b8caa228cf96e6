/**
  Moment computation of the Laplace potential, `compMoments`.

  `t(s)^eta` equals `C = (tau/2)^eta` times a quantile-regression potential
  with asymmetry `kappa = 1/2` and scale `xi = 2 eta tau`, so the moments are
  delegated to the quantile-regression kernel and only the log partition
  needs the constant `log C = eta log(tau/2)` added back.

  The kernel does numerical integration and is not part of this model: it is
  a parameter of type `Kernel`, as is `log`, and every property below holds
  for every kernel and every logarithm.
 */
module LaplaceMoments {
  import opened Status
  import opened LaplaceParams
  import LaplaceQuad

  /** Bounds `compMoments` enforces on its arguments. */
  const MinCrho: real := 1e-14
  const MinEta: real := 1e-10
  const MaxEta: real := 1.0

  /** Asymmetry of the quantile-regression potential that reproduces the
      Laplace potential. */
  const HalfKappa: real := 0.5

  /** Arguments of the quantile-regression kernel: the incoming message's
      mean and precision, then the scale `xi`, location and asymmetry `kappa`
      of the quantile-regression potential. */
  datatype KernelArgs = KernelArgs(cmu: real, crho: real, xi: real, loc: real, kappa: real)

  /** What the kernel hands back: its status and whatever it left in the
      mean, variance and log-partition outputs. */
  datatype KernelOut = KernelOut(ok: bool, mean: real, variance: real, logz: real)

  /** The kernel, given its arguments and whether a log partition was asked for. */
  type Kernel = (KernelArgs, bool) -> KernelOut

  /** Result of a `compMoments` call that did not throw. `ok == false` is a
      numerical failure of the kernel, not a parameter error. `logz` is
      present exactly when the caller passed a log-partition output. */
  datatype Moments = Moments(ok: bool, mean: real, variance: real, logz: Option<real>)

  /** The argument checks `compMoments` performs before calling the kernel. */
  predicate ArgsValid(crho: real, eta: real) {
    !(crho < MinCrho || eta < MinEta || eta > MaxEta)
  }

  /** The quantile-regression potential that `t(s)^eta` is proportional to. */
  function Forwarded(p: Laplace, cmu: real, crho: real, eta: real): KernelArgs {
    KernelArgs(cmu, crho, 2.0 * eta * p.tau, p.y, HalfKappa)
  }

  /** `compMoments(cmu, crho, eta)` with a log-partition output requested
      exactly when `wantLogz`. */
  function CompMoments(p: Laplace, log: real -> real, kernel: Kernel,
                       cmu: real, crho: real, eta: real, wantLogz: bool): (r: Result<Moments>)
    ensures r.Err? <==> crho < MinCrho || eta < MinEta || eta > MaxEta
    ensures r.Err? ==> r.error == InvalidParameter
    ensures r.Ok? ==>
      var k := kernel(KernelArgs(cmu, crho, 2.0 * eta * p.tau, p.y, HalfKappa), wantLogz);
      && r.value.ok == k.ok
      && r.value.mean == k.mean && r.value.variance == k.variance
      && (r.value.logz.Some? <==> wantLogz)
      && (wantLogz && k.ok ==> r.value.logz.value == k.logz + eta * log(0.5 * p.tau))
      && (wantLogz && !k.ok ==> r.value.logz.value == k.logz)
  {
    if !ArgsValid(crho, eta) then
      Err(InvalidParameter)
    else
      var k := kernel(Forwarded(p, cmu, crho, eta), wantLogz);
      var logz :=
        if !wantLogz then None
        else if k.ok then Some(k.logz + eta * log(0.5 * p.tau))
        else Some(k.logz);
      Ok(Moments(k.ok, k.mean, k.variance, logz))
  }

  /** A rejected call never reaches the kernel: its outcome is the same
      whatever kernel is plugged in. */
  lemma RejectedCallIgnoresKernel(p: Laplace, log: real -> real, k1: Kernel, k2: Kernel,
                                  cmu: real, crho: real, eta: real, wantLogz: bool)
    requires !ArgsValid(crho, eta)
    ensures CompMoments(p, log, k1, cmu, crho, eta, wantLogz)
         == CompMoments(p, log, k2, cmu, crho, eta, wantLogz)
         == Err(InvalidParameter)
  {
  }

  /** An accepted call consults the kernel at the forwarded arguments only:
      two kernels that agree there give the same outcome. */
  lemma AcceptedCallUsesOneKernelCall(p: Laplace, log: real -> real, k1: Kernel, k2: Kernel,
                                      cmu: real, crho: real, eta: real, wantLogz: bool)
    requires ArgsValid(crho, eta)
    requires k1(Forwarded(p, cmu, crho, eta), wantLogz) == k2(Forwarded(p, cmu, crho, eta), wantLogz)
    ensures CompMoments(p, log, k1, cmu, crho, eta, wantLogz)
         == CompMoments(p, log, k2, cmu, crho, eta, wantLogz)
  {
  }

  /** The check loss of quantile regression with asymmetry `kappa`. */
  function CheckLoss(kappa: real, u: real): real {
    if u >= 0.0 then kappa * u else (kappa - 1.0) * u
  }

  /** The energy `-log` of the quantile-regression potential, up to its own
      normaliser, at `s`. */
  function QuantileEnergy(a: KernelArgs, s: real): real {
    a.xi * CheckLoss(a.kappa, s - a.loc)
  }

  /** The substitution identity behind the forwarding: for every `s`,
      `eta` times the Laplace energy `eval` reports equals the energy of the
      forwarded quantile-regression potential minus `eta log(tau/2)`. */
  lemma ForwardingIdentity(p: Laplace, log: real -> real, cmu: real, crho: real,
                           eta: real, s: real)
    ensures eta * LaplaceQuad.Eval(p, log, s).value
         == QuantileEnergy(Forwarded(p, cmu, crho, eta), s) - eta * log(0.5 * p.tau)
  {
    var L := log(0.5 * p.tau);
    var u := s - p.y;
    var a := LaplaceQuad.Abs(u);
    assert CheckLoss(HalfKappa, u) == 0.5 * a;
    calc {
      QuantileEnergy(Forwarded(p, cmu, crho, eta), s) - eta * L;
      (2.0 * eta * p.tau) * (0.5 * a) - eta * L;
      { assert (2.0 * eta * p.tau) * (0.5 * a) == eta * (p.tau * a); }
      eta * (p.tau * a) - eta * L;
      eta * (p.tau * a - L);
      eta * LaplaceQuad.Eval(p, log, s).value;
    }
  }

  /** The amount `compMoments` adds to the kernel's log partition is exactly
      the log of the constant relating the two potentials: at every `s` it is
      the quantile-regression energy minus `eta` times the Laplace energy, so
      `log Z` of `t^eta` is the kernel's `log Z` plus this shift. */
  lemma LogPartitionShift(p: Laplace, log: real -> real, kernel: Kernel,
                          cmu: real, crho: real, eta: real, s: real)
    requires ArgsValid(crho, eta)
    requires kernel(Forwarded(p, cmu, crho, eta), true).ok
    ensures var r := CompMoments(p, log, kernel, cmu, crho, eta, true);
      && r.Ok? && r.value.logz.Some?
      && r.value.logz.value - kernel(Forwarded(p, cmu, crho, eta), true).logz
         == QuantileEnergy(Forwarded(p, cmu, crho, eta), s) - eta * LaplaceQuad.Eval(p, log, s).value
  {
    ForwardingIdentity(p, log, cmu, crho, eta, s);
  }

  /** A numerical failure of the kernel is passed through as a result, never
      turned into a parameter error, and the log partition is left as the
      kernel wrote it. */
  lemma KernelFailureIsNotAnError(p: Laplace, log: real -> real, kernel: Kernel,
                                  cmu: real, crho: real, eta: real, wantLogz: bool)
    requires ArgsValid(crho, eta)
    requires !kernel(Forwarded(p, cmu, crho, eta), wantLogz).ok
    ensures var r := CompMoments(p, log, kernel, cmu, crho, eta, wantLogz);
      && r.Ok? && !r.value.ok
      && (wantLogz ==> r.value.logz == Some(kernel(Forwarded(p, cmu, crho, eta), wantLogz).logz))
  {
  }
}
