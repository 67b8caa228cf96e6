# Laplace potential (`EPPotLaplace`) in Dafny

A model of the Laplace (double-exponential) potential of the LHOTSE/apbsint
expectation-propagation toolbox,

    t(s) = (tau/2) exp(-tau |y - s|),    y any real, tau >= 1e-12,

as implemented by the class `EPPotLaplace` in
`src/eptools/potentials/EPPotLaplace.h`. The class offers two capabilities.

- **Moments** (`compMoments`). It computes the moments of `t(s)^eta` under a
  Gaussian message. It does this by forwarding to the quantile-regression
  kernel through an exact parameter substitution.
- **Quadrature / proximal view.** This covers the energy
  `l(s) = tau |s - y| - log(tau/2)` with its derivatives (`eval`), the
  integration interval and its single waypoint `y` (`getInterval`), and the
  closed-form soft-shrinkage proximal map (`proximal`).

The mutable C++ object is an immutable record `Laplace(y, tau)` here.
`SetTau` and `SetPars` return a `Step`: the state the object holds afterwards
together with an `Outcome` that says whether it threw
`InvalidParameterException`. `SetY` cannot throw and returns the new record.
The constructor returns a `Result`, since a throw leaves no object. A thrown
exception becomes an `Error` value. A numerical failure of the kernel stays a
plain boolean, so the two kinds of failure remain distinct. All quantities
are Dafny `real`s. `log` and the quantile-regression kernel are parameters of
function type, so every property is proved for every logarithm and every
kernel.

Files:

- `status.dfy`: module `Status` (`Error`, `Result`, `Outcome`, `Option`).
- `laplace_params.dfy`: module `LaplaceParams`, the constructor, setters and
  parameter vector.
- `laplace_quad.dfy`: module `LaplaceQuad`, with `getInterval`, `eval` and
  `proximal`.
- `laplace_moments.dfy`: module `LaplaceMoments`, with `compMoments` and the
  substitution identity.

The argument check in `compMoments` (line 97 of the header) rejects only
`eta < 1e-10`, so `eta == 1e-10` is accepted: the lower bound is closed.

## Model

| member | source | states |
|---|---|---|
| LaplaceParams.SetTau | src/eptools/potentials/EPPotLaplace.h:51-55 | fails with `InvalidParameter` exactly when `t < 1e-12` and then leaves the object unchanged; otherwise stores exactly `t` and keeps `y`; never breaks the `tau >= 1e-12` invariant |
| LaplaceParams.SetY | src/eptools/potentials/EPPotLaplace.h:61-63 | always succeeds, stores `y`, keeps `tau`, so validity is unchanged |
| LaplaceParams.Create | src/eptools/potentials/EPPotLaplace.h:43-45 | construction throws exactly when `ptau < 1e-12`; otherwise the object is valid and holds `(py, ptau)` |
| LaplaceParams.DefaultConstruction | src/eptools/potentials/EPPotLaplace.h:43 | the default arguments `(0, 1)` construct successfully |
| LaplaceParams.GetPars | src/eptools/potentials/EPPotLaplace.h:65-71 | the parameter vector has length 2, in the order `(y, tau)` |
| LaplaceParams.SetPars | src/eptools/potentials/EPPotLaplace.h:73-75 | always writes `y := pv[0]`, even when it then throws; it throws exactly when `pv[1] < 1e-12`, keeping the old `tau`; on success `getPars` reads back `pv[0..2]` |
| LaplaceParams.SetParsPartialApply | src/eptools/potentials/EPPotLaplace.h:73-75 | a rejected `setPars` with a new location still changes the object to `(pv[0], old tau)`, so the call is not atomic |
| LaplaceParams.SetParsGetPars | src/eptools/potentials/EPPotLaplace.h:69-75 | writing back the vector `getPars` read from a valid object reproduces that object and succeeds, from any starting state |
| LaplaceParams.IsValidParsMatchesSetters | src/eptools/potentials/EPPotLaplace.h:77-79 | `isValidPars(pv)` holds exactly when `setTau(pv[1])` and `setPars(pv)` would succeed, from any state, and a valid vector then yields a valid object |
| LaplaceMoments.CompMoments | src/eptools/potentials/EPPotLaplace.h:93-106 | throws `InvalidParameter` exactly when `crho < 1e-14`, `eta < 1e-10` or `eta > 1`; otherwise forwards `(cmu, crho, 2*eta*tau, y, 0.5)` and passes through the kernel's status, mean and variance; a requested `logz` gets `eta*log(0.5*tau)` added only when the kernel succeeded |
| LaplaceMoments.RejectedCallIgnoresKernel | src/eptools/potentials/EPPotLaplace.h:95-98 | a rejected call gives the same parameter error whatever kernel is plugged in, so the kernel is never consulted |
| LaplaceMoments.AcceptedCallUsesOneKernelCall | src/eptools/potentials/EPPotLaplace.h:99-105 | an accepted call depends on the kernel only through its value at the forwarded arguments |
| LaplaceMoments.KernelFailureIsNotAnError | src/eptools/potentials/EPPotLaplace.h:99-105 | a kernel failure comes back as a non-throwing result with status `false`, and the log partition is left as the kernel wrote it |
| LaplaceMoments.ForwardingIdentity | src/eptools/potentials/EPPotLaplace.h:89-92 | for every `s`, `eta` times the Laplace energy equals the energy of the quantile-regression potential with `xi = 2*eta*tau`, `kappa = 1/2` and location `y`, minus `eta*log(tau/2)`; this is the identity `t^eta = (tau/2)^eta * t_QR` |
| LaplaceMoments.LogPartitionShift | src/eptools/potentials/EPPotLaplace.h:89-103 | the amount added to the kernel's `logz` equals, at every `s`, the quantile-regression energy minus `eta` times the Laplace energy, i.e. the log of the proportionality constant |
| LaplaceQuad.GetInterval | src/eptools/potentials/EPPotLaplace.h:122-132 | both endpoints are flagged infinite; `a` and `b` themselves are not written; the waypoint buffer becomes exactly `[y]`, whatever its previous length |
| LaplaceQuad.WaypointIsTheKink | src/eptools/potentials/EPPotLaplace.h:122-143 | the waypoint reported by `getInterval` is exactly where `eval`'s first derivative jumps, from `-tau` to `+tau` |
| LaplaceQuad.Eval | src/eptools/potentials/EPPotLaplace.h:134-147 | the value is `tau*abs(s-y) - log(0.5*tau)`; the first derivative is `+tau` for `s >= y`, including `s == y`, and `-tau` for `s < y`; the second derivative is `0` |
| LaplaceQuad.EvalSlopeOnPiece | src/eptools/potentials/EPPotLaplace.h:134-143 | on each closed side of `y` the energy is affine with exactly the reported slope, so `y` is its only kink |
| LaplaceQuad.EvalDerivativeIsSubgradient | src/eptools/potentials/EPPotLaplace.h:85-87 | for valid `tau` the reported derivative is a subgradient everywhere, including at the kink, so the energy is convex and the potential is log-concave |
| LaplaceQuad.EvalMinimalAtWaypoint | src/eptools/potentials/EPPotLaplace.h:134-147 | for valid `tau` the energy is smallest at the waypoint `y` |
| LaplaceQuad.Proximal | src/eptools/potentials/EPPotLaplace.h:157-162 | always succeeds; with `mu = h-y`, `kap = rho*tau` it gives `y + (mu - kap)` if `mu > kap`, `y + (mu + kap)` if `mu < -kap`, and exactly `y` when `abs(mu) <= kap` |
| LaplaceQuad.ShrinkMinimises | src/eptools/potentials/EPPotLaplace.h:149-153 | for `kap >= 0` soft shrinkage is the unique minimiser of `kap*abs(x) + 0.5*(x-mu)^2`; any other `x` costs at least `0.5*(x - x*)^2` more |
| LaplaceQuad.ProximalIsArgmin | src/eptools/potentials/EPPotLaplace.h:149-160 | for `rho >= 0`, `x* = s* - y` has objective no greater than any real `x`, which is the argmin the comment documents |
| LaplaceQuad.ProximalMinimisesEnergy | src/eptools/potentials/EPPotLaplace.h:149-162 | for `rho >= 0`, `s*` uniquely minimises `rho * eval(s) + 0.5*(s-h)^2`, the proximal problem of the energy |
| LaplaceQuad.ProximalNonexpansive | src/eptools/potentials/EPPotLaplace.h:157-160 | for `rho >= 0` the proximal map never increases distances: `abs(s*(h1) - s*(h2)) <= abs(h1 - h2)` |
| LaplaceQuad.ProximalComposes | src/eptools/potentials/EPPotLaplace.h:157-160 | for valid `tau` and `rho1, rho2 >= 0`, a proximal step of `rho1` followed by one of `rho2` equals a single step of `rho1 + rho2` |
| LaplaceQuad.ProxSteps | src/eptools/potentials/EPPotLaplace.h:157-160 | derived property of the single step (the program performs one step per call and never iterates it): applying the step with `rho >= 0` repeatedly never moves the iterate farther from the waypoint `y` than the start `h` |
| LaplaceQuad.ProxStepsCollapse | src/eptools/potentials/EPPotLaplace.h:157-160 | derived property of the single step (the program never iterates it): `n` steps of size `rho` equal one step of size `n*rho` |
| LaplaceQuad.ProxStepsReachWaypoint | src/eptools/potentials/EPPotLaplace.h:157-160 | derived property of the single step (the program never iterates it): once `n*rho*tau >= abs(h - y)`, `n` repeated steps end exactly on the waypoint `y` |

## Left out

- `EPPotQuantileRegress::compMomentsInt`: it does numerical integration, and its header is not part of this model. It is a function parameter. Only the arguments it receives and how its result is passed back are modelled.
- `QuantileEnergy`: the quantile-regression potential's energy is taken to be the standard check loss `xi * rho_kappa(s - loc)`. It is used only to state the substitution identity, because the quantile-regression header is not part of this model.
- `log`: it is transcendental and floating-point, so it is a function parameter. Properties mention `log(0.5*tau)` symbolically. The model does not prove that `eta*log(tau/2) = log((tau/2)^eta)`.
- IEEE-754 behaviour is not modelled. NaN passes `ptau < 1e-12` in C++, and there are also infinities and the rounding of `h - y`, `rho*tau` and `2*eta*tau`. All quantities are exact reals, and the thresholds are the exact decimals `1e-12`, `1e-14` and `1e-10`, not their nearest doubles.
- Memory handling is not modelled: `ArrayHandle::changeRep`, raw `double*` buffers and null out-pointers. Buffers are sequences. `SetPars` and `IsValidPars` require `|pv| >= 2`, the length-2 buffer the C++ caller must supply; `GetPars` returns a fresh sequence of length 2. A null `logz` pointer is the flag `wantLogz`. `eval` always returns both derivatives.
- The base classes `EPScalarPotential` and `QuadPotProximal` and their virtual dispatch are left out. The getters `getY` and `getTau` are field reads.
- The constant capability flags (`numPars`, `suppFractional`, `isLogConcave`, `hasFirstDerivatives`, `hasSecondDerivatives`, `hasWayPoints`) are plain constants with no contract.
- The default `eta = 1.0` of `compMoments` is not a default argument here. Callers pass `eta` explicitly.
