/**
  The quadrature / proximal view of the Laplace potential: the energy

      l(s) = -log t(s) = tau |s - y| - log(tau/2)

  with its derivatives, the integration interval and its waypoint, and the
  closed-form proximal map (soft shrinkage).

  `log` is a parameter of type `real -> real`: nothing about it is assumed,
  so every property below holds whatever the logarithm computes.
 */
module LaplaceQuad {
  import opened LaplaceParams

  /** Constant capability flags of the quadrature interface. */
  const HasFirstDerivatives: bool := true
  const HasSecondDerivatives: bool := true
  const HasWayPoints: bool := true

  function Abs(x: real): real {
    if x < 0.0 then -x else x
  }

  /** Result of `getInterval`: the endpoints `a`, `b` (never written by the
      potential), their infinity flags, and the waypoint buffer. */
  datatype Interval = Interval(a: real, aInf: bool, b: real, bInf: bool, wayPts: seq<real>)

  /** `getInterval`: the support is all of R, and the buffer is resized to
      hold exactly the one waypoint `y`, whatever it held before. */
  function GetInterval(p: Laplace, a: real, b: real, wayPts: seq<real>): (r: Interval)
    ensures r.aInf && r.bInf
    ensures r.a == a && r.b == b
    ensures r.wayPts == [p.y]
  {
    var buf := if |wayPts| != 1 then [0.0] else wayPts;
    Interval(a, true, b, true, buf[0 := p.y])
  }

  /** Result of `eval`: the energy and its first and second derivatives. */
  datatype EvalOut = EvalOut(value: real, d1: real, d2: real)

  /** `eval`: the energy at `s`. At the kink `s == y` the first derivative is
      reported from the right, `+tau`; the second derivative is always zero. */
  function Eval(p: Laplace, log: real -> real, s: real): (r: EvalOut)
    ensures r.value == p.tau * Abs(s - p.y) - log(0.5 * p.tau)
    ensures s >= p.y ==> r.d1 == p.tau
    ensures s < p.y ==> r.d1 == -p.tau
    ensures r.d2 == 0.0
  {
    if s >= p.y then
      EvalOut(p.tau * (s - p.y) - log(0.5 * p.tau), p.tau, 0.0)
    else
      EvalOut(p.tau * (p.y - s) - log(0.5 * p.tau), -p.tau, 0.0)
  }

  /** On each closed side of the kink the energy is affine, with the slope
      `eval` reports: the first derivative is exact away from `y`. */
  lemma EvalSlopeOnPiece(p: Laplace, log: real -> real, s: real, t: real)
    requires (s >= p.y && t >= p.y) || (s < p.y && t <= p.y)
    ensures Eval(p, log, t).value == Eval(p, log, s).value + Eval(p, log, s).d1 * (t - s)
  {
    var L := log(0.5 * p.tau);
    if s >= p.y {
      calc {
        Eval(p, log, s).value + Eval(p, log, s).d1 * (t - s);
        p.tau * (s - p.y) - L + p.tau * (t - s);
        p.tau * (t - p.y) - L;
      }
    } else {
      calc {
        Eval(p, log, s).value + Eval(p, log, s).d1 * (t - s);
        p.tau * (p.y - s) - L - p.tau * (t - s);
        p.tau * (p.y - t) - L;
      }
    }
  }

  /** For a valid rate the reported first derivative is a subgradient of the
      energy everywhere, including the kink: the energy is convex, which is
      the log-concavity the potential advertises. */
  lemma EvalDerivativeIsSubgradient(p: Laplace, log: real -> real, s: real, t: real)
    requires Valid(p)
    ensures Eval(p, log, t).value >= Eval(p, log, s).value + Eval(p, log, s).d1 * (t - s)
  {
    var d := Eval(p, log, s).d1;
    assert d == p.tau || d == -p.tau;
    // |s - y| + sign * (t - s) is the signed distance of t, at most |t - y|.
    if s >= p.y {
      assert p.tau * Abs(s - p.y) + d * (t - s) == p.tau * (t - p.y);
    } else {
      assert p.tau * Abs(s - p.y) + d * (t - s) == p.tau * (p.y - t);
    }
    assert p.tau * (t - p.y) <= p.tau * Abs(t - p.y) by {
      MulMonotone(p.tau, t - p.y, Abs(t - p.y));
    }
    assert p.tau * (p.y - t) <= p.tau * Abs(t - p.y) by {
      MulMonotone(p.tau, p.y - t, Abs(t - p.y));
    }
  }

  /** The energy is smallest at the waypoint `y`. */
  lemma EvalMinimalAtWaypoint(p: Laplace, log: real -> real, s: real)
    requires Valid(p)
    ensures Eval(p, log, s).value >= Eval(p, log, p.y).value
  {
    MulMonotone(p.tau, 0.0, Abs(s - p.y));
  }

  /** The waypoint `getInterval` reports is exactly where `eval`'s first
      derivative jumps, from `-tau` to `+tau`. */
  lemma WaypointIsTheKink(p: Laplace, log: real -> real, a: real, b: real, buf: seq<real>, s: real)
    requires Valid(p)
    ensures var w := GetInterval(p, a, b, buf).wayPts[0];
      && (s < w ==> Eval(p, log, s).d1 == -p.tau)
      && (s >= w ==> Eval(p, log, s).d1 == p.tau)
      && -p.tau < p.tau
  {
  }

  lemma MulMonotone(c: real, x: real, y: real)
    requires c >= 0.0 && x <= y
    ensures c * x <= c * y
  {
  }

  /** Soft shrinkage of `mu` by `kap`. */
  function Shrink(mu: real, kap: real): real {
    if mu > kap then mu - kap
    else if mu < -kap then mu + kap
    else 0.0
  }

  /** The objective the proximal map minimises, in `x = s - y`. */
  function ProxObjective(kap: real, mu: real, x: real): real {
    kap * Abs(x) + 0.5 * (x - mu) * (x - mu)
  }

  /** Result of `proximal`: the status flag and `s*`. */
  datatype ProxOut = ProxOut(ok: bool, sstar: real)

  /** `proximal`: with `mu = h - y` and `kap = rho * tau`, `s* = y + shrink(mu,
      kap)`. It never fails, and every `h` within `kap` of `y` lands exactly
      on the waypoint `y`. */
  function Proximal(p: Laplace, h: real, rho: real): (r: ProxOut)
    ensures r.ok
    ensures var mu, kap := h - p.y, rho * p.tau;
      && (mu > kap ==> r.sstar == p.y + (mu - kap))
      && (mu <= kap && mu < -kap ==> r.sstar == p.y + (mu + kap))
      && (-kap <= mu <= kap ==> r.sstar == p.y)
  {
    var mu := h - p.y;
    var kap := rho * p.tau;
    ProxOut(true, p.y + Shrink(mu, kap))
  }

  /** For `kap >= 0` the shrunk value is the unique minimiser of the proximal
      objective: any other `x` costs at least `0.5 (x - x*)^2` more. */
  lemma ShrinkMinimises(kap: real, mu: real, x: real)
    requires kap >= 0.0
    ensures var xs := Shrink(mu, kap);
      ProxObjective(kap, mu, xs) + 0.5 * (x - xs) * (x - xs) <= ProxObjective(kap, mu, x)
  {
    var xs := Shrink(mu, kap);
    var e := x - xs;
    if mu > kap {
      // x - mu == e - kap and xs - mu == -kap
      assert (x - mu) * (x - mu) == e * e - 2.0 * kap * e + kap * kap;
      assert ProxObjective(kap, mu, xs) == kap * xs + 0.5 * kap * kap;
      assert ProxObjective(kap, mu, x) - ProxObjective(kap, mu, xs) - 0.5 * e * e
          == kap * (Abs(x) - x);
      MulMonotone(kap, 0.0, Abs(x) - x);
    } else if mu < -kap {
      // x - mu == e + kap and xs - mu == kap
      assert (x - mu) * (x - mu) == e * e + 2.0 * kap * e + kap * kap;
      assert ProxObjective(kap, mu, xs) == -kap * xs + 0.5 * kap * kap;
      assert ProxObjective(kap, mu, x) - ProxObjective(kap, mu, xs) - 0.5 * e * e
          == kap * (Abs(x) + x);
      MulMonotone(kap, 0.0, Abs(x) + x);
    } else {
      assert xs == 0.0 && e == x;
      assert ProxObjective(kap, mu, x) - ProxObjective(kap, mu, xs) - 0.5 * e * e
          == kap * Abs(x) - mu * x;
      // |mu * x| <= kap * |x| because |mu| <= kap
      if x >= 0.0 {
        MulMonotone(x, mu, kap);
      } else {
        MulMonotone(-x, -mu, kap);
      }
    }
  }

  /** The map `proximal` computes is the argmin its comment documents:
      `x* = s* - y` minimises `kap |x| + 0.5 (x - mu)^2` for `rho >= 0`. */
  lemma ProximalIsArgmin(p: Laplace, h: real, rho: real, x: real)
    requires Valid(p) && rho >= 0.0
    ensures var mu, kap := h - p.y, rho * p.tau;
      ProxObjective(kap, mu, Proximal(p, h, rho).sstar - p.y) <= ProxObjective(kap, mu, x)
  {
    var mu, kap := h - p.y, rho * p.tau;
    var xs := Proximal(p, h, rho).sstar - p.y;
    assert xs == Shrink(mu, kap);
    MulMonotone(rho, 0.0, p.tau);
    ShrinkMinimises(kap, mu, x);
    assert 0.5 * (x - xs) * (x - xs) >= 0.0;
  }

  /** Stated on the energy `eval` reports: `s*` minimises
      `rho * l(s) + 0.5 (s - h)^2`, the proximal problem of `l` with step
      `rho`, and does so uniquely. */
  lemma ProximalMinimisesEnergy(p: Laplace, log: real -> real, h: real, rho: real, s: real)
    requires Valid(p) && rho >= 0.0
    ensures var ss := Proximal(p, h, rho).sstar;
      rho * Eval(p, log, ss).value + 0.5 * (ss - h) * (ss - h) + 0.5 * (s - ss) * (s - ss)
      <= rho * Eval(p, log, s).value + 0.5 * (s - h) * (s - h)
  {
    var mu, kap := h - p.y, rho * p.tau;
    var ss := Proximal(p, h, rho).sstar;
    MulMonotone(rho, 0.0, p.tau);
    ShrinkMinimises(kap, mu, s - p.y);
    EnergyAsProxObjective(p, log, h, rho, ss);
    EnergyAsProxObjective(p, log, h, rho, s);
    assert s - ss == (s - p.y) - (ss - p.y);
  }

  /** `rho * l(u) + 0.5 (u - h)^2` is the proximal objective at `x = u - y`,
      shifted by the constant `-rho * log(tau/2)`. */
  lemma EnergyAsProxObjective(p: Laplace, log: real -> real, h: real, rho: real, u: real)
    ensures rho * Eval(p, log, u).value + 0.5 * (u - h) * (u - h)
         == ProxObjective(rho * p.tau, h - p.y, u - p.y) - rho * log(0.5 * p.tau)
  {
    var L := log(0.5 * p.tau);
    assert rho * (p.tau * Abs(u - p.y) - L) == (rho * p.tau) * Abs(u - p.y) - rho * L;
    assert u - h == (u - p.y) - (h - p.y);
  }

  /** Soft shrinkage is non-expansive, hence so is the proximal map. */
  lemma ProximalNonexpansive(p: Laplace, h1: real, h2: real, rho: real)
    requires Valid(p) && rho >= 0.0
    ensures Abs(Proximal(p, h1, rho).sstar - Proximal(p, h2, rho).sstar) <= Abs(h1 - h2)
  {
    MulMonotone(rho, 0.0, p.tau);
  }
  /** Proximal steps compose: a step of `rho1` followed by a step of `rho2`
      is one step of `rho1 + rho2`, because shrinking by `a` and then by `b`
      is shrinking by `a + b`. */
  lemma ProximalComposes(p: Laplace, h: real, rho1: real, rho2: real)
    requires Valid(p) && rho1 >= 0.0 && rho2 >= 0.0
    ensures Proximal(p, Proximal(p, h, rho1).sstar, rho2).sstar == Proximal(p, h, rho1 + rho2).sstar
  {
    MulMonotone(rho1, 0.0, p.tau);
    MulMonotone(rho2, 0.0, p.tau);
    assert (rho1 + rho2) * p.tau == rho1 * p.tau + rho2 * p.tau;
  }

  /** `n` proximal steps of size `rho` from `h`. The potential itself performs
      one step per call; this iteration and the lemmas after it are derived
      properties of that single step. No step moves the iterate away from the
      waypoint `y`. */
  function ProxSteps(p: Laplace, h: real, rho: real, n: nat): (s: real)
    requires Valid(p) && rho >= 0.0
    ensures Abs(s - p.y) <= Abs(h - p.y)
  {
    if n == 0 then h
    else
      var prev := ProxSteps(p, h, rho, n - 1);
      MulMonotone(rho, 0.0, p.tau);
      Proximal(p, prev, rho).sstar
  }

  /** The total step length of `n` steps of size `rho`, accumulated the way
      the iteration accumulates it. */
  function TotalStep(rho: real, n: nat): (t: real)
    ensures rho >= 0.0 ==> t >= 0.0
  {
    if n == 0 then 0.0 else TotalStep(rho, n - 1) + rho
  }

  lemma {:induction false} TotalStepIsProduct(rho: real, n: nat)
    ensures TotalStep(rho, n) == n as real * rho
  {
    if n > 0 {
      TotalStepIsProduct(rho, n - 1);
    }
  }

  /** `n` steps of size `rho` are one step of size `n * rho`. */
  lemma {:induction false} ProxStepsCollapse(p: Laplace, h: real, rho: real, n: nat)
    requires Valid(p) && rho >= 0.0
    ensures ProxSteps(p, h, rho, n) == Proximal(p, h, n as real * rho).sstar
  {
    ProxStepsAccumulate(p, h, rho, n);
    TotalStepIsProduct(rho, n);
  }

  lemma {:induction false} ProxStepsAccumulate(p: Laplace, h: real, rho: real, n: nat)
    requires Valid(p) && rho >= 0.0
    ensures ProxSteps(p, h, rho, n) == Proximal(p, h, TotalStep(rho, n)).sstar
  {
    if n == 0 {
      assert Proximal(p, h, 0.0).sstar == h;
    } else {
      var m := TotalStep(rho, n - 1);
      ProxStepsAccumulate(p, h, rho, n - 1);
      ProximalComposes(p, h, m, rho);
    }
  }

  /** Once `n * rho * tau` covers the distance from `h` to `y`, the iteration
      sits exactly on the waypoint. */
  lemma ProxStepsReachWaypoint(p: Laplace, h: real, rho: real, n: nat)
    requires Valid(p) && rho >= 0.0
    requires Abs(h - p.y) <= (n as real * rho) * p.tau
    ensures ProxSteps(p, h, rho, n) == p.y
  {
    var r := n as real * rho;
    var mu := h - p.y;
    assert -(r * p.tau) <= mu <= r * p.tau;
    assert Proximal(p, h, r).sstar == p.y;
    ProxStepsCollapse(p, h, rho, n);
  }
}
