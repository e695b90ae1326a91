/**
 * What the flythrough takes from outside its own source: the C math library
 * (sinf/cosf/sqrtf/atanf/asinf) and the display scale `distanceScale` that a
 * header not part of this model declares.  The math functions are left
 * uninterpreted: they are values of the record below, and every law a proof
 * needs is stated as a predicate at the points it is used, never assumed.
 */
module MathEnv {

  datatype Env = Env(
    sin: real -> real,
    cos: real -> real,
    sqrt: real -> real,
    atan: real -> real,
    asin: real -> real,
    // atan(x / z) as the program evaluates it in IEEE single precision: when
    // z == 0 the quotient is an infinity or NaN, which the reals lack, so the
    // composite is kept opaque and tied to atan only where z != 0.
    atanOfQuotient: (real, real) -> real,
    distanceScale: real)

  /** sin and cos at angle 0. */
  predicate TrigAtZero(env: Env)
  {
    env.sin(0.0) == 0.0 && env.cos(0.0) == 1.0
  }

  /** The identities of sin and cos at one angle that a rotation proof needs:
      parity under negation and sin^2 + cos^2 = 1. */
  predicate TrigAt(env: Env, t: real)
  {
    && env.sin(-t) == -env.sin(t)
    && env.cos(-t) == env.cos(t)
    && env.sin(t) * env.sin(t) + env.cos(t) * env.cos(t) == 1.0
  }

  /** sqrt(v) is the non-negative square root of v. */
  predicate SqrtAt(env: Env, v: real)
  {
    0.0 <= env.sqrt(v) && env.sqrt(v) * env.sqrt(v) == v
  }

  /** Where the quotient exists, atanOfQuotient is atan of it. */
  predicate QuotientAt(env: Env, x: real, z: real)
  {
    z != 0.0 ==> env.atanOfQuotient(x, z) == env.atan(x / z)
  }
}
