/** The transcendental curves the section profiles call: square root and
    1.5-power on [0, 1] (`t**0.5`, `t**1.5`) and the quarter-turn sine and
    cosine u |-> sin(u * pi / 2), u |-> cos(u * pi / 2). They are taken as
    given total functions of which only the properties below are known. */
module Curves {

  datatype Curves = Curves(
    sqrt: real -> real,
    pow15: real -> real,
    sinQ: real -> real,
    cosQ: real -> real)

  /** f fixes 0 and 1, maps [0, 1] into [0, 1] and does not decrease there. */
  ghost predicate UnitRamp(f: real -> real)
  {
    && f(0.0) == 0.0 && f(1.0) == 1.0
    && (forall t :: 0.0 <= t <= 1.0 ==> 0.0 <= f(t) <= 1.0)
    && (forall s, t :: 0.0 <= s <= t <= 1.0 ==> f(s) <= f(t))
  }

  /** The properties of the real curves that the profiles rely on. */
  ghost predicate Valid(c: Curves)
  {
    && UnitRamp(c.sqrt)
    && UnitRamp(c.pow15)
    && c.sinQ(0.0) == 0.0 && c.sinQ(1.0) == 1.0
    && c.cosQ(0.0) == 1.0 && c.cosQ(1.0) == 0.0
    && (forall u :: 0.0 <= u <= 1.0 ==> 0.0 <= c.sinQ(u) <= 1.0)
    && (forall u :: 0.0 <= u <= 1.0 ==> 0.0 <= c.cosQ(u) <= 1.0)
  }
}
