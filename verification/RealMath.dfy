/** Magnitudes and maxima of reals. */
module RealMath {

  function Abs(x: real): real { if x < 0.0 then -x else x }

  function MaxReal(x: real, y: real): real { if x >= y then x else y }
}
