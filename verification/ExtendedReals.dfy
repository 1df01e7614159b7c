/**
  Real numbers, and what a division by zero gives: a number that is not finite, which stays so through
  every sum and product.
 */
module ExtendedReals {

  datatype ExtendedReal = Finite(value: real) | NotFinite {
    function Plus(x: ExtendedReal): ExtendedReal {
      if Finite? && x.Finite? then Finite(value + x.value) else NotFinite
    }

    function Times(factor: real): ExtendedReal {
      if Finite? then Finite(value * factor) else NotFinite
    }
  }
}
