/** A Comparator is one of the six comparison operators, kept as the
 *  string the user typed; any other string compares false. */
module Comparators {

  /** The operator strings the comparator understands. */
  const Operators: set<string> := {"==", "!=", "<", "<=", ">=", ">"}

  datatype Comparator = Comparator(op: string) {

    /** `val1 op val2`; false for every pair when `op` is not an operator. */
    function Compare(val1: real, val2: real): (r: bool)
      ensures op !in Operators ==> !r
      ensures op in Operators ==>
        (r <==> ((val1 == val2 && op in {"==", "<=", ">="})
              || (val1 < val2 && op in {"!=", "<", "<="})
              || (val1 > val2 && op in {"!=", ">", ">="})))
    {
      if op == "==" then val1 == val2
      else if op == "!=" then val1 != val2
      else if op == "<" then val1 < val2
      else if op == "<=" then val1 <= val2
      else if op == ">=" then val1 >= val2
      else if op == ">" then val1 > val2
      else false
    }
  }

  /** "!=" negates "==", "<" negates ">=" and ">" negates "<="; "==" is
   *  exact equality, with no tolerance. */
  lemma ComplementaryOperators(a: real, b: real)
    ensures Comparator("!=").Compare(a, b) == !Comparator("==").Compare(a, b)
    ensures Comparator("<").Compare(a, b) == !Comparator(">=").Compare(a, b)
    ensures Comparator(">").Compare(a, b) == !Comparator("<=").Compare(a, b)
    ensures Comparator("==").Compare(a, b) <==> a == b
  {
  }

}
