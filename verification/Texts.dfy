/** Facts about joining texts. */
module Texts {
  lemma {:induction false} Glue3(a: string, b: string, c: string)
    ensures a + (b + c) == a + b + c
  {
  }

  lemma {:induction false} Empty(a: string)
    ensures a + "" == a && "" + a == a
  {
  }
}
