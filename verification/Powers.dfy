// Powers of an integer, for backoff delays and the weights of the drain.
module Powers {

  function Power(b: int, e: int): int {
    if e <= 0 then 1 else b * Power(b, e - 1)
  }

  lemma MulMonotone(a: int, b: int, c: int, d: int)
    requires a <= b && 0 <= c <= d && (c == d || 0 <= b)
    ensures a * c <= b * d
  {
    assert a * c <= b * c;
    assert b * c <= b * d;
  }

  lemma {:induction false} PowerMonotone(b: int, e: int, d: int)
    requires 1 <= b && e <= d
    ensures 1 <= Power(b, e) <= Power(b, d)
    decreases if d > 0 then d else 0
  {
    if d > 0 {
      if e == d {
        PowerMonotone(b, e - 1, d - 1);
        PowerMonotone(b, d - 1, d - 1);
        MulMonotone(1, b, Power(b, d - 1), Power(b, d - 1));
      } else {
        PowerMonotone(b, e, d - 1);
        PowerMonotone(b, d - 1, d - 1);
        MulMonotone(1, b, Power(b, d - 1), Power(b, d - 1));
      }
    }
  }
}
