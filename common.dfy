/** Small value types shared by every module of the model. */
module Common {

  datatype Option<T> = None | Some(value: T)

  /** The settled state of one awaited call: it resolved with a value or it threw. */
  datatype Attempt<T> = Returned(value: T) | Threw(message: string)

  function DigitChar(d: nat): char
    requires d < 10
  {
    "0123456789"[d]
  }

  /** Decimal rendering of a natural number, as a template string prints it. */
  function NatText(n: nat): (s: string)
    ensures |s| > 0
    ensures forall i :: 0 <= i < |s| ==> '0' <= s[i] <= '9'
    decreases n
  {
    if n < 10 then [DigitChar(n)] else NatText(n / 10) + [DigitChar(n % 10)]
  }

  /** Rendering of a number that came out of `parseInt`: `NaN` when parsing failed. */
  function NumberText(n: Option<int>): (s: string)
    ensures n.None? <==> s == "NaN"
  {
    match n
    case None => "NaN"
    case Some(v) =>
      var t := if v < 0 then "-" + NatText(-v) else NatText(v);
      assert t[0] != "NaN"[0];
      t
  }

  /** Concatenations that agree around their middles agree in the middle. */
  lemma MiddleCancels<T>(p: seq<T>, x: seq<T>, y: seq<T>, q: seq<T>)
    requires p + x + q == p + y + q
    ensures x == y
  {
    assert |x| == |y|;
    assert x == (p + x + q)[|p|..|p| + |x|];
    assert y == (p + y + q)[|p|..|p| + |y|];
  }
}
