/**
 * Number conversion as Python performs it, and "try each format in turn" parsing.
 * Converting text to a float, and each calendar format, are parameters of the
 * model: only what the code does with their outcomes is modelled.
 */
module Parsing {
  import opened Wrappers

  /** What Python's `float(v)` yields: a finite value, NaN, an infinity, or an exception (`NotNumeric`). */
  datatype Num = Finite(value: real) | NaN | PosInf | NegInf | NotNumeric

  /** `int(x)` for a float: truncation toward zero, so the result never moves away from zero. */
  function Trunc(x: real): (r: int)
    ensures x >= 0.0 ==> r as real <= x < r as real + 1.0
    ensures x < 0.0 ==> r as real - 1.0 < x <= r as real
  {
    if x >= 0.0 then x.Floor else -((-x).Floor)
  }

  /**
   * The first format, in the given order, whose parser accepts `text`; formats
   * after it are never consulted.
   */
  function FirstParse<F, T>(parse: (F, string) -> Option<T>, formats: seq<F>, text: string): (r: Option<T>)
    ensures r.None? <==> forall i :: 0 <= i < |formats| ==> parse(formats[i], text).None?
    ensures r.Some? ==> exists i :: 0 <= i < |formats| && parse(formats[i], text) == r
                                    && forall j :: 0 <= j < i ==> parse(formats[j], text).None?
  {
    if formats == [] then None
    else
      var head := parse(formats[0], text);
      if head.Some? then head
      else
        var rest := FirstParse(parse, formats[1..], text);
        assert rest.Some? ==> exists i :: 1 <= i < |formats| && parse(formats[i], text) == rest
                                          && forall j :: 0 <= j < i ==> parse(formats[j], text).None? by {
          if rest.Some? {
            var k :| 0 <= k < |formats| - 1 && parse(formats[1..][k], text) == rest
                     && forall j :: 0 <= j < k ==> parse(formats[1..][j], text).None?;
            assert parse(formats[k + 1], text) == rest;
            forall j | 0 <= j < k + 1 ensures parse(formats[j], text).None? {
              if j > 0 { assert formats[j] == formats[1..][j - 1]; }
            }
          }
        }
        rest
  }
}
