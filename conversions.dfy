/** The numeric conversions and formats the program takes from Python's
    standard library, kept uninterpreted. Each field is one library call; an
    optional result is `None` exactly where that call raises. */
module Conversions {
  import opened Wrappers

  /** A calendar date and time of day to the second (what `datetime` holds). */
  datatype DateTime = DateTime(year: int, month: int, day: int, hour: int, minute: int, second: int)

  datatype Conv = Conv(
    toFloat: string -> Option<real>,      // float(s)
    toInt: string -> Option<int>,         // int(s)
    toDate: string -> Option<DateTime>,   // datetime.strptime(s, '%d.%m.%Y %H:%M:%S')
    log: (real, real) -> real,            // math.log(x, base), on 0 < x, 0 < base != 1
    pow: (real, real) -> Option<real>,    // base ** exponent
    fixed0: real -> string,               // '{:.0f}'.format(x)
    show: real -> string,                 // str(x) for a float
    showInt: int -> string,               // str(n) for an int
    stdDate: DateTime -> string,          // d.strftime('%Y %m %d %H %M 00')
    round2: real -> real,                 // round(x, 2)
    pointText: (real, real) -> string)    // '{:5.2f} {:5.1f}'.format(f, h)

  /** Python's `int(x)` on a float: truncation toward zero. */
  function Trunc(x: real): (r: int)
    ensures 0.0 <= x ==> r as real <= x < r as real + 1.0
    ensures x < 0.0 ==> r as real - 1.0 < x <= r as real
  {
    if x >= 0.0 then x.Floor else -((-x).Floor)
  }

  function Abs(x: real): real {
    if x < 0.0 then -x else x
  }
}
