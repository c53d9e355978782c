// Presentation timestamps with the out-of-band "no timestamp" value.

module Timestamps {
  // MP_NOPTS_VALUE, -0x1p+63. It is an ordinary number to the raw comparison
  // operators, and the least one a timestamp can have.
  const NOPTS: real := -9223372036854775808.0

  function PtsOrDef(a: real, def: real): real {
    if a == NOPTS then def else a
  }

  function Min(a: real, b: real): real {
    if a > b then b else a
  }

  function Max(a: real, b: real): real {
    if a > b then a else b
  }

  // NOPTS does not take part in the comparison.
  function PtsMin(a: real, b: real): real {
    Min(PtsOrDef(a, b), PtsOrDef(b, a))
  }

  function PtsMax(a: real, b: real): real {
    Max(PtsOrDef(a, b), PtsOrDef(b, a))
  }
}
