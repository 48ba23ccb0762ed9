/** Values shared by every part of the model: the Python exceptions the core can
    raise, result wrappers, Python's `str.lower()` on ASCII text and Python's
    truncating `int(a / b)`. */
module Common {

  /** The exceptions the modelled code raises, named after the Python classes. */
  datatype Error =
    | AssertionError            // a failed `assert`
    | KeyError(msg: string)     // an unsupported name, or a missing store key
    | TypeError                 // an operation on None, or item assignment on a read-only mapping
    | ValueError                // a zero slice step, or shapes numpy cannot broadcast in place
    | ZeroDivisionError         // Python `/` with a zero divisor
    | AttributeError            // reading an attribute that was never assigned
    | IndexError                // an index outside the indexed axis

  datatype Option<+T> = None | Some(value: T)

  datatype Result<+T> = Ok(value: T) | Err(error: Error)

  datatype Outcome = Pass | Fail(error: Error)

  function Abs(x: int): (r: nat)
    ensures r == x || r == -x
  {
    if x < 0 then -x else x
  }

  // ---------------------------------------------------------------------------
  // Text

  function LowerChar(c: char): (d: char)
    ensures 'A' <= c <= 'Z' ==> 'a' <= d <= 'z' && d as int == c as int + 32
    ensures !('A' <= c <= 'Z') ==> d == c
  {
    if 'A' <= c <= 'Z' then (c as int + 32) as char else c
  }

  /** Python's `s.lower()`, restricted to the ASCII letters. */
  function Lower(s: string): (r: string)
  {
    if s == [] then [] else [LowerChar(s[0])] + Lower(s[1..])
  }

  predicate IsLowerWord(w: string)
  {
    forall i :: 0 <= i < |w| ==> 'a' <= w[i] <= 'z'
  }

  /** `s` spells the lower-case word `w` with any of its letters in upper case. */
  predicate CaseVariant(s: string, w: string)
  {
    |s| == |w| && forall i :: 0 <= i < |s| ==> s[i] == w[i] || s[i] as int == w[i] as int - 32
  }

  lemma {:induction false} LowerAt(s: string, i: nat)
    requires i < |s|
    ensures |Lower(s)| == |s| && Lower(s)[i] == LowerChar(s[i])
  {
    if i > 0 {
      LowerAt(s[1..], i - 1);
    } else if |s| > 1 {
      LowerAt(s[1..], 0);
    }
  }

  lemma {:induction false} LowerLength(s: string)
    ensures |Lower(s)| == |s|
  {
    if s != [] {
      LowerLength(s[1..]);
    }
  }

  /** Comparing `s.lower()` with a lower-case word is a case-insensitive comparison:
      both directions. */
  lemma LowerEqualsIffCaseVariant(s: string, w: string)
    requires IsLowerWord(w)
    ensures Lower(s) == w <==> CaseVariant(s, w)
  {
    LowerLength(s);
    forall i | 0 <= i < |s| ensures |Lower(s)| == |s| && Lower(s)[i] == LowerChar(s[i]) {
      LowerAt(s, i);
    }
    if CaseVariant(s, w) {
      assert forall i :: 0 <= i < |s| ==> Lower(s)[i] == w[i];
    }
  }

  // ---------------------------------------------------------------------------
  // Arithmetic

  /** Python's `int(a / b)` for integers `a` and `b`: true division followed by
      truncation toward zero (Dafny's own `/` is Euclidean). */
  function TruncDiv(a: int, b: int): (q: int)
    requires b != 0
    ensures Abs(q) * Abs(b) <= Abs(a) < Abs(q) * Abs(b) + Abs(b)
    ensures q > 0 ==> (a > 0) == (b > 0)
    ensures q < 0 ==> (a > 0) != (b > 0)
  {
    DivBounds(Abs(a), Abs(b));
    var m: nat := Abs(a) / Abs(b);
    var q: int := if (a >= 0) == (b > 0) then m as int else -(m as int);
    TruncBounds(a, b, m, q);
    q
  }

  /** The bounds of TruncDiv once the quotient of the magnitudes is known. */
  lemma TruncBounds(a: int, b: int, m: nat, q: int)
    requires b != 0
    requires m * Abs(b) <= Abs(a) < m * Abs(b) + Abs(b)
    requires q == if (a >= 0) == (b > 0) then m as int else -(m as int)
    ensures Abs(q) * Abs(b) <= Abs(a) < Abs(q) * Abs(b) + Abs(b)
    ensures q > 0 ==> (a > 0) == (b > 0)
    ensures q < 0 ==> (a > 0) != (b > 0)
  {
    assert Abs(q) == m;
    if m > 0 {
      MulMono(m, Abs(b));
    }
  }

  lemma DivBounds(x: nat, y: nat)
    requires y > 0
    ensures 0 <= x / y
    ensures (x / y) * y <= x < (x / y) * y + y
  {
  }

  lemma MulMono(m: nat, y: nat)
    requires m > 0
    ensures m * y >= y
  {
  }
}
