/** The RUT (Chilean identifier) helpers: format validation, case-insensitive
    skip-list membership and length-preserving masking. All pure. */
module RutValidator {
  import opened Text

  const MaskChar: char := '*'
  /** Number of leading characters a mask reveals. */
  const Revealed: nat := 4

  /** The check character of a RUT: a digit, or the letter k in either case. */
  predicate IsCheckChar(c: char) {
    IsDigit(c) || c == 'k' || c == 'K'
  }

  /** `is_valid_rut`: lower-case the input, then demand length 8 or 9, a last
      character that is a digit or 'k', and digits everywhere before it. The
      contract restates this on the input as given, so upper-case 'K' counts. */
  function IsValidRut(rut: string): (r: bool)
    ensures r <==>
      && 8 <= |rut| <= 9
      && IsCheckChar(rut[|rut| - 1])
      && forall i :: 0 <= i < |rut| - 1 ==> IsDigit(rut[i])
  {
    var s := Lower(rut);
    if !(8 <= |s| <= 9) then false
    else if !IsDigit(s[|s| - 1]) && s[|s| - 1] != 'k' then false
    else if !AllDigits(s[..|s| - 1]) then false
    else
      assert forall i :: 0 <= i < |rut| - 1 ==> IsDigit(rut[i]) by {
        forall i | 0 <= i < |rut| - 1 ensures IsDigit(rut[i]) {
          assert s[..|s| - 1][i] == LowerChar(rut[i]);
          DigitsIgnoreCase(rut[i]);
        }
      }
      true
  }

  /** Any string whose length is outside 8..9 is rejected. */
  lemma WrongLengthRejected(rut: string)
    requires |rut| < 8 || |rut| > 9
    ensures !IsValidRut(rut)
  {
  }

  /** Validation does not depend on letter case. */
  lemma ValidIgnoresCase(rut: string)
    ensures IsValidRut(Lower(rut)) == IsValidRut(rut)
  {
    var s := Lower(rut);
    forall i | 0 <= i < |rut| ensures IsDigit(s[i]) <==> IsDigit(rut[i]) {
      DigitsIgnoreCase(rut[i]);
    }
  }

  /** `[e.lower() for e in exceptions]`. */
  function LowerAll(exceptions: seq<string>): (r: seq<string>)
    ensures |r| == |exceptions|
    ensures forall i :: 0 <= i < |r| ==> r[i] == Lower(exceptions[i])
  {
    seq(|exceptions|, i requires 0 <= i < |exceptions| => Lower(exceptions[i]))
  }

  /** `is_rut_exception`: membership of the lower-cased RUT among the
      lower-cased skip-list entries. */
  function IsRutException(rut: string, exceptions: seq<string>): (r: bool)
    ensures r <==> exists i :: 0 <= i < |exceptions| && Lower(exceptions[i]) == Lower(rut)
    ensures exceptions == [] ==> !r
  {
    Lower(rut) in LowerAll(exceptions)
  }

  /** Skip-list membership ignores the case of the RUT and of the entries. */
  lemma ExceptionIgnoresCase(rut: string, exceptions: seq<string>)
    ensures IsRutException(Lower(rut), exceptions) == IsRutException(rut, exceptions)
    ensures IsRutException(rut, LowerAll(exceptions)) == IsRutException(rut, exceptions)
  {
    LowerIdempotent(rut);
    forall i | 0 <= i < |exceptions| ensures Lower(LowerAll(exceptions)[i]) == Lower(exceptions[i]) {
      LowerIdempotent(exceptions[i]);
    }
  }

  /** A RUT that appears verbatim in the skip-list is an exception. */
  lemma ListedIsException(rut: string, exceptions: seq<string>)
    requires rut in exceptions
    ensures IsRutException(rut, exceptions)
  {
    var i :| 0 <= i < |exceptions| && exceptions[i] == rut;
  }

  function Stars(n: nat): (r: string)
    ensures |r| == n
    ensures forall i :: 0 <= i < n ==> r[i] == MaskChar
  {
    seq(n, _ => MaskChar)
  }

  /** `mask_rut`: keep the first four characters and star out the rest; a RUT
      of at most four characters is starred out completely. */
  function MaskRut(rut: string): (r: string)
    ensures |r| == |rut|
    ensures |rut| <= Revealed ==> forall i :: 0 <= i < |r| ==> r[i] == MaskChar
    ensures |rut| > Revealed ==> r[..Revealed] == rut[..Revealed]
    ensures |rut| > Revealed ==> forall i :: Revealed <= i < |r| ==> r[i] == MaskChar
  {
    if |rut| <= Revealed then Stars(|rut|)
    else rut[..Revealed] + Stars(|rut| - Revealed)
  }

  /** Masking a masked RUT changes nothing. */
  lemma MaskIdempotent(rut: string)
    ensures MaskRut(MaskRut(rut)) == MaskRut(rut)
  {
    var m := MaskRut(rut);
    var mm := MaskRut(m);
    if |rut| > Revealed {
      assert mm[..Revealed] == m[..Revealed];
      forall i | 0 <= i < |m| ensures mm[i] == m[i] {
        if i < Revealed {
          assert mm[i] == mm[..Revealed][i];
          assert m[i] == m[..Revealed][i];
        }
      }
    }
  }

  /** Two RUTs with the same first four characters and the same length are
      indistinguishable once masked. */
  lemma MaskHidesSuffix(a: string, b: string)
    requires |a| == |b|
    requires |a| > Revealed ==> a[..Revealed] == b[..Revealed]
    ensures MaskRut(a) == MaskRut(b)
  {
  }
}
