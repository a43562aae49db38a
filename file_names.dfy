/** The file-name rules the layer relies on: `std::filesystem::path`'s
    extension and stem of a file name, and `std::to_string` of a count. */
module FileNames {
  import opened Basics

  /** The position of the rightmost '.' before position `i`. */
  function DotBefore(f: string, i: nat): (r: Option<nat>)
    requires i <= |f|
    ensures r.Some? ==> r.value < i
  {
    if i == 0 then None
    else if f[i - 1] == '.' then Some(i - 1)
    else DotBefore(f, i - 1)
  }

  /** `DotBefore` finds the rightmost '.', and only when there is one. */
  lemma {:induction false} DotBeforeIsRightmost(f: string, i: nat)
    requires i <= |f|
    ensures var r := DotBefore(f, i);
      && (r.Some? ==> f[r.value] == '.' && forall k :: r.value < k < i ==> f[k] != '.')
      && (r.None? ==> forall k :: 0 <= k < i ==> f[k] != '.')
  {
    if i > 0 && f[i - 1] != '.' {
      DotBeforeIsRightmost(f, i - 1);
    }
  }

  /** The names "." and "..". */
  predicate IsDotOrDotDot(f: string) {
    || (|f| == 1 && f[0] == '.')
    || (|f| == 2 && f[0] == '.' && f[1] == '.')
  }

  /** `path::extension` of a file name: from the rightmost '.' to the end,
      except for "." and "..", and for a name whose only '.' is its first
      character, which have none. */
  function Extension(f: string): (e: string)
    ensures |e| <= |f|
  {
    if IsDotOrDotDot(f) then ""
    else
      match DotBefore(f, |f|)
      case None => ""
      case Some(d) => if d == 0 then "" else f[d..]
  }

  /** The extension is a proper ending of the name: a '.' and the characters
      after it, none of them a '.'. */
  lemma ExtensionShape(f: string)
    ensures var e := Extension(f);
      && (|e| < |f| || e == [])
      && e == f[|f| - |e|..]
      && (e != [] ==> e[0] == '.' && forall k :: 1 <= k < |e| ==> e[k] != '.')
  {
    DotBeforeIsRightmost(f, |f|);
  }

  /** `path::stem`: the file name without its extension. */
  function Stem(f: string): string {
    f[..|f| - |Extension(f)|]
  }

  lemma StemThenExtension(f: string)
    ensures Stem(f) + Extension(f) == f
  {
    var e := Extension(f);
    ExtensionShape(f);
    assert f == f[..|f| - |e|] + f[|f| - |e|..];
  }

  /** A name has a given extension (a '.' followed by at least one character
      and no further '.') exactly when it is longer than the extension and
      ends with it. */
  lemma {:induction false} ExtensionIs(f: string, ext: string)
    requires |ext| >= 2 && ext[0] == '.' && forall k :: 1 <= k < |ext| ==> ext[k] != '.'
    ensures Extension(f) == ext <==> |f| > |ext| && f[|f| - |ext|..] == ext
  {
    if |f| > |ext| && f[|f| - |ext|..] == ext {
      var d := |f| - |ext|;
      assert f[d] == ext[0] == '.';
      assert forall k :: d < k < |f| ==> f[k] == ext[k - d] != '.';
      assert !IsDotOrDotDot(f);
      DotBeforeIsRightmost(f, |f|);
      assert DotBefore(f, |f|) == Some(d);
    }
  }

  function Digit(n: nat): (c: char)
    requires n < 10
    ensures '0' <= c <= '9'
  {
    "0123456789"[n]
  }

  /** `std::to_string` of a non-negative count. */
  function DecimalString(n: nat): (r: string)
    ensures 1 <= |r|
    ensures n < 10 <==> |r| == 1
    ensures forall k :: 0 <= k < |r| ==> '0' <= r[k] <= '9'
    ensures r[|r| - 1] == Digit(n % 10)
  {
    if n < 10 then [Digit(n)] else DecimalString(n / 10) + [Digit(n % 10)]
  }

  lemma DigitInjective(a: nat, b: nat)
    requires a < 10 && b < 10 && Digit(a) == Digit(b)
    ensures a == b
  {
  }

  /** Different counts are written differently. */
  lemma {:induction false} DecimalStringInjective(a: nat, b: nat)
    requires DecimalString(a) == DecimalString(b)
    ensures a == b
  {
    var r := DecimalString(a);
    DigitInjective(a % 10, b % 10);
    if a >= 10 {
      assert b >= 10;
      assert DecimalString(a / 10) == r[..|r| - 1] == DecimalString(b / 10);
      DecimalStringInjective(a / 10, b / 10);
    }
  }

  /** The written count has no '.' in it. */
  lemma DecimalStringHasNoDot(n: nat)
    ensures forall k :: 0 <= k < |DecimalString(n)| ==> DecimalString(n)[k] != '.'
  {
  }
}
