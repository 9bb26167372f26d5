/** Character-buffer helpers shared by the model.

    The source keeps its strings in fixed `char` arrays and reads them as C strings
    (everything before the first NUL). `CString` is that view, `StrNCopy` is what
    `strncpy` leaves in a buffer, and `NatToDecimal`/`IntToDecimal` are what
    `sprintf("%d")` renders. */
module Text {

  const NUL: char := '\0'

  datatype Option<+T> = None | Some(value: T)

  /** True when s holds no NUL character, i.e. s can be stored as one C string. */
  predicate NoNul(s: string) {
    forall i :: 0 <= i < |s| ==> s[i] != NUL
  }

  /** n NUL characters: the zero fill of a static or memset buffer. */
  function Nuls(n: nat): (r: string)
    ensures |r| == n
    ensures forall i :: 0 <= i < n ==> r[i] == NUL
  {
    seq(n, _ => NUL)
  }

  /** Character i of a zero-filled buffer whose first |s| characters are s. */
  function At(s: string, i: nat): char {
    if i < |s| then s[i] else NUL
  }

  /** The C string held in buffer s: the longest NUL-free prefix of s. */
  function CString(s: string): (r: string)
    ensures |r| <= |s| && r == s[..|r|]
    ensures NoNul(r)
    ensures |r| < |s| ==> s[|r|] == NUL
  {
    if |s| == 0 || s[0] == NUL then "" else [s[0]] + CString(s[1..])
  }

  /** A buffer without NUL is read back whole. */
  lemma {:induction false} CStringOfNoNul(s: string)
    requires NoNul(s)
    ensures CString(s) == s
  {
    if |s| > 0 {
      assert NoNul(s[1..]) by {
        forall i | 0 <= i < |s[1..]| ensures s[1..][i] != NUL {
          assert s[1..][i] == s[i + 1];
        }
      }
      CStringOfNoNul(s[1..]);
      assert s == [s[0]] + s[1..];
    }
  }

  /** A NUL-free text followed by a NUL terminator is read back as that text,
      whatever the buffer holds after the terminator. */
  lemma {:induction false} CStringTerminated(s: string, rest: string)
    requires NoNul(s)
    ensures CString(s + [NUL] + rest) == s
  {
    if |s| == 0 {
      assert (s + [NUL] + rest)[0] == NUL;
    } else {
      var b := s + [NUL] + rest;
      assert b[0] == s[0];
      assert b[1..] == s[1..] + [NUL] + rest;
      assert NoNul(s[1..]) by {
        forall i | 0 <= i < |s[1..]| ensures s[1..][i] != NUL {
          assert s[1..][i] == s[i + 1];
        }
      }
      CStringTerminated(s[1..], rest);
      assert s == [s[0]] + s[1..];
    }
  }

  /** Zero fill after a buffer's contents does not change the C string it holds. */
  lemma {:induction false} CStringPadded(s: string, n: nat)
    ensures CString(s + Nuls(n)) == CString(s)
  {
    var b := s + Nuls(n);
    if |s| == 0 {
      assert b == Nuls(n);
      if n > 0 { assert b[0] == NUL; }
    } else if s[0] != NUL {
      assert b[0] == s[0];
      assert b[1..] == s[1..] + Nuls(n);
      CStringPadded(s[1..], n);
    }
  }

  /** The n-character buffer `strncpy(dst, src, n)` leaves behind: the C string of src,
      cut to n characters, then NUL padding up to n. */
  function StrNCopy(src: string, n: nat): (r: string)
    ensures |r| == n
    ensures var c := CString(src);
            if |c| >= n then r == c[..n] else r == c + Nuls(n - |c|)
  {
    var c := CString(src);
    if |c| >= n then c[..n] else c + Nuls(n - |c|)
  }

  /** Reading the copy back as a C string yields at most n characters of the source's
      C string, and all of it when it is shorter than n. */
  lemma StrNCopyReadBack(src: string, n: nat)
    ensures var c := CString(src);
            CString(StrNCopy(src, n)) == if |c| >= n then c[..n] else c
  {
    var c := CString(src);
    if |c| >= n {
      assert NoNul(c[..n]) by {
        forall i | 0 <= i < n ensures c[..n][i] != NUL { assert c[..n][i] == c[i]; }
      }
      CStringOfNoNul(c[..n]);
    } else {
      var pad := Nuls(n - |c|);
      assert pad == [NUL] + pad[1..];
      assert StrNCopy(src, n) == c + [NUL] + pad[1..];
      CStringTerminated(c, pad[1..]);
    }
  }

  /** The characters printed for digits. */
  predicate IsDigit(c: char) {
    '0' <= c <= '9'
  }

  predicate AllDigits(s: string) {
    forall i :: 0 <= i < |s| ==> IsDigit(s[i])
  }

  function DigitChar(d: nat): (c: char)
    requires d < 10
    ensures IsDigit(c)
    ensures c as int - '0' as int == d
  {
    ('0' as int + d) as char
  }

  function DigitValue(c: char): (d: nat)
    requires IsDigit(c)
    ensures d < 10 && DigitChar(d) == c
  {
    c as int - '0' as int
  }

  /** `sprintf("%d")` of a non-negative number: its shortest decimal form. */
  function NatToDecimal(n: nat): (r: string)
    ensures 1 <= |r|
    ensures AllDigits(r)
    ensures |r| > 1 ==> r[0] != '0'
    decreases n
  {
    if n < 10 then [DigitChar(n)] else NatToDecimal(n / 10) + [DigitChar(n % 10)]
  }

  /** `sprintf("%d")` of any int: a minus sign in front of the magnitude when negative. */
  function IntToDecimal(i: int): (r: string)
    ensures 1 <= |r|
    ensures i >= 0 ==> r == NatToDecimal(i)
    ensures i < 0 ==> r == "-" + NatToDecimal(-i)
  {
    if i < 0 then "-" + NatToDecimal(-i) else NatToDecimal(i)
  }

  /** The value of a string of decimal digits, most significant first. */
  function ParseNat(s: string): nat
    requires AllDigits(s)
  {
    if |s| == 0 then 0 else ParseNat(s[..|s| - 1]) * 10 + DigitValue(s[|s| - 1])
  }

  /** Rendering a number in decimal and reading the digits back yields the number. */
  lemma {:induction false} ParseNatToDecimal(n: nat)
    ensures ParseNat(NatToDecimal(n)) == n
    decreases n
  {
    if n >= 10 {
      var r := NatToDecimal(n);
      assert r[..|r| - 1] == NatToDecimal(n / 10);
      ParseNatToDecimal(n / 10);
    }
  }

  /** Number of characters `sprintf("%d")` prints for a number below 1000. */
  lemma DecimalWidth(n: nat)
    ensures n < 10 ==> |NatToDecimal(n)| == 1
    ensures 10 <= n < 100 ==> |NatToDecimal(n)| == 2
    ensures 100 <= n < 1000 ==> |NatToDecimal(n)| == 3
    ensures 1000 <= n < 10000 ==> |NatToDecimal(n)| == 4
  {
    if n >= 10 {
      DecimalWidth(n / 10);
    }
  }

  /** `c` repeated n times. */
  function Repeat(c: char, n: nat): (r: string)
    ensures |r| == n
    ensures forall i :: 0 <= i < n ==> r[i] == c
  {
    seq(n, _ => c)
  }

  /** Right-justification in a field of the given width, as `printf("%*s")` pads. */
  function PadLeft(s: string, width: nat, c: char): (r: string)
    ensures |s| >= width ==> r == s
    ensures |s| < width ==> |r| == width && r[width - |s|..] == s
    ensures forall i :: 0 <= i < |r| - |s| ==> r[i] == c
  {
    if |s| >= width then s else Repeat(c, width - |s|) + s
  }
}
