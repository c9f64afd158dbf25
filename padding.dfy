/** The padders of index.js: `strLength` and `pad.left`, `pad.right`,
    `pad.center`, which widen a string one fill unit at a time until its
    visible length reaches a target. */
module Padding {

  /** Visible length of a string. The original strips terminal escape
      sequences first (through the `unstyle` package) and then takes the
      JavaScript `length`, which counts UTF-16 code units. This model counts
      Dafny characters, which agrees for text without escape sequences whose
      characters all lie in the Basic Multilingual Plane; a character outside
      it (an emoji, say) counts 2 in the original and 1 here. */
  function StrLength(s: string): nat
  {
    |s|
  }

  /** Visible length adds up over concatenation, which is what lets each
      padding step grow a value by exactly the fill's length. */
  lemma StrLengthAdds(a: string, b: string)
    ensures StrLength(a + b) == StrLength(a) + StrLength(b)
    ensures StrLength([]) == 0
  {
  }

  /** `n` copies of the fill character. */
  function Fill(c: char, n: nat): (r: string)
  {
    seq(n, _ => c)
  }

  lemma FillGrows(c: char, n: nat)
    ensures [c] + Fill(c, n) == Fill(c, n + 1)
    ensures Fill(c, n) + [c] == Fill(c, n + 1)
  {
    assert ([c] + Fill(c, n))[0] == c;
  }

  /** How many fill units it takes to bring `val` up to `len`: none when it is
      already that long or longer. */
  function Gap(val: string, len: int): nat
  {
    if StrLength(val) < len then len - StrLength(val) else 0
  }

  /** `pad.left`: prepends the fill until the target is reached, so the text
      ends up right-justified; never truncates. */
  function PadLeft(val: string, len: int, c: char): (r: string)
    ensures r == Fill(c, Gap(val, len)) + val
    ensures |r| == if |val| < len then len else |val|
    decreases len - StrLength(val)
  {
    if StrLength(val) < len then
      FillGrows(c, Gap(val, len) - 1);
      PadLeft([c] + val, len, c)
    else
      val
  }

  /** `pad.right`: appends the fill until the target is reached, so the text
      ends up left-justified; never truncates. */
  function PadRight(val: string, len: int, c: char): (r: string)
    ensures r == val + Fill(c, Gap(val, len))
    ensures |r| == if |val| < len then len else |val|
    decreases len - StrLength(val)
  {
    if StrLength(val) < len then
      FillGrows(c, Gap(val, len) - 1);
      PadRight(val + [c], len, c)
    else
      val
  }

  /** Number of fill units `pad.center` puts before the text when widening a
      string of length `n` to `len`: one for every odd length L with
      n <= L < len, since those are the steps that prepend. */
  function CenterLeft(n: nat, len: int): nat
  {
    if n < len then len / 2 - n / 2 else 0
  }

  /** Number of fill units `pad.center` puts after the text: one for every even
      length L with n <= L < len, since those are the steps that append. */
  function CenterRight(n: nat, len: int): nat
  {
    if n < len then (len + 1) / 2 - (n + 1) / 2 else 0
  }

  /** Reference count of the odd lengths L with n <= L < len. */
  function CountOdd(n: nat, len: int): nat
    decreases len - n
  {
    if n >= len then 0 else (if n % 2 == 1 then 1 else 0) + CountOdd(n + 1, len)
  }

  /** Reference count of the even lengths L with n <= L < len. */
  function CountEven(n: nat, len: int): nat
    decreases len - n
  {
    if n >= len then 0 else (if n % 2 == 0 then 1 else 0) + CountEven(n + 1, len)
  }

  /** The closed forms are those counts: `pad.center` prepends once per odd
      length and appends once per even length it passes through. */
  lemma {:induction false} CenterCounts(n: nat, len: int)
    ensures CenterLeft(n, len) == CountOdd(n, len)
    ensures CenterRight(n, len) == CountEven(n, len)
    decreases len - n
  {
    if n < len {
      CenterCounts(n + 1, len);
    }
  }

  /** `pad.center`: one unit at a time, appending when the current length is
      even and prepending when it is odd, until the target is reached. */
  function PadCenter(val: string, len: int, c: char): (r: string)
    ensures r == Fill(c, CenterLeft(|val|, len)) + val + Fill(c, CenterRight(|val|, len))
    decreases len - StrLength(val)
  {
    var strLen := StrLength(val);
    if strLen >= len then
      val
    else
      var widened := if strLen % 2 == 0 then PadRight(val, strLen + 1, c) else PadLeft(val, strLen + 1, c);
      CenterStep(val, len, c, widened);
      PadCenter(widened, len, c)
  }

  /** One step of `pad.center` keeps the final shape: framing the widened
      string by the remaining left and right amounts gives the same string as
      framing the original by its own amounts. */
  lemma CenterStep(val: string, len: int, c: char, widened: string)
    requires |val| < len
    requires widened == if |val| % 2 == 0 then val + [c] else [c] + val
    ensures Fill(c, CenterLeft(|widened|, len)) + widened + Fill(c, CenterRight(|widened|, len))
         == Fill(c, CenterLeft(|val|, len)) + val + Fill(c, CenterRight(|val|, len))
  {
    var n := |val|;
    var a, b := CenterLeft(n + 1, len), CenterRight(n + 1, len);
    if n % 2 == 0 {
      assert CenterLeft(n, len) == a && CenterRight(n, len) == b + 1;
      FillGrows(c, b);
      assert Fill(c, a) + widened + Fill(c, b) == Fill(c, a) + val + ([c] + Fill(c, b));
    } else {
      assert CenterLeft(n, len) == a + 1 && CenterRight(n, len) == b;
      FillGrows(c, a);
      assert Fill(c, a) + widened + Fill(c, b) == (Fill(c, a) + [c]) + val + Fill(c, b);
    }
  }

  /** The split `pad.center` makes: the two sides add up to the gap and differ
      by at most one unit. When they differ, the extra unit is on the left
      exactly when the starting length is odd, which is also exactly when the
      target length is even. */
  lemma CenterSplit(n: nat, len: int)
    ensures CenterLeft(n, len) + CenterRight(n, len) == (if n < len then len - n else 0)
    ensures CenterLeft(n, len) <= CenterRight(n, len) + 1
    ensures CenterRight(n, len) <= CenterLeft(n, len) + 1
    ensures CenterLeft(n, len) > CenterRight(n, len) <==> n < len && n % 2 == 1 && (len - n) % 2 == 1
    ensures CenterLeft(n, len) > CenterRight(n, len) <==> n < len && len % 2 == 0 && (len - n) % 2 == 1
  {
  }

  /** No padder ever shortens or changes a string that already reaches the
      target length. */
  lemma NoTruncation(val: string, len: int, c: char)
    ensures |val| >= len ==> PadLeft(val, len, c) == val && PadRight(val, len, c) == val && PadCenter(val, len, c) == val
    ensures |PadCenter(val, len, c)| == if |val| < len then len else |val|
  {
    CenterSplit(|val|, len);
  }
}
