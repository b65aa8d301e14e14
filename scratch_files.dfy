/** Scratch-file names of the speech pipeline. Message `i` of a plan owns
    `audios/message_<i>.mp3` (synthesized audio), `.wav` (the phoneme tool's
    input) and `.json` (the mouth-cue transcript), with `<i>` written in
    decimal as a JavaScript template literal writes a non-negative integer. */
module ScratchFiles {

  function DigitChar(d: nat): (c: char)
    requires d < 10
    ensures '0' <= c <= '9'
  {
    "0123456789"[d]
  }

  /** Decimal rendering of `n`, most significant digit first, no leading zeros. */
  function Decimal(n: nat): (s: string)
    ensures 1 <= |s|
    ensures forall k :: 0 <= k < |s| ==> '0' <= s[k] <= '9'
    ensures (n < 10) <==> (|s| == 1)
  {
    if n < 10 then [DigitChar(n)] else Decimal(n / 10) + [DigitChar(n % 10)]
  }

  lemma DigitCharInjective(a: nat, b: nat)
    requires a < 10 && b < 10 && DigitChar(a) == DigitChar(b)
    ensures a == b
  {
    var digits := "0123456789";
    assert digits[a] == digits[b];
  }

  /** Different indices are written differently. */
  lemma {:induction false} DecimalInjective(a: nat, b: nat)
    requires Decimal(a) == Decimal(b)
    ensures a == b
  {
    var sa, sb := Decimal(a), Decimal(b);
    if a < 10 && b < 10 {
      DigitCharInjective(a, b);
    } else if a >= 10 && b >= 10 {
      assert sa[|sa| - 1] == DigitChar(a % 10);
      assert sb[|sb| - 1] == DigitChar(b % 10);
      DigitCharInjective(a % 10, b % 10);
      assert sa[..|sa| - 1] == Decimal(a / 10);
      assert sb[..|sb| - 1] == Decimal(b / 10);
      DecimalInjective(a / 10, b / 10);
    }
  }

  const Prefix: string := "audios/message_"

  /** The scratch file of message `index` with extension `ext`
      (`audios/message_${index}.${ext}`). */
  function ScratchName(index: nat, ext: string): (name: string)
    ensures |name| == |Prefix| + |Decimal(index)| + 1 + |ext|
    ensures name[..|Prefix|] == Prefix
    ensures name[|name| - |ext| - 1] == '.' && name[|name| - |ext|..] == ext
  {
    Prefix + Decimal(index) + "." + ext
  }

  function Mp3Name(index: nat): string { ScratchName(index, "mp3") }
  function WavName(index: nat): string { ScratchName(index, "wav") }
  function JsonName(index: nat): string { ScratchName(index, "json") }

  lemma MiddleOf(p: string, d: string, t: string)
    ensures (p + d + t)[|p|..|p| + |d|] == d
  {
    var s := p + d + t;
    assert forall k :: 0 <= k < |d| ==> s[|p| + k] == d[k];
  }

  /** The last character tells the three extensions apart. */
  lemma SameExtension(i: nat, e: string, j: nat, f: string)
    requires e in {"mp3", "wav", "json"} && f in {"mp3", "wav", "json"}
    requires ScratchName(i, e) == ScratchName(j, f)
    ensures e == f
  {
    var n := ScratchName(i, e);
    assert n[|n| - 1] == e[|e| - 1];
    assert n[|n| - 1] == f[|f| - 1];
  }

  lemma SameIndex(i: nat, j: nat, e: string)
    requires ScratchName(i, e) == ScratchName(j, e)
    ensures i == j
  {
    var di, dj := Decimal(i), Decimal(j);
    assert |di| == |dj|;
    assert ScratchName(i, e) == Prefix + di + ("." + e);
    assert ScratchName(j, e) == Prefix + dj + ("." + e);
    MiddleOf(Prefix, di, "." + e);
    MiddleOf(Prefix, dj, "." + e);
    DecimalInjective(i, j);
  }

  /** Two scratch names coincide only for the same message and the same
      extension, so no message reads or overwrites another one's files. */
  lemma ScratchNameInjective(i: nat, e: string, j: nat, f: string)
    requires e in {"mp3", "wav", "json"} && f in {"mp3", "wav", "json"}
    requires ScratchName(i, e) == ScratchName(j, f)
    ensures i == j && e == f
  {
    SameExtension(i, e, j, f);
    SameIndex(i, j, e);
  }
}
