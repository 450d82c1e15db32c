/** Small string helpers of the front end: truncation with an ellipsis and random hex colours. */
module Utils {
  import opened Seqs
  import MapUtils

  /** `truncateText`: the text itself when it fits in `maxLength` characters, otherwise its
      `slice(0, maxLength)` followed by three dots. */
  function TruncateText(text: string, maxLength: int): (r: string)
    ensures |text| <= maxLength ==> r == text
    ensures |text| > maxLength >= 0 ==> r == text[..maxLength] + "..." && |r| == maxLength + 3
    ensures |text| > maxLength && maxLength < 0 ==> r == SliceTo(text, maxLength) + "..."
  {
    if |text| <= maxLength then text else SliceTo(text, maxLength) + "..."
  }

  /** With a non-negative limit, truncating again changes nothing; a result is never shorter than
      the limit unless it is the untouched text. */
  lemma TruncateTextIdempotent(text: string, maxLength: int)
    requires maxLength >= 0
    ensures TruncateText(TruncateText(text, maxLength), maxLength) == TruncateText(text, maxLength)
    ensures |TruncateText(text, maxLength)| >= maxLength || TruncateText(text, maxLength) == text
  {
    if |text| > maxLength {
      var r := TruncateText(text, maxLength);
      assert |r| > maxLength;
      assert r[..maxLength] == text[..maxLength];
    }
  }

  /** The digits a colour is drawn from. */
  const Letters := "0123456789ABCDEF"

  predicate IsHexDigit(c: char) {
    c in Letters
  }

  /** `#` followed by six upper-case hex digits. */
  predicate IsHexColor(s: string) {
    |s| == 7 && s[0] == '#' && forall i :: 1 <= i < 7 ==> IsHexDigit(s[i])
  }

  predicate ValidRolls(rolls: seq<real>) {
    |rolls| == 6 && forall i :: 0 <= i < 6 ==> 0.0 <= rolls[i] < 1.0
  }

  /** The colour the six draws pick: draw `i` chooses digit `floor(roll * 16)`. */
  function ColorFor(rolls: seq<real>): (r: string)
    requires ValidRolls(rolls)
    ensures |r| == 7 && r[0] == '#'
    ensures forall i :: 0 <= i < 6 ==> r[i + 1] == Letters[MapUtils.RandomIndex(rolls[i], 16)]
  {
    "#" + seq(6, i requires 0 <= i < 6 => Letters[MapUtils.RandomIndex(rolls[i], 16)])
  }

  /** `getRandomColor`, with the six `Math.random()` draws supplied as `rolls`: a `#` followed by
      one digit per draw, appended in a loop. */
  method GetRandomColor(rolls: seq<real>) returns (color: string)
    requires ValidRolls(rolls)
    ensures color == ColorFor(rolls)
    ensures IsHexColor(color)
  {
    color := "#";
    for i := 0 to 6
      invariant |color| == i + 1 && color[0] == '#'
      invariant forall j :: 0 <= j < i ==> color[j + 1] == Letters[MapUtils.RandomIndex(rolls[j], 16)]
    {
      var digit := Letters[MapUtils.RandomIndex(rolls[i], 16)];
      color := color + [digit];
    }
    SameDigitsSameColor(rolls, color);
    ColorForIsHex(rolls);
  }

  /** A `#` followed by the digits the draws pick is the colour they pick. */
  lemma SameDigitsSameColor(rolls: seq<real>, color: string)
    requires ValidRolls(rolls)
    requires |color| == 7 && color[0] == '#'
    requires forall j :: 0 <= j < 6 ==> color[j + 1] == Letters[MapUtils.RandomIndex(rolls[j], 16)]
    ensures color == ColorFor(rolls)
  {
    var r := ColorFor(rolls);
    forall i | 0 <= i < 7 ensures color[i] == r[i] {
      if i > 0 {
        assert color[(i - 1) + 1] == r[(i - 1) + 1];
      }
    }
  }

  /** Every colour the draws pick is a hex colour. */
  lemma ColorForIsHex(rolls: seq<real>)
    requires ValidRolls(rolls)
    ensures IsHexColor(ColorFor(rolls))
  {
    var r := ColorFor(rolls);
    forall i | 1 <= i < 7 ensures IsHexDigit(r[i]) {
      assert r[i] == Letters[MapUtils.RandomIndex(rolls[i - 1], 16)];
    }
  }

  /** The draws `k / 16` pick digit `k`. */
  lemma RollPicks(k: nat)
    requires k < 16
    ensures 0.0 <= (k as real) / 16.0 < 1.0
    ensures MapUtils.RandomIndex((k as real) / 16.0, 16) == k
  {
    assert ((k as real) / 16.0) * (16 as real) == k as real;
  }

  /** Every hex colour can come out: some draws pick each of its digits. */
  lemma EveryHexColorReachable(s: string)
    requires IsHexColor(s)
    ensures exists rolls :: ValidRolls(rolls) && ColorFor(rolls) == s
  {
    var ks := seq(6, i requires 0 <= i < 6 => IndexOf(s[i + 1]));
    var rolls := seq(6, i requires 0 <= i < 6 => (ks[i] as real) / 16.0);
    forall i | 0 <= i < 6 ensures 0.0 <= rolls[i] < 1.0 && MapUtils.RandomIndex(rolls[i], 16) == ks[i] {
      RollPicks(ks[i]);
    }
    var r := ColorFor(rolls);
    forall i | 0 <= i < 7 ensures r[i] == s[i] {
      if i > 0 {
        assert r[i] == Letters[ks[i - 1]];
      }
    }
    assert r == s;
  }

  /** The position of a hex digit in `Letters`. */
  function IndexOf(c: char): (k: nat)
    requires IsHexDigit(c)
    ensures k < 16 && Letters[k] == c
  {
    var k :| 0 <= k < |Letters| && Letters[k] == c;
    k
  }
}
