/**
 * The fixed-width report lines of `print_line` and `empty_line`: the text,
 * cut when it is too long, padded to `maxLength` and closed with '/'.
 * Only the string is modelled, not its `console.log`.
 */
module Layout {
  import opened JsString

  /** `config.maxLength`. */
  const MaxLength: nat := 40

  /** `fill_char || ' '`: an empty fill falls back to a space. */
  function Fill(fillChar: string): (fill: string)
    ensures fill != ""
  {
    if fillChar == "" then " " else fillChar
  }

  /**
   * The line `print_line` builds, as written: a text longer than `maxLength`
   * is cut with `data.slice(maxLength - data.length + 10)`.
   */
  function PrintLine(data: string, fillChar: string): (line: string)
    ensures |line| >= MaxLength + 1 && line[|line| - 1] == '/'
  {
    var kept := if |data| > MaxLength then Slice(data, MaxLength - |data| + 10) else data;
    PadEnd(kept, MaxLength, Fill(fillChar)) + "/"
  }

  /**
   * Where the text kept by `PrintLine` starts. By the rule for a negative
   * `slice` start, a text of 41 to 50 characters loses its first `50 - |data|`
   * characters and a longer text its first 50.
   */
  function KeptFrom(n: nat): nat
  {
    if n <= MaxLength then 0 else if n <= MaxLength + 10 then MaxLength + 10 - n else MaxLength + 10
  }

  /**
   * A line ends with '/', begins with the kept part of the text, and is
   * exactly 41 characters when that part fits: padded with the fill after it.
   */
  lemma PrintLineShape(data: string, fillChar: string)
    ensures var line := PrintLine(data, fillChar);
      var kept := data[KeptFrom(|data|)..];
      |line| >= 1 && line[|line| - 1] == '/' &&
      line[..|kept|] == kept &&
      (|kept| <= MaxLength ==> |line| == MaxLength + 1 && line[|kept|..MaxLength] == Repeat(Fill(fillChar), MaxLength - |kept|)) &&
      (|kept| > MaxLength ==> line == kept + "/")
  {
    var kept := if |data| > MaxLength then Slice(data, MaxLength - |data| + 10) else data;
    assert kept == data[KeptFrom(|data|)..];
  }

  /** A text of at most 40 characters is padded to exactly 40 and closed: 41 in all. */
  lemma ShortLine(data: string, fillChar: string)
    requires |data| <= MaxLength
    ensures var line := PrintLine(data, fillChar);
      |line| == MaxLength + 1 && line[..|data|] == data && line[MaxLength] == '/'
  {
    PrintLineShape(data, fillChar);
  }

  /**
   * As written, a long text makes a line wider than 41 characters: 100
   * characters keep their last 50, and 51 characters keep only the last one.
   */
  lemma LongLineOverflows()
    ensures |PrintLine(seq(100, _ => 'a'), "")| == 51
    ensures PrintLine(seq(50, _ => 'a') + "z", "")[0] == 'z'
  {
    PrintLineShape(seq(100, _ => 'a'), "");
    var d := seq(50, _ => 'a') + "z";
    PrintLineShape(d, "");
    assert d[KeptFrom(|d|)..] == "z";
  }

  /**
   * The line as evidently intended: an overlong text keeps its last
   * `maxLength - 10` characters (`data.slice(data.length - maxLength + 10)`),
   * so that every line has the same width.
   */
  function PrintLineFixed(data: string, fillChar: string): (line: string)
    ensures |line| == MaxLength + 1 && line[MaxLength] == '/'
    ensures |data| <= MaxLength ==> line[..|data|] == data
    ensures |data| > MaxLength ==> line[..MaxLength - 10] == data[|data| - (MaxLength - 10)..]
    ensures |data| <= MaxLength ==> line == PrintLine(data, fillChar)
  {
    var kept := if |data| > MaxLength then Slice(data, |data| - MaxLength + 10) else data;
    PadEnd(kept, MaxLength, Fill(fillChar)) + "/"
  }

  /** `empty_line`: a rule of 40 dashes closed with '/'. */
  function EmptyLine(): (line: string)
    ensures |line| == MaxLength + 1 && line[MaxLength] == '/'
    ensures forall k :: 0 <= k < MaxLength ==> line[k] == '-'
  {
    var line := PrintLine("", "-");
    PrintLineShape("", "-");
    assert line[..MaxLength] == Repeat("-", MaxLength);
    forall k | 0 <= k < MaxLength ensures line[k] == '-' {
      RepeatOne('-', MaxLength, k);
      assert line[k] == line[..MaxLength][k];
    }
    line
  }
}
