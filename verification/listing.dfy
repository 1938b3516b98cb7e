/**
  The text of the `queue` command: a header, one numbered line per song with
  a marker on the current one, cut to 1900 code units when longer.
 */
module Listing {
  import opened Utf16
  import opened Session

  const Header: string := "\U{1F3B6} **Fila de M\U{00FA}sicas:**\n"
  const Marker: string := "\U{25B6}\U{FE0F}"
  const MaxLength: nat := 1900
  const TruncationNotice: string := "\n... (fila muito longa, mostrando apenas o in\U{00ED}cio)"
  const NoticeUnits: seq<CodeUnit> := Encode(TruncationNotice)

  function DigitChar(d: nat): (c: char)
    requires d < 10
    ensures '0' <= c <= '9' && c as int - '0' as int == d
  {
    ['0', '1', '2', '3', '4', '5', '6', '7', '8', '9'][d]
  }

  predicate IsDigit(c: char) {
    '0' <= c <= '9'
  }

  /** The decimal numeral of `n`, as JavaScript's template literal writes it. */
  function Decimal(n: nat): (r: string)
    ensures |r| >= 1
    ensures forall i :: 0 <= i < |r| ==> IsDigit(r[i])
  {
    if n < 10 then [DigitChar(n)] else Decimal(n / 10) + [DigitChar(n % 10)]
  }

  /** The number a string of digits denotes. */
  function DecimalValue(s: string): nat
    requires forall i :: 0 <= i < |s| ==> IsDigit(s[i])
  {
    if |s| == 0 then 0
    else
      assert IsDigit(s[|s| - 1]);
      DecimalValue(s[..|s| - 1]) * 10 + (s[|s| - 1] as int - '0' as int)
  }

  /** The numeral of a position reads back as that position. */
  lemma {:induction false} DecimalRoundTrip(n: nat)
    ensures DecimalValue(Decimal(n)) == n
  {
    if n >= 10 {
      DecimalRoundTrip(n / 10);
      var d := Decimal(n);
      assert d[..|d| - 1] == Decimal(n / 10);
    }
  }

  /** The line for the song at 0-based index `i`. */
  function Line(i: nat, current: int, title: string): string {
    (if i == current then Marker else "") + Decimal(i + 1) + ". " + title + "\n"
  }

  /** The song lines, the first one for 0-based index `first`. */
  function Lines(songs: seq<Song>, first: nat, current: int): (r: seq<string>)
    decreases |songs|
  {
    if |songs| == 0 then [] else [Line(first, current, songs[0].title)] + Lines(songs[1..], first + 1, current)
  }

  function Concat(lines: seq<string>): string
    decreases |lines|
  {
    if |lines| == 0 then "" else lines[0] + Concat(lines[1..])
  }

  /** The listing before truncation, in JavaScript code units. */
  function FullText(songs: seq<Song>, current: int): seq<CodeUnit> {
    Encode(Header + Concat(Lines(songs, 0, current)))
  }

  /** Cut a text longer than MaxLength units and append `notice`. */
  function Truncate(text: seq<CodeUnit>, notice: seq<CodeUnit>): (r: seq<CodeUnit>)
    ensures |text| <= MaxLength ==> r == text
    ensures |text| > MaxLength ==>
      && |r| == MaxLength + |notice|
      && r[..MaxLength] == text[..MaxLength]
      && r[MaxLength..] == notice
  {
    if |text| > MaxLength then text[..MaxLength] + notice else text
  }

  predicate Marked(line: string) {
    |line| >= |Marker| && line[..|Marker|] == Marker
  }

  /**
    Line `k` of the listing is for song `k`, numbered `k + 1`, and carries the
    marker exactly when `k` is the current index.
   */
  lemma {:induction false} LinesShape(songs: seq<Song>, first: nat, current: int)
    ensures |Lines(songs, first, current)| == |songs|
    ensures forall k :: 0 <= k < |songs| ==>
      Lines(songs, first, current)[k] == Line(first + k, current, songs[k].title)
    decreases |songs|
  {
    if |songs| > 0 {
      LinesShape(songs[1..], first + 1, current);
    }
  }

  /** A line carries the marker exactly when it is the current song's. */
  lemma LineMarked(i: nat, current: int, title: string)
    ensures Marked(Line(i, current, title)) <==> i == current
  {
    var d := Decimal(i + 1);
    var l := Line(i, current, title);
    if i != current {
      assert l == d + ". " + title + "\n";
      assert l[0] == d[0];
      assert IsDigit(l[0]);
      assert !IsDigit(Marker[0]);
    } else {
      assert l == Marker + (d + ". " + title + "\n");
    }
  }

  /** After the optional marker, a line starts with the numeral of its 1-based position. */
  lemma LineNumbered(i: nat, current: int, title: string)
    ensures var rest := Line(i, current, title)[if i == current then |Marker| else 0..];
      var numeral := Decimal(i + 1);
      |rest| > |numeral| && rest[..|numeral|] == numeral && DecimalValue(numeral) == i + 1
  {
    var d := Decimal(i + 1);
    DecimalRoundTrip(i + 1);
    var tail := d + ". " + title + "\n";
    if i == current {
      assert Line(i, current, title) == Marker + tail;
      assert (Marker + tail)[|Marker|..] == tail;
    } else {
      assert Line(i, current, title) == tail;
    }
    assert tail[..|d|] == d;
  }

  /**
    The listing marks exactly the current song: of all song lines, the one
    with the marker is the one for `currentIndex`, and there is none when the
    index is out of range.
   */
  lemma ListingMarksCurrent(songs: seq<Song>, current: int)
    ensures var lines := Lines(songs, 0, current);
      |lines| == |songs| &&
      forall k :: 0 <= k < |songs| ==> (Marked(lines[k]) <==> k == current)
  {
    LinesShape(songs, 0, current);
    forall k | 0 <= k < |songs|
      ensures Marked(Lines(songs, 0, current)[k]) <==> k == current
    {
      LineMarked(k, current, songs[k].title);
    }
  }
}
