/** The integer helpers of the terminal front end: fixed-width player names
    and rectangles centred in the terminal. */
module Helpers {
  import opened RustPrims

  /** Number of characters in a player's name field. */
  const PLAYER_NAME_SIZE: nat := 16

  /** A terminal rectangle: top-left corner, width and height, in cells. */
  datatype Rect = Rect(x: u16, y: u16, width: u16, height: u16)

  /** `r` fits in a `cols` by `rows` area anchored at the origin. */
  predicate InsideArea(r: Rect, cols: int, rows: int)
  {
    r.x + r.width <= cols && r.y + r.height <= rows
  }

  /** The margin left of (above) `r` is at most one cell narrower than the
      margin right of (below) it, and never wider. */
  predicate CentredIn(r: Rect, cols: int, rows: int)
  {
    var right := cols - r.x - r.width;
    var below := rows - r.y - r.height;
    r.x <= right <= r.x + 1 && r.y <= below <= r.y + 1
  }

  /** A rectangle of the given size centred in a `cols` by `rows` area. The
      `u16` subtractions `cols - width` and `rows - height` must not
      underflow. */
  function CenteredRect(width: u16, height: u16, cols: u16, rows: u16): (r: Rect)
    requires width <= cols && height <= rows
    ensures r.width == width && r.height == height
    ensures InsideArea(r, cols, rows) && CentredIn(r, cols, rows)
  {
    var x := (cols - width) / 2;
    var y := (rows - height) / 2;
    Rect(x, y, width, height)
  }

  /** A centred rectangle `percentX` percent of the columns wide and
      `percentY` percent of the rows high, but at least 5 rows high and never
      higher than the area. The `u16` products must not overflow and the
      width must not exceed `cols`. */
  function CenteredRectWithPercentage(percentX: u16, percentY: u16, cols: u16, rows: u16): (r: Rect)
    requires cols * percentX <= U16_MAX && rows * percentY <= U16_MAX
    requires cols * percentX / 100 <= cols
    ensures r.width == cols * percentX / 100
    ensures r.height <= rows && r.height >= Min(5, rows)
    ensures r.height >= Min(rows * percentY / 100, rows)
    ensures r.height <= Max(rows * percentY / 100, 5)
    ensures InsideArea(r, cols, rows) && CentredIn(r, cols, rows)
  {
    var width := cols * percentX / 100;
    var height := Min(Max(rows * percentY / 100, 5), rows);
    Rect((cols - width) / 2, (rows - height) / 2, width, height)
  }

  /** A percentage of at most 100 never asks for more columns than there are,
      so `CenteredRectWithPercentage`'s width requirement holds. */
  lemma PercentOfAtMost(cols: u16, percent: u16)
    requires percent <= 100
    ensures cols * percent / 100 <= cols
  {
    assert cols * percent <= cols * 100 by {
      assert cols * (100 - percent) >= 0;
    }
  }

  /** `Vec::resize`: cut `v` down to `n` elements, or pad it with `fill`. */
  function Resize(v: seq<char>, n: nat, fill: char): (r: seq<char>)
    ensures |r| == n
    ensures forall i :: 0 <= i < n && i < |v| ==> r[i] == v[i]
    ensures forall i :: |v| <= i < n ==> r[i] == fill
  {
    if n <= |v| then v[..n] else v + seq(n - |v|, _ => fill)
  }

  /** A player's name as a fixed array of 16 characters: the first 16
      characters of `s`, padded with spaces when `s` is shorter. */
  function StringToCharArray(s: string): (r: seq<char>)
    ensures |r| == PLAYER_NAME_SIZE
    ensures forall i :: 0 <= i < PLAYER_NAME_SIZE && i < |s| ==> r[i] == s[i]
    ensures forall i :: |s| <= i < PLAYER_NAME_SIZE ==> r[i] == ' '
  {
    var chars := Resize(s, PLAYER_NAME_SIZE, ' ');
    chars[..PLAYER_NAME_SIZE]
  }

  /** A name that already fills the field is kept as it is. */
  lemma StringToCharArrayKeepsFullNames(s: string)
    requires |s| == PLAYER_NAME_SIZE
    ensures StringToCharArray(s) == s
  {
    var r := StringToCharArray(s);
    assert forall i :: 0 <= i < |s| ==> r[i] == s[i];
  }

  /** Converting a converted name again changes nothing. */
  lemma StringToCharArrayIdempotent(s: string)
    ensures StringToCharArray(StringToCharArray(s)) == StringToCharArray(s)
  {
    StringToCharArrayKeepsFullNames(StringToCharArray(s));
  }
}
