/**
 * The hiragana reference tables: the basic grid (one row per consonant,
 * one column per vowel, with empty cells where the syllabary has gaps), the
 * grid of combined syllables, the flat list of all kana, its counts and the
 * lookup by character.
 */
module Hiragana {
  import opened Optional
  import opened Seqs

  /** One cell of a grid: the kana (`char` in the tables) and its romanisation. */
  datatype Kana = Kana(glyph: string, romaji: string)

  type Grid = seq<seq<Option<Kana>>>

  function K(c: string, r: string): Option<Kana> {
    Some(Kana(c, r))
  }

  /** `hiraganaGrid`: 16 rows of 5 cells; `None` marks an empty cell. */
  const BASIC_GRID: Grid := [
    [K("あ", "a"), K("い", "i"), K("う", "u"), K("え", "e"), K("お", "o")],
    [K("か", "ka"), K("き", "ki"), K("く", "ku"), K("け", "ke"), K("こ", "ko")],
    [K("が", "ga"), K("ぎ", "gi"), K("ぐ", "gu"), K("げ", "ge"), K("ご", "go")],
    [K("さ", "sa"), K("し", "shi"), K("す", "su"), K("せ", "se"), K("そ", "so")],
    [K("ざ", "za"), K("じ", "ji"), K("ず", "zu"), K("ぜ", "ze"), K("ぞ", "zo")],
    [K("た", "ta"), K("ち", "chi"), K("つ", "tsu"), K("て", "te"), K("と", "to")],
    [K("だ", "da"), K("ぢ", "ji"), K("づ", "zu"), K("で", "de"), K("ど", "do")],
    [K("な", "na"), K("に", "ni"), K("ぬ", "nu"), K("ね", "ne"), K("の", "no")],
    [K("は", "ha"), K("ひ", "hi"), K("ふ", "fu"), K("へ", "he"), K("ほ", "ho")],
    [K("ば", "ba"), K("び", "bi"), K("ぶ", "bu"), K("べ", "be"), K("ぼ", "bo")],
    [K("ぱ", "pa"), K("ぴ", "pi"), K("ぷ", "pu"), K("ぺ", "pe"), K("ぽ", "po")],
    [K("ま", "ma"), K("み", "mi"), K("む", "mu"), K("め", "me"), K("も", "mo")],
    [K("や", "ya"), None, K("ゆ", "yu"), None, K("よ", "yo")],
    [K("ら", "ra"), K("り", "ri"), K("る", "ru"), K("れ", "re"), K("ろ", "ro")],
    [K("わ", "wa"), None, None, None, K("を", "wo")],
    [K("ん", "n"), None, None, None, None]
  ]

  /** `combinationsGrid`: 11 rows of the three combined syllables with ya, yu and yo. */
  const COMBINATIONS_GRID: Grid := [
    [K("きゃ", "kya"), K("きゅ", "kyu"), K("きょ", "kyo")],
    [K("しゃ", "sha"), K("しゅ", "shu"), K("しょ", "sho")],
    [K("ちゃ", "cha"), K("ちゅ", "chu"), K("ちょ", "cho")],
    [K("にゃ", "nya"), K("にゅ", "nyu"), K("にょ", "nyo")],
    [K("ひゃ", "hya"), K("ひゅ", "hyu"), K("ひょ", "hyo")],
    [K("みゃ", "mya"), K("みゅ", "myu"), K("みょ", "myo")],
    [K("りゃ", "rya"), K("りゅ", "ryu"), K("りょ", "ryo")],
    [K("ぎゃ", "gya"), K("ぎゅ", "gyu"), K("ぎょ", "gyo")],
    [K("じゃ", "ja"), K("じゅ", "ju"), K("じょ", "jo")],
    [K("びゃ", "bya"), K("びゅ", "byu"), K("びょ", "byo")],
    [K("ぴゃ", "pya"), K("ぴゅ", "pyu"), K("ぴょ", "pyo")]
  ]

  /** The shapes of the two grids: 16 rows of 5 cells, and 11 rows of 3 filled cells. */
  lemma GridShapes()
    ensures |BASIC_GRID| == 16 && forall i :: 0 <= i < |BASIC_GRID| ==> |BASIC_GRID[i]| == 5
    ensures |COMBINATIONS_GRID| == 11
    ensures forall i :: 0 <= i < |COMBINATIONS_GRID| ==>
      |COMBINATIONS_GRID[i]| == 3 && forall j :: 0 <= j < 3 ==> COMBINATIONS_GRID[i][j].Some?
  {
  }

  /** `grid.flat()`: the rows concatenated in order. */
  function Flat<T>(grid: seq<seq<T>>): seq<T> {
    if grid == [] then [] else grid[0] + Flat(grid[1..])
  }

  /** The entries as filled cells. */
  function Filled(r: seq<Kana>): (f: seq<Option<Kana>>)
    ensures |f| == |r| && forall i :: 0 <= i < |r| ==> f[i] == Some(r[i])
  {
    seq(|r|, i requires 0 <= i < |r| => Some(r[i]))
  }

  /** `.filter(Boolean)` on a row of cells: the filled cells, in order. */
  function Present(cells: seq<Option<Kana>>): (r: seq<Kana>)
    ensures |r| <= |cells|
  {
    if cells == [] then []
    else if cells[0].Some? then [cells[0].value] + Present(cells[1..])
    else Present(cells[1..])
  }

  /** The kept entries are the kana of the filled cells and nothing else. */
  lemma {:induction false} PresentMembers(cells: seq<Option<Kana>>)
    ensures forall i :: 0 <= i < |Present(cells)| ==> Some(Present(cells)[i]) in cells
    ensures forall i :: 0 <= i < |cells| && cells[i].Some? ==> cells[i].value in Present(cells)
  {
    if cells != [] {
      PresentMembers(cells[1..]);
      var rest := Present(cells[1..]);
      assert forall x :: x in cells[1..] ==> x in cells;
      forall i | 0 <= i < |cells| && cells[i].Some?
        ensures cells[i].value in Present(cells)
      {
        if i > 0 {
          assert cells[i] == cells[1..][i - 1];
        }
      }
    }
  }

  /** The filled cells keep their order: as cells they form an order-preserving subsequence of the row. */
  lemma {:induction false} PresentInOrder(cells: seq<Option<Kana>>)
    ensures IsSubsequence(Filled(Present(cells)), cells)
  {
    if cells != [] {
      var rest := Present(cells[1..]);
      PresentInOrder(cells[1..]);
      if cells[0].Some? {
        assert Present(cells) == [cells[0].value] + rest;
        assert Filled(Present(cells))[1..] == Filled(rest);
      } else {
        assert Filled(rest) != [] ==> Filled(rest)[0] != cells[0];
      }
    }
  }

  /** Each kana occurs among the filled cells as often as it fills a cell of the row. */
  lemma {:induction false} PresentCounts(cells: seq<Option<Kana>>)
    ensures forall k :: multiset(Present(cells))[k] == multiset(cells)[Some(k)]
  {
    if cells != [] {
      var rest := Present(cells[1..]);
      PresentCounts(cells[1..]);
      assert cells == [cells[0]] + cells[1..];
      assert multiset(cells) == multiset{cells[0]} + multiset(cells[1..]);
      if cells[0].Some? {
        assert multiset(Present(cells)) == multiset{cells[0].value} + multiset(rest);
      }
    }
  }

  /** Filtering a concatenation filters each part. */
  lemma {:induction false} PresentAppend(a: seq<Option<Kana>>, b: seq<Option<Kana>>)
    ensures Present(a + b) == Present(a) + Present(b)
  {
    if a != [] {
      assert (a + b)[1..] == a[1..] + b;
      PresentAppend(a[1..], b);
    } else {
      assert a + b == b;
    }
  }

  /** A flattened grid's filled cells are the rows' filled cells in order. */
  function CountPresent(grid: Grid): nat {
    if grid == [] then 0 else |Present(grid[0])| + CountPresent(grid[1..])
  }

  lemma {:induction false} FlatPresentCount(grid: Grid)
    ensures |Present(Flat(grid))| == CountPresent(grid)
  {
    if grid != [] {
      PresentAppend(grid[0], Flat(grid[1..]));
      FlatPresentCount(grid[1..]);
    }
  }

  /** `allHiragana`: the filled basic cells in row order, then the combined syllables. */
  function AllHiragana(basic: Grid, combinations: Grid): seq<Kana> {
    Present(Flat(basic)) + Present(Flat(combinations))
  }

  /** The filled cells of a flattened grid are exactly the kana in its filled cells. */
  lemma {:induction false} FlatPresentCells(g: Grid)
    ensures forall i, j :: 0 <= i < |g| && 0 <= j < |g[i]| && g[i][j].Some? ==> g[i][j].value in Present(Flat(g))
    ensures forall x :: x in Present(Flat(g)) ==>
      exists i, j :: 0 <= i < |g| && 0 <= j < |g[i]| && g[i][j] == Some(x)
  {
    if g != [] {
      FlatPresentCells(g[1..]);
      PresentAppend(g[0], Flat(g[1..]));
      PresentMembers(g[0]);
      forall i, j | 0 <= i < |g| && 0 <= j < |g[i]| && g[i][j].Some?
        ensures g[i][j].value in Present(Flat(g))
      {
        if i > 0 {
          assert g[i] == g[1..][i - 1];
        }
      }
      forall x | x in Present(Flat(g))
        ensures exists i, j :: 0 <= i < |g| && 0 <= j < |g[i]| && g[i][j] == Some(x)
      {
        if x in Present(g[0]) {
          var j :| 0 <= j < |g[0]| && g[0][j] == Some(x);
        } else {
          var i, j :| 0 <= i < |g[1..]| && 0 <= j < |g[1..][i]| && g[1..][i][j] == Some(x);
          assert g[i + 1][j] == Some(x);
        }
      }
    }
  }

  /**
   * `allHiragana` holds no empty cell: its entries are exactly the kana of
   * the filled cells of the two grids, the basic ones first, each part in
   * row-major order, and every kana as often as it fills a cell.
   */
  lemma AllHiraganaCells(a: Grid, b: Grid)
    ensures var all := AllHiragana(a, b);
      && (forall i, j :: 0 <= i < |a| && 0 <= j < |a[i]| && a[i][j].Some? ==> a[i][j].value in all[..|Present(Flat(a))|])
      && (forall i, j :: 0 <= i < |b| && 0 <= j < |b[i]| && b[i][j].Some? ==> b[i][j].value in all[|Present(Flat(a))|..])
      && (forall x :: x in all ==>
            (exists i, j :: 0 <= i < |a| && 0 <= j < |a[i]| && a[i][j] == Some(x)) ||
            (exists i, j :: 0 <= i < |b| && 0 <= j < |b[i]| && b[i][j] == Some(x)))
      && IsSubsequence(Filled(all[..|Present(Flat(a))|]), Flat(a))
      && IsSubsequence(Filled(all[|Present(Flat(a))|..]), Flat(b))
      && (forall k :: multiset(all)[k] == multiset(Flat(a))[Some(k)] + multiset(Flat(b))[Some(k)])
  {
    FlatPresentCells(a);
    FlatPresentCells(b);
    PresentInOrder(Flat(a));
    PresentInOrder(Flat(b));
    PresentCounts(Flat(a));
    PresentCounts(Flat(b));
    var all := Present(Flat(a)) + Present(Flat(b));
    var n := |Present(Flat(a))|;
    assert all[..n] == Present(Flat(a));
    assert all[n..] == Present(Flat(b));
    assert multiset(all) == multiset(Present(Flat(a))) + multiset(Present(Flat(b)));
  }

  datatype KanaStatistics = KanaStatistics(basicCount: nat, combinationsCount: nat, totalCount: nat)

  /** `statistics`: the counts of filled basic cells, combined syllables, and all entries. */
  function Statistics(basic: Grid, combinations: Grid): (s: KanaStatistics)
    ensures s.totalCount == s.basicCount + s.combinationsCount
    ensures s.basicCount <= |Flat(basic)| && s.combinationsCount <= |Flat(combinations)|
  {
    KanaStatistics(|Present(Flat(basic))|, |Present(Flat(combinations))|, |AllHiragana(basic, combinations)|)
  }

  /** The basic grid has 71 kana (80 cells, 9 empty), the combinations 33, so 104 in all. */
  lemma StatisticsValues()
    ensures Statistics(BASIC_GRID, COMBINATIONS_GRID) == KanaStatistics(71, 33, 104)
  {
    FlatPresentCount(BASIC_GRID);
    FlatPresentCount(COMBINATIONS_GRID);
    BasicCount();
    CombinationsCount();
  }

  lemma BasicCount()
    ensures CountPresent(BASIC_GRID) == 71
  {
    FullBasicRows();
    GappedRows();
    BasicShapeCount(BASIC_GRID);
  }

  /** Twelve full rows, a row of 3, a full row, then rows of 2 and 1: 71 kana. */
  lemma BasicShapeCount(g: Grid)
    requires |g| == 16
    requires forall i :: 0 <= i < 12 ==> |g[i]| == 5 && forall j :: 0 <= j < 5 ==> g[i][j].Some?
    requires |g[13]| == 5 && forall j :: 0 <= j < 5 ==> g[13][j].Some?
    requires |Present(g[12])| == 3 && |Present(g[14])| == 2 && |Present(g[15])| == 1
    ensures CountPresent(g) == 71
  {
    FullRows(g[..12], 5);
    CountPresentSnoc(g[..13]);
    assert g[..13][..12] == g[..12];
    CountPresentSnoc(g[..14]);
    assert g[..14][..13] == g[..13];
    FullRow(g[13]);
    CountPresentSnoc(g[..15]);
    assert g[..15][..14] == g[..14];
    CountPresentSnoc(g);
    assert g[..15] == g[..|g| - 1];
  }

  lemma FullBasicRows()
    ensures forall i :: 0 <= i < 12 ==> |BASIC_GRID[i]| == 5 && forall j :: 0 <= j < 5 ==> BASIC_GRID[i][j].Some?
    ensures forall j :: 0 <= j < 5 ==> BASIC_GRID[13][j].Some?
  {
  }

  lemma CountPresentSnoc(g: Grid)
    requires g != []
    ensures CountPresent(g) == CountPresent(g[..|g| - 1]) + |Present(g[|g| - 1])|
  {
    assert g == g[..|g| - 1] + [g[|g| - 1]];
    CountPresentAppend(g[..|g| - 1], [g[|g| - 1]]);
  }

  /** The rows of ya, wa and n have 3, 2 and 1 kana. */
  lemma GappedRows()
    ensures |Present(BASIC_GRID[12])| == 3
    ensures |Present(BASIC_GRID[14])| == 2
    ensures |Present(BASIC_GRID[15])| == 1
  {
  }

  lemma CombinationsCount()
    ensures CountPresent(COMBINATIONS_GRID) == 33
  {
    FullRows(COMBINATIONS_GRID, 3);
  }

  lemma {:induction false} CountPresentAppend(a: Grid, b: Grid)
    ensures CountPresent(a + b) == CountPresent(a) + CountPresent(b)
  {
    if a == [] {
      assert a + b == b;
    } else {
      assert (a + b)[1..] == a[1..] + b;
      CountPresentAppend(a[1..], b);
    }
  }

  /** A grid whose rows are all `width` filled cells holds `width` kana per row. */
  lemma {:induction false} FullRows(g: Grid, width: nat)
    requires forall i :: 0 <= i < |g| ==> |g[i]| == width && forall j :: 0 <= j < width ==> g[i][j].Some?
    ensures CountPresent(g) == width * |g|
  {
    if g != [] {
      FullRow(g[0]);
      var rest := g[1..];
      assert forall i :: 0 <= i < |rest| ==> rest[i] == g[i + 1];
      FullRows(rest, width);
      assert CountPresent(g) == width + width * (|g| - 1);
      OneMoreRow(width, |g|);
    }
  }

  lemma OneMoreRow(width: nat, rows: nat)
    requires rows >= 1
    ensures width + width * (rows - 1) == width * rows
  {
  }

  lemma {:induction false} FullRow(cells: seq<Option<Kana>>)
    requires forall j :: 0 <= j < |cells| ==> cells[j].Some?
    ensures |Present(cells)| == |cells|
  {
    if cells != [] {
      FullRow(cells[1..]);
    }
  }

  /** The two views of the grid page. */
  const BASIC_VIEW: string := "basic"

  /** `currentGrid`: the basic grid exactly when the view is 'basic', the combinations otherwise. */
  function CurrentGrid(view: string, basic: Grid, combinations: Grid): (g: Grid)
    ensures view == BASIC_VIEW ==> g == basic
    ensures view != BASIC_VIEW ==> g == combinations
  {
    if view == BASIC_VIEW then basic else combinations
  }

  /** With the shipped tables, the grid shown is the basic one exactly when the view is 'basic'. */
  lemma CurrentGridShipped(view: string)
    ensures CurrentGrid(view, BASIC_GRID, COMBINATIONS_GRID) == BASIC_GRID <==> view == BASIC_VIEW
  {
    GridShapes();
  }

  function HasChar(c: string): Kana -> bool {
    (h: Kana) => h.glyph == c
  }

  /** `findHiragana(char)`: the first entry of `allHiragana` with that character, if any. */
  function FindHiragana(basic: Grid, combinations: Grid, c: string): (r: Option<Kana>)
    ensures var all := AllHiragana(basic, combinations);
      && (r.None? <==> forall i :: 0 <= i < |all| ==> all[i].glyph != c)
      && (r.Some? ==> r.value in all && r.value.glyph == c)
      && (r.Some? ==>
            exists i :: 0 <= i < |all| && all[i] == r.value &&
                        forall k :: 0 <= k < i ==> all[k].glyph != c)
  {
    var all := AllHiragana(basic, combinations);
    var r := Find(all, HasChar(c));
    assert forall i :: 0 <= i < |all| ==> (HasChar(c)(all[i]) <==> all[i].glyph == c);
    r
  }
}
