/**
 * The averaging scenario for five lettuce records: when every image ranks
 * the same two names, `avg_all` holds exactly those two names, the one with
 * the larger total first; with romaine/iceberg at 90/10 once and 50/50
 * four times the lettuce averages are romaine 58 and iceberg 42, in that
 * order.
 */
module Scenario {
  import opened Dicts
  import opened StableSort
  import opened Submission

  const ROMAINE: string := "romaine"
  const ICEBERG: string := "iceberg"

  /** A percentage dict that ranks romaine, then iceberg. */
  function Two(a: real, b: real): Dict<real> {
    [(ROMAINE, a), (ICEBERG, b)]
  }

  /** Five records: romaine 90 and iceberg 10 in the first, 50 and 50 in the others. */
  function Lettuces(): seq<ImageRecord> {
    [ImageRecord("1.jpg", Two(90.0, 10.0), [], []), ImageRecord("2.jpg", Two(50.0, 50.0), [], []),
     ImageRecord("3.jpg", Two(50.0, 50.0), [], []), ImageRecord("4.jpg", Two(50.0, 50.0), [], []),
     ImageRecord("5.jpg", Two(50.0, 50.0), [], [])]
  }

  lemma TwoFacts(a: real, b: real, name: string)
    ensures ROMAINE != ICEBERG
    ensures ValidDict(Two(a, b))
    ensures Keys(Two(a, b)) == [ROMAINE, ICEBERG]
    ensures GetOr(Two(a, b), name, 0.0) == if name == ROMAINE then a else if name == ICEBERG then b else 0.0
  {
    assert ROMAINE[0] != ICEBERG[0];
    var d := Two(a, b);
    assert d[..1] == [(ROMAINE, a)];
    assert d[..1][..0] == [];
    assert GetOr(d[..1], name, 0.0) == if name == ROMAINE then a else 0.0;
  }

  /** Per-name totals over the five records. */
  lemma LettuceSums(name: string)
    ensures NameSum(Lettuces(), Lettuce, name) == if name == ROMAINE then 290.0 else if name == ICEBERG then 210.0 else 0.0
  {
    var s := Lettuces();
    TwoFacts(90.0, 10.0, name);
    TwoFacts(50.0, 50.0, name);
    assert s[..1][..0] == [];
    assert s[..2][..1] == s[..1];
    assert s[..3][..2] == s[..2];
    assert s[..4][..3] == s[..3];
    assert s[..5][..4] == s[..4];
    assert s[..5] == s;
    var first := if name == ROMAINE then 90.0 else if name == ICEBERG then 10.0 else 0.0;
    var rest := if name == ROMAINE then 50.0 else if name == ICEBERG then 50.0 else 0.0;
    assert NameSum(s[..1], Lettuce, name) == first;
    assert NameSum(s[..2], Lettuce, name) == first + rest;
    assert NameSum(s[..3], Lettuce, name) == first + 2.0 * rest;
    assert NameSum(s[..4], Lettuce, name) == first + 3.0 * rest;
  }

  /** A sorted dict over exactly two names is determined by their lookups. */
  lemma TwoNames(d: Dict<real>, x: string, y: string, a: real, b: real)
    requires x != y && a > b
    requires ValidDict(d) && SortedDesc(d, PairValue)
    requires forall k :: 0 <= k < |d| ==> d[k].0 == x || d[k].0 == y
    requires x in Keys(d) && y in Keys(d)
    requires GetOr(d, x, 0.0) == a && GetOr(d, y, 0.0) == b
    ensures d == [(x, a), (y, b)]
  {
    assert |d| == 2 by {
      if |d| > 2 {
        assert false;
      }
      var kx :| 0 <= kx < |d| && Keys(d)[kx] == x;
      var ky :| 0 <= ky < |d| && Keys(d)[ky] == y;
    }
    GetAt(d, 0);
    GetAt(d, 1);
    GetOrGet(d, x, 0.0);
    GetOrGet(d, y, 0.0);
    assert PairValue(d[0]) >= PairValue(d[1]);
  }

  /** The names of a sorted average map are those of its category in some image. */
  lemma AverageNames(images: seq<ImageRecord>, total: nat, cat: Category)
    requires total > 0
    requires forall i :: 0 <= i < |images| ==> ValidDict(images[i].Of(cat))
    ensures var avg := AveragesOf(images, total).Of(cat);
      forall k :: 0 <= k < |avg| ==> InSomeImage(images, cat, avg[k].0)
  {
    var avg := AveragesOf(images, total).Of(cat);
    forall k | 0 <= k < |avg|
      ensures InSomeImage(images, cat, avg[k].0)
    {
      assert Keys(avg)[k] == avg[k].0;
      AveragesSpec(images, total, cat, avg[k].0);
    }
  }

  /** Every key of `d` is one of the two names every image ranks. */
  lemma KeysAmongTwo(d: Dict<real>, images: seq<ImageRecord>, cat: Category, x: string, y: string)
    requires forall i :: 0 <= i < |images| ==> Keys(images[i].Of(cat)) == [x, y]
    requires forall k :: 0 <= k < |d| ==> InSomeImage(images, cat, d[k].0)
    ensures forall k :: 0 <= k < |d| ==> d[k].0 == x || d[k].0 == y
  {
    forall k | 0 <= k < |d|
      ensures d[k].0 == x || d[k].0 == y
    {
      var name := d[k].0;
      assert InSomeImage(images, cat, name);
      var i :| 0 <= i < |images| && name in Keys(images[i].Of(cat));
      assert Keys(images[i].Of(cat)) == [x, y];
    }
  }

  ghost predicate InSomeImage(images: seq<ImageRecord>, cat: Category, name: string) {
    exists i :: 0 <= i < |images| && name in Keys(images[i].Of(cat))
  }

  /**
   * When every image ranks the same two names in a category, the average
   * map holds those two names, the one with the larger sum first.
   */
  lemma AveragesOfTwoNames(images: seq<ImageRecord>, total: nat, cat: Category, x: string, y: string)
    requires total > 0 && x != y && |images| > 0
    requires forall i :: 0 <= i < |images| ==> ValidDict(images[i].Of(cat)) && Keys(images[i].Of(cat)) == [x, y]
    requires NameSum(images, cat, x) > NameSum(images, cat, y)
    ensures AveragesOf(images, total).Of(cat) ==
      [(x, NameSum(images, cat, x) / total as real), (y, NameSum(images, cat, y) / total as real)]
  {
    var avg := AveragesOf(images, total).Of(cat);
    AveragesSpec(images, total, cat, x);
    AveragesSpec(images, total, cat, y);
    assert x in Keys(images[0].Of(cat)) && y in Keys(images[0].Of(cat));
    AverageNames(images, total, cat);
    KeysAmongTwo(avg, images, cat, x, y);
    DivideLess(NameSum(images, cat, y), NameSum(images, cat, x), total);
    TwoNames(avg, x, y, NameSum(images, cat, x) / total as real, NameSum(images, cat, y) / total as real);
  }

  lemma DivideLess(a: real, b: real, total: nat)
    requires total > 0 && a < b
    ensures a / total as real < b / total as real
  {
  }

  /** The lettuce averages of the five records: romaine 290/5 = 58 before iceberg 210/5 = 42. */
  lemma RomaineBeforeIceberg(images: seq<ImageRecord>)
    requires images == Lettuces()
    ensures AveragesOf(images, 5).lettuce == [(ROMAINE, 58.0), (ICEBERG, 42.0)]
  {
    TwoFacts(90.0, 10.0, ROMAINE);
    TwoFacts(50.0, 50.0, ROMAINE);
    LettuceSums(ROMAINE);
    LettuceSums(ICEBERG);
    AveragesOfTwoNames(images, 5, Lettuce, ROMAINE, ICEBERG);
    var avg := AveragesOf(images, 5);
    assert avg.lettuce == avg.Of(Lettuce);
    assert NameSum(images, Lettuce, ROMAINE) == 290.0 && NameSum(images, Lettuce, ICEBERG) == 210.0;
    Fifths();
  }

  lemma Fifths()
    ensures 290.0 / 5 as real == 58.0 && 210.0 / 5 as real == 42.0
  {
  }
}
