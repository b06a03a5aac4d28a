/** What the two ranking scripts do with a judge's decoded JSON before formatting it: read each
    entry's "rank" through `int()`, then sort stably by that number (Python's `list.sort` /
    `sorted` with `key=lambda x: int(x["rank"])`). */
module Ranking {
  import opened Wrappers
  import opened Text

  /** A scalar JSON value as `json.loads` hands it back: a string or an integer. */
  datatype Field = JString(s: string) | JInt(i: int)

  /** `str(v)`, which is also what an f-string prints for `{v}`. */
  function Show(v: Field): string
  {
    match v
    case JString(s) => s
    case JInt(i) => IntToString(i)
  }

  /** `int(v)`: an integer unchanged, a string parsed, ValueError otherwise. */
  function ToInt(v: Field): (r: Result<int, PyException>)
    ensures v.JInt? ==> r == Success(v.i)
    ensures v.JString? ==> (r.Success? <==> ParseInt(v.s).Some?)
    ensures v.JString? && r.Failure? ==> r.error == ValueError(v.s)
  {
    match v
    case JInt(i) => Success(i)
    case JString(s) =>
      match ParseInt(s)
      case Some(n) => Success(n)
      case None => Failure(ValueError(s))
  }

  /** A decoded JSON object whose values are scalars. */
  type Record = map<string, Field>

  const RankKey: string := "rank"

  /** `int(x["rank"])`. */
  function RankOf(x: Record): (r: Result<int, PyException>)
    ensures RankKey !in x ==> r == Failure(KeyError(RankKey))
    ensures RankKey in x ==> r == ToInt(x[RankKey])
  {
    if RankKey !in x then Failure(KeyError(RankKey)) else ToInt(x[RankKey])
  }

  /** The sort keys, computed in list order as Python computes them before sorting: every rank, or
      the exception raised by the first entry whose rank is missing or not an integer. */
  function RankKeys(records: seq<Record>): (r: Result<seq<int>, PyException>)
    ensures r.Success? <==> forall i :: 0 <= i < |records| ==> RankOf(records[i]).Success?
    ensures r.Success? ==> |r.value| == |records| && forall i :: 0 <= i < |records| ==>
      RankOf(records[i]) == Success(r.value[i])
    ensures r.Failure? ==> exists i :: (0 <= i < |records| && RankOf(records[i]) == Failure(r.error)
      && forall j :: 0 <= j < i ==> RankOf(records[j]).Success?)
  {
    if records == [] then Success([])
    else
      match RankOf(records[0])
      case Failure(e) => Failure(e)
      case Success(k) =>
        match RankKeys(records[1..])
        case Success(ks) => Success([k] + ks)
        case Failure(e) =>
          ghost var i :| 0 <= i < |records[1..]| && RankOf(records[1..][i]) == Failure(e)
            && forall j :: 0 <= j < i ==> RankOf(records[1..][j]).Success?;
          assert RankOf(records[i + 1]) == Failure(e) && forall j :: 0 <= j < i + 1 ==> RankOf(records[j]).Success?;
          Failure(e)
  }

  /** An item with its sort key and its position in the unsorted list. */
  datatype Keyed<T> = Keyed(key: int, pos: nat, item: T)

  /** Pairs every item with its key and its original index. */
  function Tag<T>(keys: seq<int>, items: seq<T>): (r: seq<Keyed<T>>)
    requires |keys| == |items|
    ensures |r| == |items| && forall i :: 0 <= i < |items| ==> r[i] == Keyed(keys[i], i, items[i])
  {
    seq(|items|, i requires 0 <= i < |items| => Keyed(keys[i], i, items[i]))
  }

  ghost predicate KeySorted<T>(s: seq<Keyed<T>>)
  {
    forall i, j :: 0 <= i < j < |s| ==> s[i].key <= s[j].key
  }

  /** Ascending by key and, among equal keys, by original position: what a stable sort yields. */
  ghost predicate StableOrder<T>(s: seq<Keyed<T>>)
  {
    forall i, j :: 0 <= i < j < |s| ==> s[i].key < s[j].key || (s[i].key == s[j].key && s[i].pos < s[j].pos)
  }

  ghost predicate PosIncreasing<T>(s: seq<Keyed<T>>)
  {
    forall i, j :: 0 <= i < j < |s| ==> s[i].pos < s[j].pos
  }

  /** Puts `x` in front of the first element whose key is at least its own. */
  function Insert<T>(x: Keyed<T>, s: seq<Keyed<T>>): (r: seq<Keyed<T>>)
    ensures multiset(r) == multiset(s) + multiset{x}
  {
    if s == [] || x.key <= s[0].key then [x] + s
    else
      assert s == [s[0]] + s[1..];
      [s[0]] + Insert(x, s[1..])
  }

  lemma InsertFrom<T>(x: Keyed<T>, s: seq<Keyed<T>>, i: int)
    requires 0 <= i < |Insert(x, s)|
    ensures Insert(x, s)[i] == x || Insert(x, s)[i] in s
  {
    assert Insert(x, s)[i] in multiset(Insert(x, s));
  }

  lemma {:induction false} InsertKeySorted<T>(x: Keyed<T>, s: seq<Keyed<T>>)
    requires KeySorted(s)
    ensures KeySorted(Insert(x, s))
  {
    if s != [] && x.key > s[0].key {
      InsertKeySorted(x, s[1..]);
      var t := Insert(x, s[1..]);
      forall i | 0 <= i < |t| ensures s[0].key <= t[i].key {
        InsertFrom(x, s[1..], i);
      }
    }
  }

  lemma {:induction false} InsertStable<T>(x: Keyed<T>, s: seq<Keyed<T>>)
    requires StableOrder(s) && forall i :: 0 <= i < |s| ==> x.pos < s[i].pos
    ensures StableOrder(Insert(x, s))
  {
    if s != [] && x.key > s[0].key {
      InsertStable(x, s[1..]);
      var t := Insert(x, s[1..]);
      forall i | 0 <= i < |t|
        ensures s[0].key < t[i].key || (s[0].key == t[i].key && s[0].pos < t[i].pos)
      {
        InsertFrom(x, s[1..], i);
      }
    }
  }

  /** The stable sort by key. */
  function SortByKey<T>(s: seq<Keyed<T>>): (r: seq<Keyed<T>>)
    ensures |r| == |s| && multiset(r) == multiset(s)
    ensures KeySorted(r)
  {
    if s == [] then []
    else
      assert s == [s[0]] + s[1..];
      assert multiset(s) == multiset(s[1..]) + multiset{s[0]};
      InsertKeySorted(s[0], SortByKey(s[1..]));
      assert |multiset(Insert(s[0], SortByKey(s[1..])))| == |multiset(s)|;
      Insert(s[0], SortByKey(s[1..]))
  }

  /** Every element of a sorted list comes from the input list. */
  lemma SortedFrom<T>(s: seq<Keyed<T>>, i: int)
    requires 0 <= i < |SortByKey(s)|
    ensures SortByKey(s)[i] in s
  {
    assert SortByKey(s)[i] in multiset(SortByKey(s));
  }

  /** Ties keep their input order: sorting a list tagged with increasing positions gives a list
      ordered by key and then by position. */
  lemma {:induction false} SortByKeyStable<T>(s: seq<Keyed<T>>)
    requires PosIncreasing(s)
    ensures StableOrder(SortByKey(s))
  {
    if s != [] {
      SortByKeyStable(s[1..]);
      var t := SortByKey(s[1..]);
      forall i | 0 <= i < |t| ensures s[0].pos < t[i].pos {
        assert t[i] in multiset(s[1..]);
      }
      InsertStable(s[0], t);
    }
  }

  /** The first entry after sorting has the smallest rank and, among the entries sharing it, comes
      first in the input. */
  lemma SortedFirstIsMinimal<T>(s: seq<Keyed<T>>)
    requires |s| > 0 && PosIncreasing(s)
    ensures var w := SortByKey(s)[0];
      && w in s
      && (forall x :: x in s ==> w.key <= x.key)
      && (forall x :: x in s && x.key == w.key ==> w.pos <= x.pos)
  {
    var r := SortByKey(s);
    SortByKeyStable(s);
    assert r[0] in multiset(s);
    forall x | x in s ensures r[0].key <= x.key && (x.key == r[0].key ==> r[0].pos <= x.pos) {
      assert x in multiset(r);
      var j :| 0 <= j < |r| && r[j] == x;
    }
  }

  /** A tagged list has increasing positions. */
  lemma TagIncreasing<T>(keys: seq<int>, items: seq<T>)
    requires |keys| == |items|
    ensures PosIncreasing(Tag(keys, items))
  {
  }
}
