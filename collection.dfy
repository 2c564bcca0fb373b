/**
 * What a document collection does with the queries both repositories send it,
 * over an in-memory sequence of documents in natural (insertion) order:
 * counting and filtering by a predicate, finding the first match, removing one
 * or every match, and the `$match`/`$group`/`$project` listing with `$slice`.
 */
module Collection {
  import opened Wrappers

  function Min(a: int, b: int): int { if a <= b then a else b }

  /** CountDocuments: the number of documents satisfying `p`. */
  function Count<T>(s: seq<T>, p: T -> bool): (n: nat)
    ensures n <= |s|
    ensures n == 0 <==> forall i :: 0 <= i < |s| ==> !p(s[i])
  {
    if s == [] then 0
    else
      assert forall i :: 1 <= i < |s| ==> s[i] == s[1..][i - 1];
      (if p(s[0]) then 1 else 0) + Count(s[1..], p)
  }

  /** `$match`: the documents satisfying `p`, in their stored order. */
  function Matching<T(!new)>(s: seq<T>, p: T -> bool): (r: seq<T>)
    ensures |r| == Count(s, p)
    ensures forall x :: multiset(r)[x] == if p(x) then multiset(s)[x] else 0
  {
    if s == [] then []
    else
      assert s == [s[0]] + s[1..];
      (if p(s[0]) then [s[0]] else []) + Matching(s[1..], p)
  }

  /** Every document either satisfies `p` or does not. */
  lemma {:induction false} CountComplement<T>(s: seq<T>, p: T -> bool)
    ensures Count(s, p) + Count(s, x => !p(x)) == |s|
  {
    if s != [] {
      CountComplement(s[1..], p);
    }
  }

  /** DeleteMany: every document satisfying `p` is removed, every other one stays. */
  function RemoveAll<T(!new)>(s: seq<T>, p: T -> bool): (r: seq<T>)
    ensures |r| == |s| - Count(s, p)
    ensures forall x :: multiset(r)[x] == if p(x) then 0 else multiset(s)[x]
    ensures Count(r, p) == 0
  {
    CountComplement(s, p);
    var r := Matching(s, x => !p(x));
    assert forall i :: 0 <= i < |r| ==> !p(r[i]) by {
      forall i | 0 <= i < |r| ensures !p(r[i]) {
        assert multiset(r)[r[i]] > 0;
      }
    }
    r
  }

  /** The position of the first document satisfying `p` (FindOne, UpdateOne, DeleteOne). */
  function FirstMatch<T>(s: seq<T>, p: T -> bool): (r: Option<nat>)
    ensures r.None? <==> Count(s, p) == 0
    ensures r.Some? ==> r.value < |s| && p(s[r.value])
    ensures r.Some? ==> forall j :: 0 <= j < r.value ==> !p(s[j])
  {
    if s == [] then None
    else if p(s[0]) then Some(0)
    else
      assert forall i :: 1 <= i < |s| ==> s[i] == s[1..][i - 1];
      match FirstMatch(s[1..], p)
      case None => None
      case Some(i) => Some(i + 1)
  }

  /** The sequence without its `i`-th document. */
  function RemoveAt<T>(s: seq<T>, i: nat): (r: seq<T>)
    requires i < |s|
    ensures |r| == |s| - 1
    ensures multiset(r) == multiset(s) - multiset{s[i]}
    ensures forall j :: 0 <= j < i ==> r[j] == s[j]
    ensures forall j :: i < j < |s| ==> r[j - 1] == s[j]
  {
    assert s == s[..i] + [s[i]] + s[i + 1..];
    s[..i] + s[i + 1..]
  }

  const MinInt32: int := -0x8000_0000
  const MaxInt32: int := 0x7FFF_FFFF

  /** The `$slice` expression takes only values that fit a 32-bit integer. */
  predicate IsInt32(x: int)
  {
    MinInt32 <= x <= MaxInt32
  }

  /**
   * Where `$slice: [data, position, n]` starts: a negative position counts back
   * from the end (and stops at the front), a position past the end selects nothing.
   */
  function SliceStart(len: nat, position: int): (start: nat)
    ensures start <= len
    ensures 0 <= position <= len ==> start == position
    ensures position > len ==> start == len
    ensures position < 0 && -position <= len ==> start + -position == len
    ensures position < 0 && -position > len ==> start == 0
  {
    if position < 0 then (if len + position < 0 then 0 else len + position)
    else if position > len then len
    else position
  }

  /**
   * The `$slice` aggregation expression with three arguments: at most `n`
   * consecutive elements from SliceStart. `n` must be positive and both numbers
   * must fit in 32 bits, or the aggregation fails.
   */
  function Slice<T>(data: seq<T>, position: int, n: int): (r: Result<seq<T>>)
    ensures r.Ok? <==> IsInt32(position) && IsInt32(n) && n > 0
    ensures r.Ok? ==> |r.value| == Min(n, |data| - SliceStart(|data|, position))
    ensures r.Ok? ==> forall k :: 0 <= k < |r.value| ==>
              r.value[k] == data[SliceStart(|data|, position) + k]
  {
    if !IsInt32(position) then Err("Second argument to $slice can't be represented as a 32-bit integer")
    else if !IsInt32(n) then Err("Third argument to $slice can't be represented as a 32-bit integer")
    else if n <= 0 then Err("Third argument to $slice must be positive")
    else
      var start := SliceStart(|data|, position);
      Ok(data[start..start + Min(n, |data| - start)])
  }

  /** The one document `$group` + `$project` emit: the match count and the sliced documents. */
  datatype Page<T> = Page(totalCount: nat, items: seq<T>)

  /**
   * The listing pipeline over the matched documents: `$group` emits nothing when
   * nothing matched, otherwise one Page counting every match and holding the
   * `$slice` window of them.
   */
  function GroupPage<T>(matched: seq<T>, startIndex: int, recordPerPage: int): (r: Result<seq<Page<T>>>)
    ensures matched == [] ==> r == Ok([])
    ensures matched != [] ==> (r.Ok? <==> Slice(matched, startIndex, recordPerPage).Ok?)
    ensures matched != [] && r.Ok? ==>
              |r.value| == 1 && r.value[0].totalCount == |matched| &&
              r.value[0].items == Slice(matched, startIndex, recordPerPage).value
  {
    if matched == [] then Ok([])
    else
      match Slice(matched, startIndex, recordPerPage)
      case Ok(items) => Ok([Page(|matched|, items)])
      case Err(m) => Err(m)
  }

  /**
   * A page past the end is not an empty listing: the pipeline still emits one
   * document, whose `items` list is empty.
   */
  lemma PastTheEndPage<T>(matched: seq<T>, startIndex: int, recordPerPage: int)
    requires matched != [] && |matched| <= startIndex
    requires IsInt32(startIndex) && IsInt32(recordPerPage) && recordPerPage > 0
    ensures GroupPage(matched, startIndex, recordPerPage) == Ok([Page(|matched|, [])])
  {
  }

  /** A first page that starts in range is never empty. */
  lemma FirstPageNonEmpty<T>(matched: seq<T>, recordPerPage: int)
    requires matched != []
    requires IsInt32(recordPerPage) && recordPerPage > 0
    ensures GroupPage(matched, 0, recordPerPage).Ok?
    ensures GroupPage(matched, 0, recordPerPage).value[0].items != []
    ensures GroupPage(matched, 0, recordPerPage).value[0].items[0] == matched[0]
  {
  }
}
