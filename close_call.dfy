/**
 The close-call rule: a label-to-score distribution is a close call when it
 has at least two labels and the gap between its two best scores is at most
 the threshold times 100.
 */
module CloseCall {
  import opened FaceData

  /** The analyser's default `close_call_threshold`, a fraction: the gap limit is 6 points. */
  const DefaultThreshold: real := 0.06

  /** Scores never increase from left to right. */
  predicate SortedDesc(s: seq<Entry>) {
    forall i, j :: 0 <= i < j < |s| ==> s[i].score >= s[j].score
  }

  /**
   Inserts `e` in front of the first entry whose score does not exceed its
   own, so that `e` precedes every later entry with the same score.
   */
  function InsertDesc(e: Entry, t: seq<Entry>): (r: seq<Entry>)
    ensures |r| == |t| + 1
  {
    if t == [] || t[0].score <= e.score then [e] + t
    else [t[0]] + InsertDesc(e, t[1..])
  }

  /** Insertion adds exactly `e` to the multiset of entries. */
  lemma {:induction false} InsertDescPermutes(e: Entry, t: seq<Entry>)
    ensures multiset(InsertDesc(e, t)) == multiset(t) + multiset{e}
  {
    if t != [] && t[0].score > e.score {
      InsertDescPermutes(e, t[1..]);
      assert t == [t[0]] + t[1..];
    }
  }

  /** Insertion keeps every score under a bound that `e` and all of `t` are under. */
  lemma {:induction false} InsertDescBounded(e: Entry, t: seq<Entry>, bound: real)
    requires e.score <= bound
    requires forall i :: 0 <= i < |t| ==> t[i].score <= bound
    ensures forall k :: 0 <= k < |InsertDesc(e, t)| ==> InsertDesc(e, t)[k].score <= bound
  {
    if t != [] && t[0].score > e.score {
      InsertDescBounded(e, t[1..], bound);
    }
  }

  /** Inserting into a sorted list keeps it sorted. */
  lemma {:induction false} InsertDescSorted(e: Entry, t: seq<Entry>)
    requires SortedDesc(t)
    ensures SortedDesc(InsertDesc(e, t))
  {
    if t != [] && t[0].score > e.score {
      InsertDescSorted(e, t[1..]);
      InsertDescBounded(e, t[1..], t[0].score);
      assert InsertDesc(e, t) == [t[0]] + InsertDesc(e, t[1..]);
    }
  }

  /**
   The items sorted by score, highest first, entries with equal scores in
   their original order (the stable `sorted(..., reverse=True)`).
   */
  function SortDesc(s: seq<Entry>): (r: seq<Entry>)
    ensures |r| == |s|
    ensures SortedDesc(r)
  {
    if s == [] then []
    else
      InsertDescSorted(s[0], SortDesc(s[1..]));
      InsertDesc(s[0], SortDesc(s[1..]))
  }

  /** Sorting only reorders: the result holds the same entries, each as often. */
  lemma {:induction false} SortDescPermutes(s: seq<Entry>)
    ensures multiset(SortDesc(s)) == multiset(s)
  {
    if s != [] {
      SortDescPermutes(s[1..]);
      InsertDescPermutes(s[0], SortDesc(s[1..]));
      assert s == [s[0]] + s[1..];
    }
  }

  /** The index of the first entry with the highest score. */
  function ArgMax(s: seq<Entry>): (k: nat)
    requires |s| > 0
    ensures k < |s|
    ensures forall i :: 0 <= i < |s| ==> s[i].score <= s[k].score
    ensures forall i :: 0 <= i < k ==> s[i].score < s[k].score
  {
    if |s| == 1 then 0
    else
      var k := ArgMax(s[1..]);
      if s[0].score >= s[1..][k].score then 0 else k + 1
  }

  /** `s` without its entry at index `k`. */
  function RemoveAt(s: seq<Entry>, k: nat): (r: seq<Entry>)
    requires k < |s|
    ensures |r| == |s| - 1
    ensures forall i :: 0 <= i < k ==> r[i] == s[i]
    ensures forall i :: k <= i < |r| ==> r[i] == s[i + 1]
  {
    s[..k] + s[k + 1..]
  }

  /** The position in `s` of the best entry of `RemoveAt(s, k)`. */
  function MaxIndexExcept(s: seq<Entry>, k: nat): nat
    requires k < |s| && |s| >= 2
  {
    var m := ArgMax(RemoveAt(s, k));
    if m < k then m else m + 1
  }

  /**
   The best entry once entry `k` is removed is the first entry of highest
   score among all entries other than `k`.
   */
  lemma MaxIndexExceptIsMax(s: seq<Entry>, k: nat)
    requires k < |s| && |s| >= 2
    ensures var j := MaxIndexExcept(s, k);
            && j < |s| && j != k
            && s[j] == RemoveAt(s, k)[ArgMax(RemoveAt(s, k))]
            && (forall i :: 0 <= i < |s| && i != k ==> s[i].score <= s[j].score)
            && (forall i :: 0 <= i < j && i != k ==> s[i].score < s[j].score)
  {
    var rest := RemoveAt(s, k);
    var m := ArgMax(rest);
    var j := MaxIndexExcept(s, k);
    assert s[j] == rest[m];
    forall i | 0 <= i < |s| && i != k
      ensures s[i].score <= s[j].score
      ensures i < j ==> s[i].score < s[j].score
    {
      if i < k {
        assert s[i] == rest[i];
      } else {
        assert s[i] == rest[i - 1];
      }
    }
  }

  /**
   The index of the runner-up: the first entry with the highest score among
   all entries except the leader `ArgMax(s)`.
   */
  function SecondIndex(s: seq<Entry>): (j: nat)
    requires |s| >= 2
    ensures j < |s| && j != ArgMax(s)
    ensures forall i :: 0 <= i < |s| && i != ArgMax(s) ==> s[i].score <= s[j].score
    ensures forall i :: 0 <= i < j && i != ArgMax(s) ==> s[i].score < s[j].score
  {
    MaxIndexExceptIsMax(s, ArgMax(s));
    MaxIndexExcept(s, ArgMax(s))
  }

  /** Sorting step when the first entry scores at least as high as the head of the sorted rest. */
  lemma SortDescLeaderFirst(s: seq<Entry>)
    requires |s| >= 2
    requires SortDesc(s[1..])[0].score <= s[0].score
    ensures SortDesc(s) == [s[0]] + SortDesc(s[1..])
  {
  }

  /** Sorting step when entry `k` of the rest leads the sorted rest and beats the first entry. */
  lemma SortDescLeaderLater(s: seq<Entry>, k: nat)
    requires 1 <= k < |s|
    requires SortDesc(s[1..]) == [s[k]] + SortDesc(RemoveAt(s[1..], k - 1))
    requires s[0].score < s[k].score
    ensures SortDesc(s) == [s[k]] + SortDesc(RemoveAt(s, k))
  {
    var rest := RemoveAt(s[1..], k - 1);
    var inner := SortDesc(rest);
    var removed := RemoveAt(s, k);
    SortDescCons(s);
    InsertDescBehind(s[0], s[k], inner);
    RemoveAtCons(s, k);
    SortDescCons(removed);
    assert removed[1..] == rest;
  }

  /** Removing a later entry keeps the first one in front. */
  lemma RemoveAtCons(s: seq<Entry>, k: nat)
    requires 1 <= k < |s|
    ensures RemoveAt(s, k) == [s[0]] + RemoveAt(s[1..], k - 1)
  {
    assert s[..k] == [s[0]] + s[1..][..k - 1];
    assert s[k + 1..] == s[1..][k..];
  }

  /** Sorting a non-empty list inserts its first entry into the sorted rest. */
  lemma SortDescCons(s: seq<Entry>)
    requires s != []
    ensures SortDesc(s) == InsertDesc(s[0], SortDesc(s[1..]))
  {
  }

  /** An entry inserted behind a strictly better head stays behind it. */
  lemma InsertDescBehind(e: Entry, head: Entry, t: seq<Entry>)
    requires head.score > e.score
    ensures InsertDesc(e, [head] + t) == [head] + InsertDesc(e, t)
  {
    assert ([head] + t)[1..] == t;
  }

  /**
   Stability of the sort: the sorted list starts with the first entry of
   highest score, followed by the sorted list of the remaining entries.
   */
  lemma {:induction false} SortDescHead(s: seq<Entry>)
    requires |s| > 0
    ensures SortDesc(s) == [s[ArgMax(s)]] + SortDesc(RemoveAt(s, ArgMax(s)))
  {
    var k := ArgMax(s);
    if |s| == 1 {
      assert RemoveAt(s, k) == [];
    } else {
      var tail := s[1..];
      var kt := ArgMax(tail);
      SortDescHead(tail);
      if s[0].score >= tail[kt].score {
        assert k == 0;
        assert RemoveAt(s, 0) == tail;
        SortDescLeaderFirst(s);
      } else {
        assert k == kt + 1;
        SortDescLeaderLater(s, k);
      }
    }
  }

  /** The runner-up is the head of the sorted list of the entries other than the leader. */
  lemma SortDescSecond(s: seq<Entry>)
    requires |s| >= 2
    ensures SortDesc(s)[0] == s[ArgMax(s)]
    ensures SortDesc(s)[1] == s[SecondIndex(s)]
  {
    var k := ArgMax(s);
    var rest := RemoveAt(s, k);
    SortDescHead(s);
    SortDescHead(rest);
    MaxIndexExceptIsMax(s, k);
  }

  /**
   The outcome of `check_close_call`: `(False, None)`, or `(True, detail)`
   with the two best entries and their score difference.
   */
  datatype Verdict =
    | NotClose
    | Close(first: Entry, second: Entry, difference: real)

  /** The gap between the best score and the runner-up's score. */
  function TopGap(s: seq<Entry>): (gap: real)
    requires |s| >= 2
    ensures gap >= 0.0
  {
    s[ArgMax(s)].score - s[SecondIndex(s)].score
  }

  /**
   `check_close_call`: sort the items by score (stable, highest first), take
   the first two and report a close call when their difference is at most
   `threshold * 100`.
   */
  function CheckCloseCall(predictions: Distribution, threshold: real): (v: Verdict)
    ensures |predictions| < 2 ==> v == NotClose
    ensures |predictions| >= 2 ==> (v.Close? <==> TopGap(predictions) <= threshold * 100.0)
    ensures v.Close? ==>
      && |predictions| >= 2
      && v.first == predictions[ArgMax(predictions)]
      && v.second == predictions[SecondIndex(predictions)]
      && v.difference == v.first.score - v.second.score
      && 0.0 <= v.difference <= threshold * 100.0
  {
    if |predictions| < 2 then NotClose
    else
      var sorted := SortDesc(predictions);
      SortDescSecond(predictions);
      var first := sorted[0];
      var second := sorted[1];
      var difference := first.score - second.score;
      if difference <= threshold * 100.0 then Close(first, second, difference)
      else NotClose
  }

  /** The close call's detail names two different items of the distribution. */
  lemma CloseCallPicksTwoEntries(predictions: Distribution, threshold: real)
    requires CheckCloseCall(predictions, threshold).Close?
    ensures exists i, j ::
      && 0 <= i < |predictions| && 0 <= j < |predictions| && i != j
      && predictions[i] == CheckCloseCall(predictions, threshold).first
      && predictions[j] == CheckCloseCall(predictions, threshold).second
  {
    var i, j := ArgMax(predictions), SecondIndex(predictions);
    assert predictions[i] == CheckCloseCall(predictions, threshold).first;
  }

  /** The worked example: White 52 against Black 48 at the default threshold is a close call with gap 4. */
  lemma WhiteBlackExample()
    ensures CheckCloseCall([Entry("White", 52.0), Entry("Black", 48.0)], DefaultThreshold)
      == Close(Entry("White", 52.0), Entry("Black", 48.0), 4.0)
  {
    var p := [Entry("White", 52.0), Entry("Black", 48.0)];
    assert ArgMax(p[1..]) == 0;
    assert ArgMax(p) == 0;
    assert SecondIndex(p) == 1;
  }
}
