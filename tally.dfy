/** The majority vote behind `getOverallSentiment`: a first reduction counts
    each label into an object whose keys keep their insertion order, a second
    reduction over that object's entries keeps the running best entry and
    replaces it only by one with a strictly greater count. Hence the winner is
    the label with the greatest count, ties going to the label seen first.
    `IsPlurality` states that rule independently of the reductions. */
module SentimentTally {

  /** Number of occurrences of `x` in `s`. */
  function Count(s: seq<string>, x: string): (n: nat)
    ensures n > 0 <==> x in s
  {
    if s == [] then 0
    else
      assert s == s[..|s| - 1] + [s[|s| - 1]];
      Count(s[..|s| - 1], x) + (if s[|s| - 1] == x then 1 else 0)
  }

  /** Position of the first occurrence of `x` in `s`. */
  function FirstIndex(s: seq<string>, x: string): (k: nat)
    requires x in s
    ensures k < |s| && s[k] == x
    ensures forall j :: 0 <= j < k ==> s[j] != x
  {
    assert s == s[..|s| - 1] + [s[|s| - 1]];
    if x in s[..|s| - 1] then FirstIndex(s[..|s| - 1], x) else |s| - 1
  }

  /** The distinct labels of `s` in order of first occurrence: the key order of
      the counting object. */
  function FirstSeen(s: seq<string>): (d: seq<string>)
    ensures forall x :: x in d <==> x in s
    ensures forall i, j :: 0 <= i < j < |d| ==> d[i] != d[j]
  {
    if s == [] then []
    else
      assert s == s[..|s| - 1] + [s[|s| - 1]];
      var d := FirstSeen(s[..|s| - 1]);
      if s[|s| - 1] in d then d else d + [s[|s| - 1]]
  }

  /** One key/value pair of the counting object. */
  datatype Entry = Entry(key: string, count: nat)

  /** `acc[x] = (acc[x] || 0) + 1`: an existing key keeps its place, a new key
      goes last. */
  function Bump(acc: seq<Entry>, x: string): (r: seq<Entry>)
    ensures r != []
  {
    if acc == [] then [Entry(x, 1)]
    else if acc[0].key == x then [Entry(x, acc[0].count + 1)] + acc[1..]
    else [acc[0]] + Bump(acc[1..], x)
  }

  /** The first reduction, one `Bump` per label in order. */
  function Tally(s: seq<string>): (t: seq<Entry>)
    ensures s != [] ==> t != []
  {
    if s == [] then [] else Bump(Tally(s[..|s| - 1]), s[|s| - 1])
  }

  /** The second reduction: the position of the entry it ends with. An entry
      replaces the running best only when its count is strictly greater. */
  function Winner(t: seq<Entry>): (w: nat)
    requires t != []
    ensures w < |t|
    ensures forall i :: 0 <= i < |t| ==> t[i].count <= t[w].count
    ensures forall i :: 0 <= i < w ==> t[i].count < t[w].count
  {
    if |t| == 1 then 0
    else
      var best := Winner(t[..|t| - 1]);
      if t[|t| - 1].count > t[best].count then |t| - 1 else best
  }

  /** The label the two reductions elect. */
  function PluralityLabel(s: seq<string>): string
    requires s != []
  {
    var t := Tally(s);
    t[Winner(t)].key
  }

  /** The election rule stated directly: `w` occurs in `s`, no label occurs
      more often, and every label occurring before `w` first does occurs
      strictly less often. */
  ghost predicate IsPlurality(s: seq<string>, w: string) {
    && w in s
    && (forall k :: 0 <= k < |s| ==> Count(s, s[k]) <= Count(s, w))
    && (forall k :: 0 <= k < FirstIndex(s, w) ==> Count(s, s[k]) < Count(s, w))
  }

  lemma {:induction false} BumpExisting(acc: seq<Entry>, x: string, i: nat)
    requires i < |acc| && acc[i].key == x
    requires forall j :: 0 <= j < i ==> acc[j].key != x
    ensures Bump(acc, x) == acc[i := Entry(x, acc[i].count + 1)]
  {
    if i > 0 {
      BumpExisting(acc[1..], x, i - 1);
    }
  }

  lemma {:induction false} BumpNew(acc: seq<Entry>, x: string)
    requires forall j :: 0 <= j < |acc| ==> acc[j].key != x
    ensures Bump(acc, x) == acc + [Entry(x, 1)]
  {
    if acc != [] {
      BumpNew(acc[1..], x);
    }
  }

  /** The counting object holds every distinct label once, in order of first
      occurrence, with its number of occurrences. */
  lemma {:induction false} TallyCounts(s: seq<string>)
    ensures |Tally(s)| == |FirstSeen(s)|
    ensures forall i :: 0 <= i < |Tally(s)| ==> Tally(s)[i] == Entry(FirstSeen(s)[i], Count(s, FirstSeen(s)[i]))
  {
    if s != [] {
      var p, x := s[..|s| - 1], s[|s| - 1];
      TallyCounts(p);
      var acc, d := Tally(p), FirstSeen(p);
      if x in d {
        var i :| 0 <= i < |d| && d[i] == x;
        BumpExisting(acc, x, i);
      } else {
        BumpNew(acc, x);
      }
    }
  }

  /** Keys that come earlier in the counting object were seen earlier. */
  lemma {:induction false} FirstSeenOrder(s: seq<string>, i: nat, j: nat)
    requires i < j < |FirstSeen(s)|
    ensures FirstIndex(s, FirstSeen(s)[i]) < FirstIndex(s, FirstSeen(s)[j])
  {
    var p, x := s[..|s| - 1], s[|s| - 1];
    var d := FirstSeen(p);
    assert s == p + [x];
    if j < |d| {
      FirstSeenOrder(p, i, j);
    }
  }

  /** The two reductions elect the label `IsPlurality` describes. */
  lemma {:induction false} PluralityLabelIsPlurality(s: seq<string>)
    requires s != []
    ensures IsPlurality(s, PluralityLabel(s))
  {
    var t, d := Tally(s), FirstSeen(s);
    TallyCounts(s);
    var j := Winner(t);
    var w := d[j];
    forall k | 0 <= k < |s|
      ensures Count(s, s[k]) <= Count(s, w)
    {
      assert s[k] in d;
      var i :| 0 <= i < |d| && d[i] == s[k];
      assert t[i].count <= t[j].count;
    }
    forall k | 0 <= k < FirstIndex(s, w)
      ensures Count(s, s[k]) < Count(s, w)
    {
      assert s[k] in d;
      var i :| 0 <= i < |d| && d[i] == s[k];
      assert !(j < i) by {
        if j < i {
          FirstSeenOrder(s, j, i);
        }
      }
      assert t[i].count < t[j].count;
    }
  }

  /** At most one label satisfies the election rule. */
  lemma PluralityUnique(s: seq<string>, a: string, b: string)
    requires IsPlurality(s, a) && IsPlurality(s, b)
    ensures a == b
  {
  }
}
