/** The per-call capture log (`audioData`): the frames both relays push, and the
    finaliser's reading of it, a stable sort by timestamp followed by the
    concatenation of the audio strings. */
module CaptureLog {
  import opened Wrappers

  /** `'Customer'` for caller audio, `'AI'` for audio generated by the model. */
  datatype Role = Customer | AI

  /** One pushed record `{role, audio, callerId, timeStamp}`; the audio stays base64
      text and `timeStamp` is the `Date.now()` reading at the push. */
  datatype Frame = Frame(role: Role, audio: string, callerId: Option<string>, timeStamp: int)

  predicate SortedByTimestamp(s: seq<Frame>) {
    forall i, j :: 0 <= i < j < |s| ==> s[i].timeStamp <= s[j].timeStamp
  }

  /** Every frame of `s` is stamped no earlier than `t`. */
  predicate StampedFrom(t: int, s: seq<Frame>) {
    forall k :: 0 <= k < |s| ==> t <= s[k].timeStamp
  }

  /** The frames of `s` stamped `t`, in their order in `s`. A sort is stable
      exactly when it keeps each of these subsequences as it was. */
  function WithTimestamp(s: seq<Frame>, t: int): (r: seq<Frame>) {
    if s == [] then []
    else (if s[0].timeStamp == t then [s[0]] else []) + WithTimestamp(s[1..], t)
  }

  /** Places `x` before the first frame stamped no earlier than it. */
  function InsertByTimestamp(x: Frame, s: seq<Frame>): (r: seq<Frame>) {
    if s == [] then [x]
    else if x.timeStamp <= s[0].timeStamp then [x] + s
    else [s[0]] + InsertByTimestamp(x, s[1..])
  }

  /** `audioList.sort((a, b) => a.timeStamp - b.timeStamp)`: the stable sort that
      `Array.prototype.sort` has been required to be since ECMAScript 2019. */
  function SortByTimestamp(s: seq<Frame>): (r: seq<Frame>) {
    if s == [] then [] else InsertByTimestamp(s[0], SortByTimestamp(s[1..]))
  }

  /** `audioList.map(item => item.audio).join('')`. */
  function ConcatAudio(s: seq<Frame>): (r: string) {
    if s == [] then "" else s[0].audio + ConcatAudio(s[1..])
  }

  function TotalAudioLength(s: seq<Frame>): (n: nat) {
    if s == [] then 0 else |s[0].audio| + TotalAudioLength(s[1..])
  }

  /** The string `collateBase64Audio` returns for a log. */
  function Collate(s: seq<Frame>): (r: string) {
    ConcatAudio(SortByTimestamp(s))
  }

  lemma {:induction false} InsertStampedFrom(b: int, x: Frame, s: seq<Frame>)
    requires StampedFrom(b, s) && b <= x.timeStamp
    ensures StampedFrom(b, InsertByTimestamp(x, s))
  {
    if s != [] && x.timeStamp > s[0].timeStamp {
      InsertStampedFrom(b, x, s[1..]);
    }
  }

  lemma {:induction false} InsertSorted(x: Frame, s: seq<Frame>)
    requires SortedByTimestamp(s)
    ensures SortedByTimestamp(InsertByTimestamp(x, s))
  {
    if s != [] && x.timeStamp > s[0].timeStamp {
      InsertSorted(x, s[1..]);
      assert StampedFrom(s[0].timeStamp, s[1..]);
      InsertStampedFrom(s[0].timeStamp, x, s[1..]);
    }
  }

  lemma {:induction false} InsertPermutes(x: Frame, s: seq<Frame>)
    ensures multiset(InsertByTimestamp(x, s)) == multiset(s) + multiset{x}
  {
    if s != [] && x.timeStamp > s[0].timeStamp {
      InsertPermutes(x, s[1..]);
      assert s == [s[0]] + s[1..];
    }
  }

  lemma WithTimestampCons(x: Frame, s: seq<Frame>, t: int)
    ensures WithTimestamp([x] + s, t) == (if x.timeStamp == t then [x] else []) + WithTimestamp(s, t)
  {
    assert ([x] + s)[1..] == s;
  }

  lemma {:induction false} InsertWithTimestamp(x: Frame, s: seq<Frame>, t: int)
    ensures WithTimestamp(InsertByTimestamp(x, s), t)
         == (if x.timeStamp == t then [x] else []) + WithTimestamp(s, t)
  {
    if s == [] {
      WithTimestampCons(x, [], t);
      assert [x] + [] == [x];
    } else if x.timeStamp <= s[0].timeStamp {
      WithTimestampCons(x, s, t);
    } else {
      var r := InsertByTimestamp(x, s[1..]);
      InsertWithTimestamp(x, s[1..], t);
      WithTimestampCons(s[0], r, t);
      WithTimestampCons(s[0], s[1..], t);
      assert [s[0]] + s[1..] == s;
    }
  }

  lemma {:induction false} InsertAudioLength(x: Frame, s: seq<Frame>)
    ensures TotalAudioLength(InsertByTimestamp(x, s)) == |x.audio| + TotalAudioLength(s)
  {
    if s == [] {
      assert [x][1..] == [];
    } else if x.timeStamp <= s[0].timeStamp {
      assert ([x] + s)[1..] == s;
    } else {
      var r := InsertByTimestamp(x, s[1..]);
      InsertAudioLength(x, s[1..]);
      assert ([s[0]] + r)[1..] == r;
    }
  }

  /** The sorted log is ordered by timestamp. */
  lemma {:induction false} SortIsSorted(s: seq<Frame>)
    ensures SortedByTimestamp(SortByTimestamp(s))
  {
    if s != [] {
      SortIsSorted(s[1..]);
      InsertSorted(s[0], SortByTimestamp(s[1..]));
    }
  }

  /** The sorted log holds exactly the frames of the log: none lost, none duplicated. */
  lemma {:induction false} SortIsPermutation(s: seq<Frame>)
    ensures multiset(SortByTimestamp(s)) == multiset(s)
  {
    if s != [] {
      SortIsPermutation(s[1..]);
      InsertPermutes(s[0], SortByTimestamp(s[1..]));
      assert s == [s[0]] + s[1..];
    }
  }

  /** Stability: frames with equal timestamps keep their order of insertion. */
  lemma {:induction false} SortIsStable(s: seq<Frame>, t: int)
    ensures WithTimestamp(SortByTimestamp(s), t) == WithTimestamp(s, t)
  {
    if s != [] {
      SortIsStable(s[1..], t);
      InsertWithTimestamp(s[0], SortByTimestamp(s[1..]), t);
    }
  }

  lemma {:induction false} StampedFromHasNoEarlier(b: int, s: seq<Frame>, t: int)
    requires StampedFrom(b, s) && t < b
    ensures WithTimestamp(s, t) == []
  {
    if s != [] {
      StampedFromHasNoEarlier(b, s[1..], t);
    }
  }

  /** In a sorted non-empty log nothing is stamped before the first frame, and
      the first frame heads the frames that share its timestamp. */
  lemma FirstFrameIsEarliest(s: seq<Frame>)
    requires SortedByTimestamp(s) && s != []
    ensures forall t :: t < s[0].timeStamp ==> WithTimestamp(s, t) == []
    ensures WithTimestamp(s, s[0].timeStamp) == [s[0]] + WithTimestamp(s[1..], s[0].timeStamp)
  {
    forall t | t < s[0].timeStamp ensures WithTimestamp(s, t) == [] {
      assert StampedFrom(s[0].timeStamp, s[1..]);
      StampedFromHasNoEarlier(s[0].timeStamp, s[1..], t);
    }
  }

  lemma NonEmptyHasStamp(s: seq<Frame>)
    ensures s != [] ==> WithTimestamp(s, s[0].timeStamp) != []
  {
  }

  /** `a` and `b` list the same frames, in the same order, for every timestamp. */
  ghost predicate SameStamps(a: seq<Frame>, b: seq<Frame>) {
    forall t :: WithTimestamp(a, t) == WithTimestamp(b, t)
  }

  lemma SameStampsBothEmpty(a: seq<Frame>, b: seq<Frame>)
    requires SameStamps(a, b)
    ensures a == [] <==> b == []
  {
    NonEmptyHasStamp(a);
    NonEmptyHasStamp(b);
    assert a != [] ==> WithTimestamp(b, a[0].timeStamp) != [];
    assert b != [] ==> WithTimestamp(a, b[0].timeStamp) != [];
  }

  lemma SortedTail(s: seq<Frame>)
    requires SortedByTimestamp(s) && s != []
    ensures SortedByTimestamp(s[1..])
  {
    forall i, j | 0 <= i < j < |s| - 1 ensures s[1..][i].timeStamp <= s[1..][j].timeStamp {
      assert s[1..][i] == s[i + 1] && s[1..][j] == s[j + 1];
    }
  }

  /** Two sorted non-empty logs that agree on the frames of every timestamp
      start with the same frame. */
  lemma SortedHeadsAgree(a: seq<Frame>, b: seq<Frame>)
    requires SortedByTimestamp(a) && SortedByTimestamp(b) && a != [] && b != []
    requires SameStamps(a, b)
    ensures a[0] == b[0]
  {
    FirstFrameIsEarliest(a);
    FirstFrameIsEarliest(b);
    NonEmptyHasStamp(a);
    NonEmptyHasStamp(b);
    assert WithTimestamp(a, b[0].timeStamp) == WithTimestamp(b, b[0].timeStamp);
    assert WithTimestamp(a, a[0].timeStamp) == WithTimestamp(b, a[0].timeStamp);
    assert a[0].timeStamp == b[0].timeStamp;
    var m := a[0].timeStamp;
    assert WithTimestamp(a, m)[0] == a[0];
    assert WithTimestamp(b, m)[0] == b[0];
  }

  /** Dropping a common first frame keeps the logs in agreement on every timestamp. */
  lemma TailsAgree(a: seq<Frame>, b: seq<Frame>)
    requires a != [] && b != [] && a[0] == b[0]
    requires SameStamps(a, b)
    ensures SameStamps(a[1..], b[1..])
  {
    forall t ensures WithTimestamp(a[1..], t) == WithTimestamp(b[1..], t) {
      var h := if a[0].timeStamp == t then [a[0]] else [];
      assert WithTimestamp(a, t) == h + WithTimestamp(a[1..], t);
      assert WithTimestamp(b, t) == h + WithTimestamp(b[1..], t);
      assert (h + WithTimestamp(a[1..], t))[|h|..] == WithTimestamp(a[1..], t);
      assert (h + WithTimestamp(b[1..], t))[|h|..] == WithTimestamp(b[1..], t);
    }
  }

  /** Two logs sorted by timestamp that agree on the frames of every timestamp,
      in order, are the same log. */
  lemma {:induction false} StableSortedUnique(a: seq<Frame>, b: seq<Frame>)
    requires SortedByTimestamp(a) && SortedByTimestamp(b)
    requires SameStamps(a, b)
    ensures a == b
    decreases |a|
  {
    SameStampsBothEmpty(a, b);
    if a != [] {
      SortedHeadsAgree(a, b);
      TailsAgree(a, b);
      SortedTail(a);
      SortedTail(b);
      StableSortedUnique(a[1..], b[1..]);
      assert a == [a[0]] + a[1..];
      assert b == [b[0]] + b[1..];
    }
  }

  /** What ECMAScript requires of a stable sort by timestamp: `r` is ordered by
      timestamp, and for every timestamp it lists the frames of `s` stamped with
      it in their order in `s` (so `r` is also a permutation of `s`). */
  ghost predicate IsStableSortOf(r: seq<Frame>, s: seq<Frame>) {
    SortedByTimestamp(r) && SameStamps(r, s)
  }

  /** The sort is characterised by its specification: a log is the sorted log
      exactly when it is a stable sort of the original, so every conforming
      stable sort yields the same sequence. */
  lemma SortCharacterized(s: seq<Frame>, r: seq<Frame>)
    ensures r == SortByTimestamp(s) <==> IsStableSortOf(r, s)
  {
    SortIsSorted(s);
    forall t ensures WithTimestamp(SortByTimestamp(s), t) == WithTimestamp(s, t) {
      SortIsStable(s, t);
    }
    if IsStableSortOf(r, s) {
      StableSortedUnique(r, SortByTimestamp(s));
    }
  }

  /** Sorting a log already ordered by timestamp leaves it unchanged. */
  lemma SortOfSortedIsIdentity(s: seq<Frame>)
    requires SortedByTimestamp(s)
    ensures SortByTimestamp(s) == s
  {
    SortCharacterized(s, s);
  }

  /** Sorting twice is sorting once. */
  lemma SortIdempotent(s: seq<Frame>)
    ensures SortByTimestamp(SortByTimestamp(s)) == SortByTimestamp(s)
  {
    SortIsSorted(s);
    SortOfSortedIsIdentity(SortByTimestamp(s));
  }

  lemma {:induction false} ConcatAudioLength(s: seq<Frame>)
    ensures |ConcatAudio(s)| == TotalAudioLength(s)
  {
    if s != [] {
      ConcatAudioLength(s[1..]);
    }
  }

  lemma {:induction false} SortKeepsAudioLength(s: seq<Frame>)
    ensures TotalAudioLength(SortByTimestamp(s)) == TotalAudioLength(s)
  {
    if s != [] {
      SortKeepsAudioLength(s[1..]);
      InsertAudioLength(s[0], SortByTimestamp(s[1..]));
    }
  }

  /** The collated string is as long as all the logged audio together. */
  lemma CollateLength(s: seq<Frame>)
    ensures |Collate(s)| == TotalAudioLength(s)
  {
    ConcatAudioLength(SortByTimestamp(s));
    SortKeepsAudioLength(s);
  }

  /** An empty log collates to the empty string. */
  lemma CollateEmpty()
    ensures Collate([]) == ""
  {
  }

  /** Caller audio "AAAA" stamped 100 and AI audio "BBBB" stamped 50 collate to
      "BBBBAAAA": the order is the timestamps', not the pushes'. */
  lemma CollateScenario(id: Option<string>)
    ensures Collate([Frame(Customer, "AAAA", id, 100), Frame(AI, "BBBB", id, 50)]) == "BBBBAAAA"
  {
    var a := Frame(Customer, "AAAA", id, 100);
    var b := Frame(AI, "BBBB", id, 50);
    assert [a, b][1..] == [b] && [b][1..] == [] && [b, a][1..] == [a] && [a][1..] == [];
    assert SortByTimestamp([b]) == [b];
    assert InsertByTimestamp(a, [b]) == [b] + InsertByTimestamp(a, []) == [b, a];
    assert SortByTimestamp([a, b]) == [b, a];
    assert ConcatAudio([a]) == "AAAA";
    assert ConcatAudio([b, a]) == "BBBB" + ConcatAudio([a]);
    assert "BBBB" + "AAAA" == "BBBBAAAA";
  }

  /** Frames pushed at the same instant are collated in the order pushed. */
  lemma CollateTieKeepsPushOrder(x: Frame, y: Frame)
    requires x.timeStamp == y.timeStamp
    ensures Collate([x, y]) == x.audio + y.audio
  {
    assert [x, y][1..] == [y] && [y][1..] == [];
    assert SortByTimestamp([y]) == [y];
    assert SortByTimestamp([x, y]) == [x, y];
    assert ConcatAudio([x, y]) == x.audio + ConcatAudio([y]);
  }
}
