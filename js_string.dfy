/** The JavaScript string operations the bridge relies on: searching for a
    separator and `String.prototype.split` with a non-empty string separator. */
module JsString {
  import opened Wrappers

  /** `sep` occurs in `s` starting at index `i`. */
  predicate OccursAt(s: string, sep: string, i: nat) {
    i + |sep| <= |s| && s[i..i + |sep|] == sep
  }

  /** `s.includes(sep)`. */
  predicate Contains(s: string, sep: string) {
    exists i: nat | i <= |s| :: OccursAt(s, sep, i)
  }

  /** The first character of `sep` does not recur in it, so no proper suffix of
      `sep` is also a prefix of it: two occurrences of `sep` never overlap. */
  predicate HeadUnique(sep: string) {
    forall k :: 0 < k < |sep| ==> sep[k] != sep[0]
  }

  /** `s.indexOf(sep, from)`, with `None` for -1. */
  function IndexOfFrom(s: string, sep: string, from: nat): (r: Option<nat>)
    decreases |s| - from
    ensures r.Some? ==> from <= r.value && OccursAt(s, sep, r.value)
    ensures forall j: nat :: from <= j && (r.None? || j < r.value) ==> !OccursAt(s, sep, j)
  {
    if from + |sep| > |s| then None
    else if s[from..from + |sep|] == sep then Some(from)
    else IndexOfFrom(s, sep, from + 1)
  }

  function IndexOf(s: string, sep: string): (r: Option<nat>) {
    IndexOfFrom(s, sep, 0)
  }

  /** `s.split(sep)`: the pieces between successive non-overlapping occurrences
      of `sep`, searched from the left; always at least one piece. */
  function Split(s: string, sep: string): (parts: seq<string>)
    requires sep != []
    decreases |s|
    ensures |parts| >= 1
  {
    match IndexOf(s, sep)
    case None => [s]
    case Some(i) => [s[..i]] + Split(s[i + |sep|..], sep)
  }

  /** `parts.join(sep)`. */
  function Join(parts: seq<string>, sep: string): (r: string) {
    if |parts| == 0 then ""
    else if |parts| == 1 then parts[0]
    else parts[0] + sep + Join(parts[1..], sep)
  }

  /** `indexOf` is -1 exactly when the separator does not occur. */
  lemma IndexOfNoneIff(s: string, sep: string)
    ensures IndexOf(s, sep).None? <==> !Contains(s, sep)
  {
    if IndexOf(s, sep).Some? {
      assert OccursAt(s, sep, IndexOf(s, sep).value);
    }
  }

  /** A single-character separator occurs exactly when the character does. */
  lemma ContainsChar(s: string, c: char)
    ensures Contains(s, [c]) <==> c in s
  {
    if c in s {
      var i :| 0 <= i < |s| && s[i] == c;
      assert s[i..i + 1] == [c];
      assert OccursAt(s, [c], i);
    }
    if Contains(s, [c]) {
      var i: nat :| i <= |s| && OccursAt(s, [c], i);
      assert i + 1 <= |s| && s[i..i + 1] == [c];
      assert s[i..i + 1][0] == s[i];
    }
  }

  /** An occurrence inside a prefix is an occurrence in the whole string. */
  lemma OccursInPrefix(s: string, sep: string, i: nat, j: nat)
    requires i <= |s|
    ensures OccursAt(s[..i], sep, j) ==> OccursAt(s, sep, j) && j + |sep| <= i
  {
    if OccursAt(s[..i], sep, j) {
      assert s[..i][j..j + |sep|] == s[j..j + |sep|];
    }
  }

  /** The text before the first occurrence holds no occurrence. */
  lemma BeforeFirstLacksSeparator(s: string, sep: string, i: nat)
    requires sep != [] && i <= |s|
    requires forall j: nat :: j < i ==> !OccursAt(s, sep, j)
    ensures !Contains(s[..i], sep)
  {
    forall j: nat ensures OccursAt(s[..i], sep, j) ==> OccursAt(s, sep, j) && j + |sep| <= i {
      OccursInPrefix(s, sep, i, j);
    }
  }

  /** Splitting a string that holds no separator gives the string itself. */
  lemma SplitWithoutSeparator(s: string, sep: string)
    requires sep != [] && !Contains(s, sep)
    ensures Split(s, sep) == [s]
  {
    IndexOfNoneIff(s, sep);
  }

  lemma JoinCons(p: string, parts: seq<string>, sep: string)
    requires parts != []
    ensures Join([p] + parts, sep) == p + sep + Join(parts, sep)
  {
    assert ([p] + parts)[1..] == parts;
  }

  /** Joining the pieces with the separator gives back the string: `split` loses
      nothing but the separators. */
  lemma {:induction false} JoinSplit(s: string, sep: string)
    requires sep != []
    ensures Join(Split(s, sep), sep) == s
    decreases |s|
  {
    match IndexOf(s, sep)
    case None =>
      assert Split(s, sep) == [s];
    case Some(i) =>
      assert OccursAt(s, sep, i);
      var rest := s[i + |sep|..];
      var parts := Split(rest, sep);
      JoinSplit(rest, sep);
      assert Split(s, sep) == [s[..i]] + parts;
      JoinCons(s[..i], parts, sep);
      assert s[..i] + s[i..i + |sep|] + rest == s;
  }

  /** No piece of a split contains the separator. */
  lemma {:induction false} SplitPiecesLackSeparator(s: string, sep: string)
    requires sep != []
    ensures forall k :: 0 <= k < |Split(s, sep)| ==> !Contains(Split(s, sep)[k], sep)
    decreases |s|
  {
    match IndexOf(s, sep)
    case None =>
      IndexOfNoneIff(s, sep);
    case Some(i) =>
      var rest := s[i + |sep|..];
      SplitPiecesLackSeparator(rest, sep);
      BeforeFirstLacksSeparator(s, sep, i);
      assert Split(s, sep) == [s[..i]] + Split(rest, sep);
  }

  /** An occurrence of `sep` in `x + sep + y` that starts inside `x` lies in `x`,
      or else overlaps the inserted separator, which makes `sep[0]` recur in `sep`. */
  lemma EarlyOccurrence(x: string, sep: string, y: string, j: nat)
    requires j < |x|
    ensures OccursAt(x + sep + y, sep, j) ==>
              OccursAt(x, sep, j) || (|x| - j < |sep| && sep[|x| - j] == sep[0])
  {
    var s := x + sep + y;
    if OccursAt(s, sep, j) {
      if j + |sep| <= |x| {
        assert s[j..j + |sep|] == x[j..j + |sep|];
      } else {
        var k := |x| - j;
        assert s[j..j + |sep|][k] == s[|x|] == sep[0];
      }
    }
  }

  /** When `x` holds no separator and the separator cannot overlap itself, the
      first piece of `x + sep + y` is `x` and the rest is the split of `y`. */
  lemma SplitAtFirst(x: string, sep: string, y: string)
    requires sep != [] && HeadUnique(sep) && !Contains(x, sep)
    ensures Split(x + sep + y, sep) == [x] + Split(y, sep)
  {
    var s := x + sep + y;
    assert s[|x|..|x| + |sep|] == sep;
    assert OccursAt(s, sep, |x|);
    forall j: nat | j < |x| ensures !OccursAt(s, sep, j) {
      EarlyOccurrence(x, sep, y, j);
    }
    assert IndexOf(s, sep) == Some(|x|);
    assert s[..|x|] == x;
    assert s[|x| + |sep|..] == y;
  }
}
