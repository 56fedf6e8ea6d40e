/**
 * The pure parts of the client (frontend/src/App.jsx): the login name check
 * of `LoginPage`, and the total and the ordering of `ResultsPage`.
 *
 * The `votes` object is the list of its entries in insertion order, as
 * `Object.entries` presents it; none of what is proved here needs its keys
 * to be distinct.
 */
module ClientView {
  import opened Maybe

  /** One entry of the `votes` object. */
  datatype Entry = Entry(option: string, count: int)

  ghost predicate NonNegativeCounts(entries: seq<Entry>)
  {
    forall i :: 0 <= i < |entries| ==> entries[i].count >= 0
  }

  /**
   * The code points `String.prototype.trim` removes: the ECMAScript
   * WhiteSpace (TAB, VT, FF, ZWNBSP and the Unicode space separators) and
   * LineTerminator (LF, CR, LS, PS) characters.
   */
  predicate IsWhiteSpace(c: char)
  {
    var n := c as int;
    || n == 0x09 || n == 0x0A || n == 0x0B || n == 0x0C || n == 0x0D
    || n == 0x20 || n == 0xA0 || n == 0x1680 || (0x2000 <= n <= 0x200A)
    || n == 0x2028 || n == 0x2029 || n == 0x202F || n == 0x205F || n == 0x3000 || n == 0xFEFF
  }

  /** The first position at or after `i` that does not hold white space, or `|s|`. */
  function SkipSpace(s: string, i: nat): (k: nat)
    requires i <= |s|
    ensures i <= k <= |s|
    ensures forall j :: i <= j < k ==> IsWhiteSpace(s[j])
    ensures k < |s| ==> !IsWhiteSpace(s[k])
    decreases |s| - i
  {
    if i < |s| && IsWhiteSpace(s[i]) then SkipSpace(s, i + 1) else i
  }

  /** The end of the white space run that finishes at `j`, stepping back no further than `lo`. */
  function SkipSpaceBack(s: string, lo: nat, j: nat): (k: nat)
    requires lo <= j <= |s|
    ensures lo <= k <= j
    ensures forall m :: k <= m < j ==> IsWhiteSpace(s[m])
    ensures k > lo ==> !IsWhiteSpace(s[k - 1])
    decreases j
  {
    if j > lo && IsWhiteSpace(s[j - 1]) then SkipSpaceBack(s, lo, j - 1) else j
  }

  /**
   * `String.prototype.trim`: the string without its leading and trailing
   * white space. What is left is empty exactly when the string is all white
   * space, and otherwise starts and ends with something else.
   */
  function Trim(s: string): (r: string)
    ensures |r| <= |s|
    ensures r == [] <==> forall i :: 0 <= i < |s| ==> IsWhiteSpace(s[i])
    ensures r != [] ==> !IsWhiteSpace(r[0]) && !IsWhiteSpace(r[|r| - 1])
  {
    var start := SkipSpace(s, 0);
    s[start..SkipSpaceBack(s, start, |s|)]
  }

  /**
   * Trimming strips exactly the white space at both ends: any split of `s`
   * into a white-space prefix, a middle that is empty or starts and ends
   * with something else, and a white-space suffix has that middle as its trim.
   */
  lemma TrimStripsEnds(s: string, a: nat, b: nat)
    requires a <= b <= |s|
    requires forall i :: 0 <= i < a ==> IsWhiteSpace(s[i])
    requires forall i :: b <= i < |s| ==> IsWhiteSpace(s[i])
    requires a < b ==> !IsWhiteSpace(s[a]) && !IsWhiteSpace(s[b - 1])
    ensures Trim(s) == s[a..b]
  {
    var start := SkipSpace(s, 0);
    if a < b {
      assert start == a;
      assert SkipSpaceBack(s, start, |s|) == b;
    }
  }

  /** A trimmed string is its own trim. */
  lemma TrimIdempotent(s: string)
    ensures Trim(Trim(s)) == Trim(s)
  {
    var r := Trim(s);
    TrimStripsEnds(r, 0, |r|);
  }

  /**
   * `LoginPage.handleSubmit`: the name is handed on, trimmed, only when
   * something other than white space was typed.
   */
  function LoginName(input: string): (name: Option<string>)
    ensures name.Some? <==> exists i :: 0 <= i < |input| && !IsWhiteSpace(input[i])
    ensures name.Some? ==> name.value == Trim(input) && name.value != [] && Trim(name.value) == name.value
  {
    TrimIdempotent(input);
    if Trim(input) != [] then Some(Trim(input)) else None
  }

  /** `Object.values(votes).reduce((sum, count) => sum + count, 0)`. */
  function TotalVotes(entries: seq<Entry>): (total: int)
    ensures NonNegativeCounts(entries) ==> total >= 0
  {
    if entries == [] then 0 else TotalVotes(entries[..|entries| - 1]) + entries[|entries| - 1].count
  }

  lemma {:induction false} TotalVotesAppend(a: seq<Entry>, b: seq<Entry>)
    ensures TotalVotes(a + b) == TotalVotes(a) + TotalVotes(b)
  {
    if b != [] {
      assert (a + b)[..|a + b| - 1] == a + b[..|b| - 1];
      TotalVotesAppend(a, b[..|b| - 1]);
    } else {
      assert a + b == a;
    }
  }

  /** Adding an entry at the end adds its count. */
  lemma TotalVotesSnoc(front: seq<Entry>, x: Entry)
    ensures TotalVotes(front + [x]) == TotalVotes(front) + x.count
  {
    var withX := front + [x];
    assert withX[..|withX| - 1] == front;
  }

  /** A sequence is what comes before position `k`, the entry there, and what comes after. */
  lemma SplitAt(b: seq<Entry>, k: nat)
    requires k < |b|
    ensures b == (b[..k] + [b[k]]) + b[k + 1..]
  {
  }

  /** Taking out the entry at `k` takes its count off the total. */
  lemma TotalVotesRemove(b: seq<Entry>, k: nat)
    requires k < |b|
    ensures TotalVotes(b) == TotalVotes(b[..k] + b[k + 1..]) + b[k].count
  {
    var front, x, back := b[..k], b[k], b[k + 1..];
    SplitAt(b, k);
    TotalVotesAppend(front + [x], back);
    TotalVotesSnoc(front, x);
    TotalVotesAppend(front, back);
  }

  /** Taking out the entry at `k` takes one copy of it out of the multiset. */
  lemma MultisetRemove(b: seq<Entry>, k: nat)
    requires k < |b|
    ensures multiset(b[..k] + b[k + 1..]) == multiset(b) - multiset{b[k]}
  {
    SplitAt(b, k);
  }

  /** The total does not depend on the order of the entries. */
  lemma {:induction false} TotalVotesPermutation(a: seq<Entry>, b: seq<Entry>)
    requires multiset(a) == multiset(b)
    ensures TotalVotes(a) == TotalVotes(b)
    decreases |a|
  {
    if a == [] {
      assert |b| == |multiset(b)| == 0;
    } else {
      var last := a[|a| - 1];
      assert last in multiset(a);
      var k :| 0 <= k < |b| && b[k] == last;
      MultisetRemove(a, |a| - 1);
      MultisetRemove(b, k);
      assert a[..|a| - 1] + a[|a|..] == a[..|a| - 1];
      TotalVotesPermutation(a[..|a| - 1], b[..k] + b[k + 1..]);
      TotalVotesRemove(b, k);
    }
  }

  /** With no negative counts, no single count exceeds the total. */
  lemma {:induction false} CountWithinTotal(entries: seq<Entry>, i: nat)
    requires NonNegativeCounts(entries) && i < |entries|
    ensures 0 <= entries[i].count <= TotalVotes(entries)
  {
    var init := entries[..|entries| - 1];
    if i < |entries| - 1 {
      CountWithinTotal(init, i);
    } else {
      assert NonNegativeCounts(init);
    }
  }

  /** Highest count first. */
  ghost predicate ByCountDescending(entries: seq<Entry>)
  {
    forall i, j :: 0 <= i < j < |entries| ==> entries[i].count >= entries[j].count
  }

  /** Places `e` after every entry whose count is at least its own. */
  function InsertByCount(sorted: seq<Entry>, e: Entry): (r: seq<Entry>)
    ensures |r| == |sorted| + 1
  {
    if sorted == [] || sorted[0].count < e.count then [e] + sorted
    else [sorted[0]] + InsertByCount(sorted[1..], e)
  }

  /** Insertion adds `e` and loses nothing. */
  lemma {:induction false} InsertByCountPermutes(sorted: seq<Entry>, e: Entry)
    ensures multiset(InsertByCount(sorted, e)) == multiset(sorted) + multiset{e}
  {
    if sorted != [] && sorted[0].count >= e.count {
      InsertByCountPermutes(sorted[1..], e);
      assert sorted == [sorted[0]] + sorted[1..];
    }
  }

  /** Inserting into a list ordered by count keeps it ordered. */
  lemma {:induction false} InsertByCountSorted(sorted: seq<Entry>, e: Entry)
    requires ByCountDescending(sorted)
    ensures ByCountDescending(InsertByCount(sorted, e))
  {
    if sorted != [] && sorted[0].count >= e.count {
      var rest := InsertByCount(sorted[1..], e);
      InsertByCountSorted(sorted[1..], e);
      var r := [sorted[0]] + rest;
      forall i, j | 0 <= i < j < |r| ensures r[i].count >= r[j].count {
        if i == 0 && j > 1 {
          assert r[j] == rest[j - 1] && r[1] == rest[0];
        }
      }
    }
  }

  /**
   * `Object.entries(votes).sort((a, b) => b[1] - a[1])`: the engine's sort
   * is stable, so this is an insertion sort by count, highest first.
   */
  function SortByCount(entries: seq<Entry>): (r: seq<Entry>)
    ensures ByCountDescending(r)
    ensures multiset(r) == multiset(entries)
  {
    if entries == [] then []
    else
      var init, last := entries[..|entries| - 1], entries[|entries| - 1];
      assert entries == init + [last];
      InsertByCountSorted(SortByCount(init), last);
      InsertByCountPermutes(SortByCount(init), last);
      InsertByCount(SortByCount(init), last)
  }

  /** `[e]` when `e` has count `c`, otherwise nothing. */
  function IfCount(e: Entry, c: int): seq<Entry>
  {
    if e.count == c then [e] else []
  }

  /** The entries whose count is `c`, in their order. */
  function WithCount(entries: seq<Entry>, c: int): seq<Entry>
  {
    if entries == [] then [] else IfCount(entries[0], c) + WithCount(entries[1..], c)
  }

  lemma {:induction false} WithCountAppend(a: seq<Entry>, b: seq<Entry>, c: int)
    ensures WithCount(a + b, c) == WithCount(a, c) + WithCount(b, c)
  {
    if a == [] {
      assert a + b == b;
    } else {
      assert (a + b)[1..] == a[1..] + b;
      WithCountAppend(a[1..], b, c);
    }
  }

  lemma {:induction false} WithCountNone(entries: seq<Entry>, c: int)
    requires forall i :: 0 <= i < |entries| ==> entries[i].count < c
    ensures WithCount(entries, c) == []
  {
    if entries != [] {
      WithCountNone(entries[1..], c);
    }
  }

  /** Taking the entries of one count distributes over putting an entry in front. */
  lemma WithCountFront(e: Entry, rest: seq<Entry>, c: int)
    ensures WithCount([e] + rest, c) == IfCount(e, c) + WithCount(rest, c)
  {
    assert ([e] + rest)[1..] == rest;
  }

  /** Insertion puts `e` after every entry of its own count. */
  lemma {:induction false} InsertByCountStable(sorted: seq<Entry>, e: Entry, c: int)
    requires ByCountDescending(sorted)
    ensures WithCount(InsertByCount(sorted, e), c) == WithCount(sorted, c) + IfCount(e, c)
  {
    if sorted == [] {
      WithCountFront(e, [], c);
    } else if sorted[0].count < e.count {
      WithCountFront(e, sorted, c);
      if e.count == c {
        forall i | 0 <= i < |sorted| ensures sorted[i].count < c {
          if i > 0 {
            assert sorted[0].count >= sorted[i].count;
          }
        }
        WithCountNone(sorted, c);
      }
    } else {
      var rest := InsertByCount(sorted[1..], e);
      InsertByCountStable(sorted[1..], e, c);
      WithCountFront(sorted[0], rest, c);
      WithCountFront(sorted[0], sorted[1..], c);
      assert [sorted[0]] + sorted[1..] == sorted;
    }
  }

  /** Entries with equal counts keep their relative order: the sort is stable. */
  lemma {:induction false} SortByCountStable(entries: seq<Entry>, c: int)
    ensures WithCount(SortByCount(entries), c) == WithCount(entries, c)
  {
    if entries != [] {
      var init, last := entries[..|entries| - 1], entries[|entries| - 1];
      assert entries == init + [last];
      var sortedInit := SortByCount(init);
      assert SortByCount(entries) == InsertByCount(sortedInit, last);
      SortByCountStable(init, c);
      InsertByCountStable(sortedInit, last, c);
      WithCountAppend(init, [last], c);
      assert WithCount([last], c) == IfCount(last, c) + WithCount([], c);
    }
  }

  /** Sorting for display changes neither the total nor the set of options. */
  lemma {:induction false} SortKeepsTotal(entries: seq<Entry>)
    ensures TotalVotes(SortByCount(entries)) == TotalVotes(entries)
    ensures forall e :: e in SortByCount(entries) <==> e in entries
  {
    var r := SortByCount(entries);
    TotalVotesPermutation(r, entries);
    forall e ensures e in r <==> e in entries {
      assert e in r <==> e in multiset(r);
      assert e in entries <==> e in multiset(entries);
    }
  }

  /** `Object.keys(votes)`: the options offered as vote buttons, in order. */
  function OptionKeys(entries: seq<Entry>): (keys: seq<string>)
    ensures |keys| == |entries|
    ensures forall i :: 0 <= i < |entries| ==> keys[i] == entries[i].option
  {
    if entries == [] then [] else [entries[0].option] + OptionKeys(entries[1..])
  }
}
