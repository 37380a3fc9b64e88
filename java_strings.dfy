/**
 * The JDK and commons-lang string operations the record template relies on,
 * written out character by character:
 *   - String.split("(?<!\\\\),")  (split on commas not right after a backslash),
 *   - String.split(":", 2)        (cut at the first colon),
 *   - String.replace("$", rep)    (replace every dollar sign),
 *   - StringUtils.join(list, ",").
 */
module JavaStrings {
  import opened Wrappers

  /** The number of characters in all the parts together. */
  function TotalLength(parts: seq<string>): nat
  {
    if |parts| == 0 then 0 else |parts[0]| + TotalLength(parts[1..])
  }

  /** StringUtils.join(parts, ","): the parts with one comma between neighbours. */
  function JoinComma(parts: seq<string>): (r: string)
    ensures |parts| > 0 ==> |r| == TotalLength(parts) + |parts| - 1
  {
    if |parts| == 0 then ""
    else if |parts| == 1 then parts[0]
    else parts[0] + "," + JoinComma(parts[1..])
  }

  /** Position i of s holds a comma the pattern `(?<!\\),` matches: it is not right after a backslash. */
  predicate IsSeparator(s: string, i: int)
    requires 0 <= i < |s|
  {
    s[i] == ',' && (i == 0 || s[i - 1] != '\\')
  }

  predicate NoSeparator(s: string) {
    forall i :: 0 <= i < |s| ==> !IsSeparator(s, i)
  }

  /** A piece that may stand before a separating comma: a backslash at its end would escape that comma. */
  predicate EndsOpen(s: string) {
    s == [] || s[|s| - 1] != '\\'
  }

  /** The first separating comma at or after `from`, or |s| when there is none. */
  function NextSeparator(s: string, from: nat): (i: nat)
    requires from <= |s|
    ensures from <= i <= |s|
    ensures i < |s| ==> IsSeparator(s, i)
    ensures forall j :: from <= j < i ==> !IsSeparator(s, j)
    decreases |s| - from
  {
    if from == |s| || IsSeparator(s, from) then from else NextSeparator(s, from + 1)
  }

  /** The text between separating commas, every empty piece kept (the matches of the split pattern, before Java trims). */
  function Pieces(s: string): (ps: seq<string>)
    ensures |ps| >= 1
    decreases |s|
  {
    var i := NextSeparator(s, 0);
    if i == |s| then [s] else [s[..i]] + Pieces(s[i + 1..])
  }

  /** String.split with no limit drops the empty pieces at the end. */
  function DropTrailingEmpty(ps: seq<string>): (r: seq<string>)
    ensures |r| <= |ps| && r == ps[..|r|]
    ensures |r| > 0 ==> r[|r| - 1] != ""
    ensures forall k :: |r| <= k < |ps| ==> ps[k] == ""
  {
    if |ps| == 0 || ps[|ps| - 1] != "" then ps else DropTrailingEmpty(ps[..|ps| - 1])
  }

  /**
   * s.split("(?<!\\\\),"): when no comma separates, the whole string is the
   * only piece; otherwise the pieces, without the empty ones at the end.
   */
  function SplitEntries(s: string): (r: seq<string>)
    ensures |r| <= |Pieces(s)| && r == Pieces(s)[..|r|]
    ensures forall k :: |r| <= k < |Pieces(s)| ==> Pieces(s)[k] == ""
    ensures |Pieces(s)| == 1 ==> r == [s]
    ensures |Pieces(s)| > 1 && |r| > 0 ==> r[|r| - 1] != ""
    ensures forall k :: 0 <= k < |r| ==> NoSeparator(r[k])
  {
    var ps := Pieces(s);
    PiecesAreSeparated(s);
    if |ps| == 1 then ps else DropTrailingEmpty(ps)
  }

  /** s.split(":", 2): the text before the first colon and the text after it; None when there is no colon. */
  function SplitAtFirstColon(s: string): (r: Option<(string, string)>)
    ensures r.None? <==> ':' !in s
    ensures r.Some? ==> s == r.value.0 + ":" + r.value.1 && ':' !in r.value.0
  {
    if |s| == 0 then None
    else if s[0] == ':' then Some(([], s[1..]))
    else
      match SplitAtFirstColon(s[1..])
      case None => None
      case Some((name, value)) => Some(([s[0]] + name, value))
  }

  /** A string whose first colon follows a colon-free head is cut right after that head. */
  lemma {:induction false} CutAtColon(head: string, tail: string)
    requires ':' !in head
    ensures SplitAtFirstColon(head + ":" + tail) == Some((head, tail))
    decreases |head|
  {
    if |head| > 0 {
      var s := head + ":" + tail;
      CutAtColon(head[1..], tail);
      assert s[0] == head[0] && head[0] != ':';
      assert s[1..] == head[1..] + ":" + tail;
      assert head == [head[0]] + head[1..];
    }
  }

  /** s.replace(c, rep) for a one-character target: every occurrence of c becomes rep. */
  function ReplaceAll(s: string, c: char, rep: string): (r: string)
    ensures c !in s ==> r == s
    ensures c !in rep ==> c !in r
  {
    if |s| == 0 then ""
    else
      assert s == [s[0]] + s[1..];
      (if s[0] == c then rep else [s[0]]) + ReplaceAll(s[1..], c, rep)
  }

  /** Joining the pieces back with commas gives the original string. */
  lemma {:induction false} JoinPieces(s: string)
    ensures JoinComma(Pieces(s)) == s
    decreases |s|
  {
    var i := NextSeparator(s, 0);
    if i < |s| {
      var rest := Pieces(s[i + 1..]);
      JoinPieces(s[i + 1..]);
      assert Pieces(s) == [s[..i]] + rest;
      assert s == s[..i] + "," + s[i + 1..];
    }
  }

  /** No piece contains a separating comma, and every piece but the last ends open. */
  lemma {:induction false} PiecesAreSeparated(s: string)
    ensures forall k :: 0 <= k < |Pieces(s)| ==> NoSeparator(Pieces(s)[k])
    ensures forall k :: 0 <= k < |Pieces(s)| - 1 ==> EndsOpen(Pieces(s)[k])
    decreases |s|
  {
    var i := NextSeparator(s, 0);
    var head := s[..i];
    assert NoSeparator(head) by {
      forall j | 0 <= j < |head| ensures !IsSeparator(head, j) {
        assert !IsSeparator(s, j);
      }
    }
    if i < |s| {
      PiecesAreSeparated(s[i + 1..]);
      assert EndsOpen(head) by {
        assert IsSeparator(s, i);
      }
    }
  }

  /** A string's first separator is where the first of the joined parts ends. */
  lemma FirstSeparatorOfJoin(parts: seq<string>)
    requires |parts| > 1 && NoSeparator(parts[0]) && EndsOpen(parts[0])
    ensures NextSeparator(JoinComma(parts), 0) == |parts[0]|
    ensures JoinComma(parts) == parts[0] + "," + JoinComma(parts[1..])
  {
    var s := JoinComma(parts);
    var n := |parts[0]|;
    assert s[..n] == parts[0];
    forall j | 0 <= j < n ensures !IsSeparator(s, j) {
      assert !IsSeparator(parts[0], j);
    }
    assert IsSeparator(s, n);
  }

  /**
   * Splitting is the inverse of joining: parts that hold no separating comma and
   * (but for the last) do not end in a backslash come back unchanged.
   */
  lemma {:induction false} PiecesOfJoin(parts: seq<string>)
    requires |parts| >= 1
    requires forall k :: 0 <= k < |parts| ==> NoSeparator(parts[k])
    requires forall k :: 0 <= k < |parts| - 1 ==> EndsOpen(parts[k])
    ensures Pieces(JoinComma(parts)) == parts
    decreases |parts|
  {
    var s := JoinComma(parts);
    if |parts| == 1 {
      assert NextSeparator(s, 0) == |s|;
    } else {
      FirstSeparatorOfJoin(parts);
      var n := |parts[0]|;
      assert s[..n] == parts[0];
      assert s[n + 1..] == JoinComma(parts[1..]);
      PiecesOfJoin(parts[1..]);
      assert parts == [parts[0]] + parts[1..];
    }
  }

  /** The pieces of a string with no separating comma are the string itself. */
  lemma SplitWithoutSeparator(s: string)
    requires NoSeparator(s)
    ensures SplitEntries(s) == [s]
  {
    PiecesOfJoin([s]);
  }

  /** The text after the replacement is the replacement of each part. */
  lemma {:induction false} ReplaceAllConcat(a: string, b: string, c: char, rep: string)
    ensures ReplaceAll(a + b, c, rep) == ReplaceAll(a, c, rep) + ReplaceAll(b, c, rep)
    decreases |a|
  {
    if |a| > 0 {
      assert (a + b)[1..] == a[1..] + b;
      ReplaceAllConcat(a[1..], b, c, rep);
    } else {
      assert a + b == b;
    }
  }
}
