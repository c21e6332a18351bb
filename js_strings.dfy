/**
 * The few JavaScript string operations the feed logic relies on:
 * truthiness of an optional string, the `a || b` fallback, `trim`,
 * `split` on a one-character separator, `join` and counting a character.
 */
module JsStrings {
  import opened Wrappers

  /** A `string | null` value is truthy iff it is present and non-empty. */
  predicate Truthy(o: Option<string>) {
    o.Some? && o.value != ""
  }

  /** `o || fallback` for an optional string. */
  function OrElse(o: Option<string>, fallback: string): (r: string)
    ensures Truthy(o) ==> r == o.value
    ensures !Truthy(o) ==> r == fallback
    ensures fallback != "" ==> r != ""
  {
    if Truthy(o) then o.value else fallback
  }

  /**
   * The whitespace `trim` removes. JavaScript also removes the Unicode
   * space separators and line terminators; this model fixes the ASCII set.
   */
  predicate IsSpace(c: char) {
    c == ' ' || c == '\t' || c == '\n' || c == '\r' || c == '\U{B}' || c == '\U{C}'
  }

  /** Whether a string has no whitespace at either end. */
  predicate IsTrimmed(s: string) {
    s == [] || (!IsSpace(s[0]) && !IsSpace(s[|s| - 1]))
  }

  function TrimStart(s: string): (r: string)
    ensures |r| <= |s| && r == s[|s| - |r|..]
    ensures forall k :: 0 <= k < |s| - |r| ==> IsSpace(s[k])
    ensures r != [] ==> !IsSpace(r[0])
  {
    if s != [] && IsSpace(s[0]) then TrimStart(s[1..]) else s
  }

  function TrimEnd(s: string): (r: string)
    ensures |r| <= |s| && r == s[..|r|]
    ensures forall k :: |r| <= k < |s| ==> IsSpace(s[k])
    ensures r != [] ==> !IsSpace(r[|r| - 1])
  {
    if s != [] && IsSpace(s[|s| - 1]) then TrimEnd(s[..|s| - 1]) else s
  }

  /** `s.trim()`: the string without its leading and trailing whitespace. */
  function Trim(s: string): (r: string)
    ensures |r| <= |s|
    ensures IsTrimmed(r)
    ensures r == [] <==> forall k :: 0 <= k < |s| ==> IsSpace(s[k])
    ensures IsTrimmed(s) ==> r == s
    ensures exists a :: KeepsMiddle(s, a, r)
  {
    TrimKeepsMiddle(s);
    TrimEnd(TrimStart(s))
  }

  lemma TrimKeepsMiddle(s: string)
    ensures KeepsMiddle(s, |s| - |TrimStart(s)|, TrimEnd(TrimStart(s)))
  {
    MiddleOfParts(s, TrimStart(s), TrimEnd(TrimStart(s)));
  }

  /** A prefix `r` of a suffix `t` of `s`, with only whitespace cut off on either side, is its middle. */
  lemma MiddleOfParts(s: string, t: string, r: string)
    requires |t| <= |s| && t == s[|s| - |t|..]
    requires forall k :: 0 <= k < |s| - |t| ==> IsSpace(s[k])
    requires |r| <= |t| && r == t[..|r|]
    requires forall k :: |r| <= k < |t| ==> IsSpace(t[k])
    ensures KeepsMiddle(s, |s| - |t|, r)
  {
    var a := |s| - |t|;
    SliceOfSuffix(s, a, |r|);
    forall k | a + |r| <= k < |s|
      ensures IsSpace(s[k])
    {
      assert s[k] == t[k - a];
    }
  }

  lemma SliceOfSuffix(s: string, a: nat, n: nat)
    requires a + n <= |s|
    ensures s[a..][..n] == s[a..a + n]
  {
  }

  /** `r` is the slice of `s` from `a`, and everything of `s` around it is whitespace. */
  predicate KeepsMiddle(s: string, a: int, r: string) {
    0 <= a <= |s| - |r| && r == s[a..a + |r|]
    && (forall k :: 0 <= k < a ==> IsSpace(s[k]))
    && (forall k :: a + |r| <= k < |s| ==> IsSpace(s[k]))
  }

  /** Number of occurrences of `c` in `s`. */
  function Count(s: string, c: char): nat {
    if s == [] then 0 else (if s[0] == c then 1 else 0) + Count(s[1..], c)
  }

  /** `pieces.join(sep)`. */
  function Join(pieces: seq<string>, sep: string): string {
    if |pieces| == 0 then ""
    else if |pieces| == 1 then pieces[0]
    else pieces[0] + sep + Join(pieces[1..], sep)
  }

  /**
   * A joined string starts with the first piece, ends with the last, and
   * holds no character that is in neither a piece nor the separator.
   */
  lemma {:induction false} JoinEnds(pieces: seq<string>, sep: string)
    requires |pieces| > 0
    ensures var r := Join(pieces, sep);
      && |pieces[0]| <= |r| && r[..|pieces[0]|] == pieces[0]
      && |pieces[|pieces| - 1]| <= |r| && r[|r| - |pieces[|pieces| - 1]|..] == pieces[|pieces| - 1]
    ensures forall c :: c in Join(pieces, sep) ==> c in sep || exists i :: 0 <= i < |pieces| && c in pieces[i]
    decreases |pieces|
  {
    if |pieces| > 1 {
      var tail := pieces[1..];
      JoinEnds(tail, sep);
      var rest := Join(tail, sep);
      assert Join(pieces, sep) == pieces[0] + sep + rest;
      assert tail[|tail| - 1] == pieces[|pieces| - 1];
      forall c | c in Join(pieces, sep)
        ensures c in sep || exists i :: 0 <= i < |pieces| && c in pieces[i]
      {
        if c in rest && c !in sep {
          var j :| 0 <= j < |tail| && c in tail[j];
          assert c in pieces[j + 1];
        }
      }
    }
  }

  /**
   * `s.split(sep)` for a one-character separator: the maximal pieces between
   * occurrences of `sep`, one more piece than there are separators, which
   * joined back with `sep` give `s` again.
   */
  function Split(s: string, sep: char): (pieces: seq<string>)
    ensures |pieces| == Count(s, sep) + 1
    ensures forall i :: 0 <= i < |pieces| ==> sep !in pieces[i]
    ensures Join(pieces, [sep]) == s
  {
    if s == [] then [""]
    else
      var rest := Split(s[1..], sep);
      if s[0] == sep then [""] + rest
      else [[s[0]] + rest[0]] + rest[1..]
  }

  /** A piece without the separator, followed by the separator, splits off as one piece. */
  lemma {:induction false} SplitAfterPiece(a: string, b: string, sep: char)
    requires sep !in a
    ensures Split(a + [sep] + b, sep) == [a] + Split(b, sep)
    decreases |a|
  {
    if a == [] {
      assert a + [sep] + b == [sep] + b;
      SplitLeadingSeparator(b, sep);
    } else {
      SplitAfterPiece(a[1..], b, sep);
      SplitPieceStep(a, b, sep);
    }
  }

  lemma SplitLeadingSeparator(b: string, sep: char)
    ensures Split([sep] + b, sep) == [""] + Split(b, sep)
  {
    assert ([sep] + b)[1..] == b;
  }

  /** The inductive step of `SplitAfterPiece`: a non-separator head joins the first piece. */
  lemma SplitPieceStep(a: string, b: string, sep: char)
    requires a != [] && sep !in a
    requires Split(a[1..] + [sep] + b, sep) == [a[1..]] + Split(b, sep)
    ensures Split(a + [sep] + b, sep) == [a] + Split(b, sep)
  {
    var s := a + [sep] + b;
    assert s[0] == a[0] && s[1..] == a[1..] + [sep] + b;
    var rest := Split(s[1..], sep);
    assert rest[0] == a[1..] && rest[1..] == Split(b, sep);
    assert Split(s, sep) == [[a[0]] + a[1..]] + Split(b, sep);
    assert [a[0]] + a[1..] == a;
  }

  /** A string without the separator is a single piece. */
  lemma {:induction false} SplitWithoutSeparator(a: string, sep: char)
    requires sep !in a
    ensures Split(a, sep) == [a]
    decreases |a|
  {
    if a != [] {
      SplitWithoutSeparator(a[1..], sep);
      assert [a[0]] + a[1..] == a;
    }
  }

  /** Splitting undoes joining when no piece holds the separator. */
  lemma {:induction false} SplitJoin(pieces: seq<string>, sep: char)
    requires |pieces| >= 1
    requires forall i :: 0 <= i < |pieces| ==> sep !in pieces[i]
    ensures Split(Join(pieces, [sep]), sep) == pieces
    decreases |pieces|
  {
    if |pieces| == 1 {
      SplitWithoutSeparator(pieces[0], sep);
    } else {
      SplitJoin(pieces[1..], sep);
      SplitAfterPiece(pieces[0], Join(pieces[1..], [sep]), sep);
      assert [pieces[0]] + pieces[1..] == pieces;
    }
  }

  /**
   * Splitting a `", "`-joined list on `','` gives the items back, every item
   * after the first carrying the space of the separator in front.
   */
  lemma {:induction false} SplitCommaSpaceJoin(items: seq<string>)
    requires |items| >= 1
    requires forall i :: 0 <= i < |items| ==> ',' !in items[i]
    ensures var pieces := Split(Join(items, ", "), ',');
      && |pieces| == |items|
      && pieces[0] == items[0]
      && forall i :: 1 <= i < |items| ==> pieces[i] == " " + items[i]
    decreases |items|
  {
    if |items| == 1 {
      SplitWithoutSeparator(items[0], ',');
    } else {
      var tail := Join(items[1..], ", ");
      SplitCommaSpaceJoin(items[1..]);
      assert Join(items, ", ") == items[0] + [','] + (" " + tail);
      SplitAfterPiece(items[0], " " + tail, ',');
      assert (" " + tail)[1..] == tail;
    }
  }

  /** Trimming a string with one blank in front gives the trimmed string. */
  lemma LeadingBlankTrimmed(s: string)
    requires IsTrimmed(s)
    ensures Trim(" " + s) == s
  {
    TrimStartLeadingBlank(s);
    TrimEndOfTrimmed(s);
  }

  lemma TrimStartLeadingBlank(s: string)
    requires IsTrimmed(s)
    ensures TrimStart(" " + s) == s
  {
    assert (" " + s)[1..] == s;
  }

  lemma TrimEndOfTrimmed(s: string)
    requires IsTrimmed(s)
    ensures TrimEnd(s) == s
  {
  }
}
