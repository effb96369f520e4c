/** The string operations the recognizer applies to recognition results:
    Qt's QString::trimmed and the one-space joining of finalized texts. */
module Text {

  /** QChar::isSpace: the C0 separators TAB..CR, NEL, and the Unicode
      separator categories Zs, Zl and Zp. */
  predicate IsSpace(c: char) {
    c == ' ' || ('\t' <= c <= '\r') || c == '\U{85}' || c == '\U{A0}' || c == '\U{1680}'
    || ('\U{2000}' <= c <= '\U{200A}') || c == '\U{2028}' || c == '\U{2029}'
    || c == '\U{202F}' || c == '\U{205F}' || c == '\U{3000}'
  }

  predicate AllSpace(s: string) {
    forall i :: 0 <= i < |s| ==> IsSpace(s[i])
  }

  /** Neither the first nor the last character is whitespace. */
  predicate NoEdgeSpace(s: string) {
    s == [] || (!IsSpace(s[0]) && !IsSpace(s[|s| - 1]))
  }

  /** Drops the whitespace at the start. */
  function TrimStart(s: string): (r: string)
    ensures |r| <= |s|
    ensures r == [] || !IsSpace(r[0])
  {
    if s != [] && IsSpace(s[0]) then TrimStart(s[1..]) else s
  }

  /** Drops the whitespace at the end. */
  function TrimEnd(s: string): (r: string)
    ensures |r| <= |s| && r == s[..|r|]
    ensures r == [] || !IsSpace(r[|r| - 1])
  {
    if s != [] && IsSpace(s[|s| - 1]) then TrimEnd(s[..|s| - 1]) else s
  }

  /** QString::trimmed: whitespace removed at both ends. */
  function Trim(s: string): (r: string)
    ensures NoEdgeSpace(r)
  {
    TrimEnd(TrimStart(s))
  }

  lemma {:induction false} TrimStartDrops(s: string)
    ensures var r := TrimStart(s); r == s[|s| - |r|..] && AllSpace(s[..|s| - |r|])
  {
    if s != [] && IsSpace(s[0]) {
      TrimStartDrops(s[1..]);
      var r := TrimStart(s);
      assert s[..|s| - |r|] == [s[0]] + s[1..][..|s| - 1 - |r|];
    }
  }

  lemma {:induction false} TrimEndDrops(s: string)
    ensures var r := TrimEnd(s); AllSpace(s[|r|..])
  {
    if s != [] && IsSpace(s[|s| - 1]) {
      TrimEndDrops(s[..|s| - 1]);
      var r := TrimEnd(s);
      assert s[|r|..] == s[..|s| - 1][|r|..] + [s[|s| - 1]];
    }
  }

  /** The trimmed text is what lies between a whitespace prefix and a
      whitespace suffix of the original. */
  lemma TrimIsInfix(s: string)
    ensures exists i, j :: 0 <= i <= j <= |s| && Trim(s) == s[i..j] && AllSpace(s[..i]) && AllSpace(s[j..])
  {
    var a := TrimStart(s);
    var r := TrimEnd(a);
    TrimStartDrops(s);
    TrimEndDrops(a);
    assert r == s[|s| - |a|..][..|r|] == s[|s| - |a|..|s| - |a| + |r|];
    assert s[|s| - |a| + |r|..] == a[|r|..];
  }

  /** A trimmed text is empty exactly when the original was all whitespace. */
  lemma TrimEmptyIff(s: string)
    ensures Trim(s) == [] <==> AllSpace(s)
  {
    TrimIsInfix(s);
    var i, j :| 0 <= i <= j <= |s| && Trim(s) == s[i..j] && AllSpace(s[..i]) && AllSpace(s[j..]);
    if Trim(s) == [] {
      assert i == j;
      forall k | 0 <= k < |s| ensures IsSpace(s[k]) {
        if k < i { assert s[k] == s[..i][k]; } else { assert s[k] == s[j..][k - j]; }
      }
    } else {
      assert s[i] == Trim(s)[0];
    }
  }

  /** Trimming is idempotent. */
  lemma TrimIdempotent(s: string)
    ensures Trim(Trim(s)) == Trim(s)
  {
    var t := Trim(s);
    assert TrimStart(t) == t;
    assert TrimEnd(t) == t;
  }

  /** The finalized texts joined with exactly one space between neighbours. */
  function Join(segments: seq<string>): string {
    if segments == [] then ""
    else if |segments| == 1 then segments[0]
    else segments[0] + " " + Join(segments[1..])
  }

  /** Each segment is what the recognizer keeps of a finalized result:
      non-empty and trimmed. */
  predicate Segments(segments: seq<string>) {
    forall i :: 0 <= i < |segments| ==> segments[i] != [] && NoEdgeSpace(segments[i])
  }

  lemma SegmentsSnoc(segments: seq<string>, t: string)
    requires Segments(segments) && t != [] && NoEdgeSpace(t)
    ensures Segments(segments + [t])
  {
    var s := segments + [t];
    forall i | 0 <= i < |s| ensures s[i] != [] && NoEdgeSpace(s[i]) {
      if i < |segments| { assert s[i] == segments[i]; }
    }
  }

  /** Appending one more segment adds a single space, unless the join was empty. */
  lemma {:induction false} JoinSnoc(segments: seq<string>, t: string)
    ensures Join(segments + [t]) == if segments == [] then t else Join(segments) + " " + t
  {
    if |segments| > 1 {
      assert (segments + [t])[1..] == segments[1..] + [t];
      JoinSnoc(segments[1..], t);
    } else if |segments| == 1 {
      assert (segments + [t])[1..] == [t];
    }
  }

  /** The join of non-empty segments is empty only when there are none. */
  lemma {:induction false} JoinEmptyIff(segments: seq<string>)
    requires Segments(segments)
    ensures Join(segments) == [] <==> segments == []
  {
    if |segments| > 1 {
      assert |Join(segments)| >= |segments[0]|;
    }
  }

  /** The accumulated transcription never begins or ends with whitespace. */
  lemma {:induction false} JoinNoEdgeSpace(segments: seq<string>)
    requires Segments(segments)
    ensures NoEdgeSpace(Join(segments))
  {
    if |segments| > 1 {
      JoinNoEdgeSpace(segments[1..]);
      JoinEmptyIff(segments[1..]);
      var rest := Join(segments[1..]);
      var j := segments[0] + " " + rest;
      assert j[0] == segments[0][0];
      assert j[|j| - 1] == rest[|rest| - 1];
    }
  }
}
