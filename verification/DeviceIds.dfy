/**
 The device id of a request: white space around it does not count (`device_id.trim()` in src/services/crypto.rs and
 src/routes/licenses.rs).
 */
module DeviceIds {

  /** The characters with the Unicode property White_Space. */
  const WHITE_SPACE: string := "\t\n\U{B}\U{C}\r \U{85}\U{A0}\U{1680}"
    + "\U{2000}\U{2001}\U{2002}\U{2003}\U{2004}\U{2005}\U{2006}\U{2007}\U{2008}\U{2009}\U{200A}"
    + "\U{2028}\U{2029}\U{202F}\U{205F}\U{3000}"

  predicate IsWhitespace(ch: char) {
    || '\t' <= ch <= '\r' || ch == ' ' || ch == '\U{85}' || ch == '\U{A0}' || ch == '\U{1680}'
    || '\U{2000}' <= ch <= '\U{200A}' || ch == '\U{2028}' || ch == '\U{2029}' || ch == '\U{202F}'
    || ch == '\U{205F}' || ch == '\U{3000}'
  }

  function Trim(s: string): string {
    if s != [] && IsWhitespace(s[0]) then Trim(s[1..])
    else if s != [] && IsWhitespace(s[|s| - 1]) then Trim(s[..|s| - 1])
    else s
  }

  lemma WhitespaceIs(ch: char)
    ensures IsWhitespace(ch) <==> ch in WHITE_SPACE
  {
    var first, middle := "\t\n\U{B}\U{C}\r \U{85}\U{A0}\U{1680}", "\U{2000}\U{2001}\U{2002}\U{2003}\U{2004}\U{2005}\U{2006}\U{2007}\U{2008}\U{2009}\U{200A}";
    assert ch in WHITE_SPACE <==> ch in first || ch in middle || ch in "\U{2028}\U{2029}\U{202F}\U{205F}\U{3000}";
  }

  predicate IsBlank(s: string) {
    forall i :: 0 <= i < |s| ==> IsWhitespace(s[i])
  }

  /** No white space at either end. */
  predicate IsBare(s: string) {
    s != [] ==> !IsWhitespace(s[0]) && !IsWhitespace(s[|s| - 1])
  }

  /** `s` is `id` with white space around it. */
  ghost predicate Pads(s: string, id: string) {
    exists before: string, after: string :: IsBlank(before) && IsBlank(after) && s == before + id + after
  }

  lemma {:induction false} TrimIsBare(s: string)
    ensures IsBare(Trim(s))
  {
    if s == [] {
    } else if IsWhitespace(s[0]) {
      TrimIsBare(s[1..]);
    } else if IsWhitespace(s[|s| - 1]) {
      TrimIsBare(s[..|s| - 1]);
    }
  }

  lemma {:induction false} TrimRemovesPadding(s: string) returns (before: string, after: string)
    ensures IsBlank(before) && IsBlank(after) && s == before + Trim(s) + after
  {
    before, after := [], [];
    if s == [] {
    } else if IsWhitespace(s[0]) {
      before, after := TrimRemovesPadding(s[1..]);
      before := [s[0]] + before;
    } else if IsWhitespace(s[|s| - 1]) {
      before, after := TrimRemovesPadding(s[..|s| - 1]);
      after := after + [s[|s| - 1]];
    }
  }

  lemma {:induction false} BlankTrims(s: string)
    requires IsBlank(s)
    ensures Trim(s) == []
  {
    if s == [] {
    } else {
      BlankTrims(s[1..]);
    }
  }

  lemma {:induction false} PaddedTrims(before: string, id: string, after: string)
    requires IsBlank(before) && IsBlank(after) && IsBare(id)
    ensures Trim(before + id + after) == id
    decreases |before| + |after|
  {
    var s := before + id + after;
    if before != [] {
      assert s[1..] == before[1..] + id + after;
      PaddedTrims(before[1..], id, after);
    } else if id == [] {
      assert s == after;
      BlankTrims(after);
    } else if after != [] {
      assert s[0] == id[0];
      assert s[..|s| - 1] == before + id + after[..|after| - 1];
      PaddedTrims(before, id, after[..|after| - 1]);
    } else {
      assert s == id;
    }
  }

  /** Trimming finds the one text without white space at its ends that the given text pads. */
  lemma TrimExactly(s: string, id: string)
    ensures Trim(s) == id <==> IsBare(id) && Pads(s, id)
  {
    TrimIsBare(s);
    var before, after := TrimRemovesPadding(s);
    assert Pads(s, Trim(s));
    if IsBare(id) && Pads(s, id) {
      var a: string, b: string :| IsBlank(a) && IsBlank(b) && s == a + id + b;
      PaddedTrims(a, id, b);
    }
  }

  lemma Regroup(a: string, b: string, c: string, d: string, e: string)
    ensures a + (b + c + d) + e == (a + b) + c + (d + e)
  {
  }

  /** More white space around a text changes nothing. */
  lemma PaddingVanishes(before: string, s: string, after: string)
    requires IsBlank(before) && IsBlank(after)
    ensures Trim(before + s + after) == Trim(s)
  {
    TrimIsBare(s);
    var a, b := TrimRemovesPadding(s);
    Regroup(before, a, Trim(s), b, after);
    PaddedTrims(before + a, Trim(s), b + after);
  }
}
