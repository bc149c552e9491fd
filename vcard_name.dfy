/** The display name the component derives from a vCard: the trimmed text of
    the first match of the unanchored regular expression `FN:(.+)`.  This is a
    text search, not a parse of the FN property of section 3.1.1 of RFC 2426:
    an `FN:` anywhere in a line matches, and a line folded by the vCard rules
    is cut at the fold. */
module VCardName {
  import opened Wrappers
  import opened JsText

  /** The name used when the vCard has no match. */
  const UNKNOWN_NAME: string := "未知联系人"

  /** `FN:(.+)` can match starting at `i`: the three letters, then at least one
      character that `.` accepts. */
  predicate FnAt(s: string, i: nat)
  {
    i + 3 < |s| && s[i] == 'F' && s[i + 1] == 'N' && s[i + 2] == ':' && !IsLineTerminator(s[i + 3])
  }

  /** `i` is where the regular expression's leftmost match starts. */
  predicate FirstFnAt(s: string, i: nat)
  {
    FnAt(s, i) && forall j :: 0 <= j < i ==> !FnAt(s, j)
  }

  /** The leftmost match position at or after `from`, scanning as the matcher does. */
  function FindFn(s: string, from: nat): (r: Option<nat>)
    requires from <= |s|
    ensures r.Some? ==> from <= r.value && FnAt(s, r.value)
    ensures r.Some? ==> forall j :: from <= j < r.value ==> !FnAt(s, j)
    ensures r.None? ==> forall j :: from <= j ==> !FnAt(s, j)
    decreases |s| - from
  {
    if from == |s| then None
    else if FnAt(s, from) then Some(from)
    else FindFn(s, from + 1)
  }

  /** Where the greedy `.+` stops: the first line terminator at or after `k`,
      or the end of the text. */
  function LineEnd(s: string, k: nat): (e: nat)
    requires k <= |s|
    ensures k <= e <= |s|
    ensures forall j :: k <= j < e ==> !IsLineTerminator(s[j])
    ensures e < |s| ==> IsLineTerminator(s[e])
    decreases |s| - k
  {
    if k == |s| || IsLineTerminator(s[k]) then k else LineEnd(s, k + 1)
  }

  /** Capture group 1 of `s.match(/FN:(.+)/)`, or None when there is no match. */
  function FnValue(s: string): (g: Option<string>)
    ensures g.None? <==> forall i :: 0 <= i < |s| ==> !FnAt(s, i)
    ensures g.Some? ==> exists i: nat :: FirstFnAt(s, i) && g.value == s[i + 3..LineEnd(s, i + 3)]
    ensures g.Some? ==> |g.value| > 0 && forall j :: 0 <= j < |g.value| ==> !IsLineTerminator(g.value[j])
  {
    match FindFn(s, 0)
    case None => None
    case Some(i) =>
      var e := LineEnd(s, i + 3);
      assert FirstFnAt(s, i);
      Some(s[i + 3..e])
  }

  /** `extractNameFromVCard`: the trimmed group, or the placeholder. */
  function ExtractName(vCard: string): (name: string)
    ensures (forall i :: 0 <= i < |vCard| ==> !FnAt(vCard, i)) ==> name == UNKNOWN_NAME
    ensures forall i: nat :: FirstFnAt(vCard, i) ==> name == Trim(vCard[i + 3..LineEnd(vCard, i + 3)])
  {
    var g := FnValue(vCard);
    FirstFnUnique(vCard);
    if g.Some? then Trim(g.value) else UNKNOWN_NAME
  }

  /** There is at most one leftmost match. */
  lemma FirstFnUnique(s: string)
    ensures forall i: nat, k: nat :: FirstFnAt(s, i) && FirstFnAt(s, k) ==> i == k
  {
  }

  /** A name found in the vCard is a piece of one line of it, with nothing for
      `trim` left at either end. */
  lemma {:induction false} ExtractedNameIsLineFragment(vCard: string)
    requires exists i: nat :: FnAt(vCard, i)
    ensures IsStripped(ExtractName(vCard))
    ensures exists k: nat :: OccursAt(ExtractName(vCard), vCard, k)
    ensures forall j :: 0 <= j < |ExtractName(vCard)| ==> !IsLineTerminator(ExtractName(vCard)[j])
  {
    var i := FindFn(vCard, 0).value;
    var e := LineEnd(vCard, i + 3);
    var g := vCard[i + 3..e];
    assert g == FnValue(vCard).value;
    var name := Trim(g);
    assert name == ExtractName(vCard);
    TrimOfSliceOccurs(vCard, i + 3, e);
    TrimKeepsOneLine(g);
  }

  /** The usual shape of a vCard line: when no `F` comes before it, the line
      `FN:<value>` gives the trimmed value. */
  lemma {:induction false} NameOfFnLine(before: string, value: string, after: string)
    requires forall k :: 0 <= k < |before| ==> before[k] != 'F'
    requires |value| > 0 && forall j :: 0 <= j < |value| ==> !IsLineTerminator(value[j])
    requires after == [] || IsLineTerminator(after[0])
    ensures ExtractName(before + "FN:" + value + after) == Trim(value)
  {
    var s := before + "FN:" + value + after;
    var i := |before|;
    assert s[i] == 'F' && s[i + 1] == 'N' && s[i + 2] == ':' && s[i + 3] == value[0];
    assert FnAt(s, i);
    assert forall j :: 0 <= j < i ==> s[j] == before[j];
    assert FirstFnAt(s, i);
    var e := i + 3 + |value|;
    forall j | i + 3 <= j < e
      ensures !IsLineTerminator(s[j])
    {
      assert s[j] == value[j - (i + 3)];
    }
    assert e < |s| ==> s[e] == after[0];
    LineEndAt(s, i + 3, e);
    assert s[i + 3..e] == value;
  }

  /** `LineEnd` stops at the first line terminator and nowhere before it. */
  lemma {:induction false} LineEndAt(s: string, k: nat, e: nat)
    requires k <= e <= |s|
    requires forall j :: k <= j < e ==> !IsLineTerminator(s[j])
    requires e == |s| || IsLineTerminator(s[e])
    ensures LineEnd(s, k) == e
    decreases e - k
  {
    if k < e {
      LineEndAt(s, k + 1, e);
    }
  }

  /** The line `FN:<name>` with no `F` before it names exactly `<name>` when
      `<name>` already has no space at its ends. */
  lemma NameOfStrippedFnLine(vCard: string, before: string, name: string, after: string)
    requires vCard == before + "FN:" + name + after
    requires forall k :: 0 <= k < |before| ==> before[k] != 'F'
    requires |name| > 0 && IsStripped(name) && forall j :: 0 <= j < |name| ==> !IsLineTerminator(name[j])
    requires after == [] || IsLineTerminator(after[0])
    ensures ExtractName(vCard) == name
  {
    NameOfFnLine(before, name, after);
    assert [] + name + [] == name;
    TrimPadded([], name, []);
  }

  /** The vCard from the scenario of a typical reply names Jane Doe. */
  lemma JaneDoe(vCard: string)
    requires vCard == "BEGIN:VCARD\nVERSION:3.0\n" + "FN:Jane Doe" + "\nEMAIL:jane@x.com\nTEL:555-1234\nEND:VCARD"
    ensures ExtractName(vCard) == "Jane Doe"
  {
    var before, after := "BEGIN:VCARD\nVERSION:3.0\n", "\nEMAIL:jane@x.com\nTEL:555-1234\nEND:VCARD";
    NameOfStrippedFnLine(vCard, before, "Jane Doe", after);
  }

  /** The match is not anchored to the start of a line: `XFN:` matches too. */
  lemma UnanchoredMatch(vCard: string)
    requires vCard == "NOTE:XFN:Bob"
    ensures ExtractName(vCard) == "Bob"
  {
    NameOfStrippedFnLine(vCard, "NOTE:X", "Bob", []);
  }

  /** An `FN:` with nothing after it on its line is passed over in favour of a
      later one, whose value is trimmed. */
  lemma EmptyFnLineSkipped(vCard: string)
    requires vCard == "FN:\nFN: Bob "
    ensures ExtractName(vCard) == "Bob"
  {
    assert !FnAt(vCard, 0) && !FnAt(vCard, 1) && !FnAt(vCard, 2) && !FnAt(vCard, 3);
    assert FirstFnAt(vCard, 4);
    LineEndAt(vCard, 7, |vCard|);
    assert vCard[7..|vCard|] == " " + "Bob" + " ";
    TrimPadded(" ", "Bob", " ");
  }
}
