/**
 * The label rewrite of a snooze: `label.replace(" (Snoozed)", "") + " (Snoozed)"`.
 * String.prototype.replace with a string pattern removes only the FIRST occurrence.
 */
module SnoozeLabel {

  const Suffix: string := " (Snoozed)"

  /** True when the marker occurs somewhere in s. */
  predicate HasMarker(s: string)
  {
    |s| >= |Suffix| && (s[..|Suffix|] == Suffix || HasMarker(s[1..]))
  }

  /** The marker starts at index i of s. */
  predicate MarkerAt(s: string, i: nat)
  {
    i + |Suffix| <= |s| && s[i..i + |Suffix|] == Suffix
  }

  /** Dropping the first character moves every occurrence one place to the left. */
  lemma MarkerAtShift(s: string, j: nat)
    requires 0 < j && |s| > 0
    ensures MarkerAt(s, j) <==> MarkerAt(s[1..], j - 1)
  {
    if j + |Suffix| <= |s| {
      var a, b := s[j..j + |Suffix|], s[1..][j - 1..j - 1 + |Suffix|];
      assert forall k :: 0 <= k < |a| ==> a[k] == b[k];
      assert a == b;
    }
  }

  /** Where the first occurrence of the marker starts. */
  function FirstMarker(s: string): (i: nat)
    requires HasMarker(s)
    ensures MarkerAt(s, i)
    ensures forall j: nat :: j < i ==> !MarkerAt(s, j)
  {
    if s[..|Suffix|] == Suffix then
      assert s[0..|Suffix|] == s[..|Suffix|];
      0
    else
      var i := 1 + FirstMarker(s[1..]);
      MarkerAtShift(s, i);
      assert forall j: nat :: 0 < j < i ==> !MarkerAt(s, j) by {
        forall j: nat | 0 < j < i
          ensures !MarkerAt(s, j)
        {
          MarkerAtShift(s, j);
        }
      }
      assert s[0..|Suffix|] == s[..|Suffix|];
      i
  }

  /** A string without the marker has no occurrence of it anywhere. */
  lemma {:induction false} NoMarkerNowhere(s: string, i: nat)
    requires !HasMarker(s)
    ensures !MarkerAt(s, i)
  {
    if i > 0 && i + |Suffix| <= |s| {
      MarkerAtShift(s, i);
      NoMarkerNowhere(s[1..], i - 1);
    } else if i == 0 && |Suffix| <= |s| {
      assert s[0..|Suffix|] == s[..|Suffix|];
    }
  }

  /** `s.replace(" (Snoozed)", "")`: s with its first occurrence of the marker removed. */
  function RemoveFirst(s: string): (r: string)
    ensures HasMarker(s) ==> r == s[..FirstMarker(s)] + s[FirstMarker(s) + |Suffix|..]
    ensures !HasMarker(s) ==> r == s
  {
    if |s| < |Suffix| then s
    else if s[..|Suffix|] == Suffix then s[|Suffix|..]
    else
      var r := [s[0]] + RemoveFirst(s[1..]);
      if HasMarker(s) then
        var i := FirstMarker(s[1..]);
        assert FirstMarker(s) == i + 1;
        assert r == s[..i + 1] + s[i + 1 + |Suffix|..] by {
          assert s[..i + 1] == [s[0]] + s[1..][..i];
          assert s[i + 1 + |Suffix|..] == s[1..][i + |Suffix|..];
        }
        r
      else r
  }

  /** The marker's only space is its first character. */
  lemma SpaceOnlyAtStart(k: int)
    requires 0 < k < |Suffix|
    ensures Suffix[k] != ' '
  {
  }

  /** A label that starts with the marker loses exactly that leading marker. */
  lemma RemoveLeadingMarker(rest: string)
    ensures RemoveFirst(Suffix + rest) == rest
  {
    var s := Suffix + rest;
    assert s[..|Suffix|] == Suffix;
    assert s[|Suffix|..] == rest;
  }

  /** A label that does not start with the marker keeps its first character. */
  lemma RemoveFirstKeepsHead(s: string)
    requires |s| >= |Suffix| && s[..|Suffix|] != Suffix
    ensures RemoveFirst(s) == [s[0]] + RemoveFirst(s[1..])
  {
  }

  /**
   * The label after a snooze: what precedes the final marker is the label
   * with its first marker removed.
   */
  function Snoozed(labelText: string): (r: string)
    ensures |r| >= |Suffix| && r[|r| - |Suffix|..] == Suffix
    ensures r[..|r| - |Suffix|] == RemoveFirst(labelText)
    ensures !HasMarker(labelText) ==> r == labelText + Suffix
  {
    var r := RemoveFirst(labelText) + Suffix;
    assert r[|r| - |Suffix|..] == Suffix;
    assert r[..|r| - |Suffix|] == RemoveFirst(labelText);
    r
  }

  /**
   * Appending the marker to a label without one and removing the first
   * marker gives the label back: no occurrence can start inside the label
   * and run into the appended marker, because the marker's first character
   * (a space) occurs in it nowhere else.
   */
  lemma {:induction false} RemoveAppendedMarker(l: string)
    requires !HasMarker(l)
    ensures RemoveFirst(l + Suffix) == l
  {
    if |l| == 0 {
      assert l + Suffix == Suffix + [];
      RemoveLeadingMarker([]);
    } else {
      AppendedMarkerNotAtStart(l);
      AppendedMarkerStep(l);
      TailUnmarked(l);
      RemoveAppendedMarker(l[1..]);
      assert [l[0]] + l[1..] == l;
    }
  }

  /** One step of RemoveAppendedMarker: the label's first character is kept. */
  lemma AppendedMarkerStep(l: string)
    requires |l| > 0 && (l + Suffix)[..|Suffix|] != Suffix
    ensures RemoveFirst(l + Suffix) == [l[0]] + RemoveFirst(l[1..] + Suffix)
  {
    var s := l + Suffix;
    assert s[1..] == l[1..] + Suffix;
    RemoveFirstKeepsHead(s);
  }


  /** The tail of an unmarked label is unmarked. */
  lemma TailUnmarked(l: string)
    requires !HasMarker(l) && |l| > 0
    ensures !HasMarker(l[1..])
  {
  }


  /** An unmarked, non-empty label followed by the marker does not start with the marker. */
  lemma AppendedMarkerNotAtStart(l: string)
    requires !HasMarker(l) && |l| > 0
    ensures (l + Suffix)[..|Suffix|] != Suffix
  {
    var s := l + Suffix;
    if |l| >= |Suffix| {
      assert s[..|Suffix|] == l[..|Suffix|];
    } else {
      SpaceOnlyAtStart(|l|);
      assert s[..|Suffix|][|l|] == ' ';
    }
  }





  /** A label without the marker gains it once; a second snooze leaves the label as it is. */
  lemma SnoozeTwiceKeepsOneMarker(l: string)
    requires !HasMarker(l)
    ensures Snoozed(l) == l + Suffix
    ensures Snoozed(Snoozed(l)) == Snoozed(l)
  {
    RemoveAppendedMarker(l);
  }

  /**
   * More generally, snoozing is idempotent on every label that keeps no
   * marker once its first one is removed.
   */
  lemma SnoozeIdempotentWhenRemovalLeavesNoMarker(l: string)
    requires !HasMarker(RemoveFirst(l))
    ensures Snoozed(Snoozed(l)) == Snoozed(l)
  {
    RemoveAppendedMarker(RemoveFirst(l));
  }

  /** Snoozing a marked label with text after its marker moves that text in front. */
  lemma SnoozeMovesTrailingText()
    ensures Snoozed(Suffix + "Y" + Suffix) == "Y" + Suffix + Suffix
  {
    assert Suffix + "Y" + Suffix == Suffix + ("Y" + Suffix);
    RemoveLeadingMarker("Y" + Suffix);
  }

  /**
   * A label carrying two markers with text after them is not stable: the
   * second snooze moves that text in front of the markers.
   */
  lemma SnoozeNotIdempotentOnTwoMarkers()
    ensures Snoozed(Snoozed(Suffix + Suffix + "Y")) != Snoozed(Suffix + Suffix + "Y")
  {
    assert Suffix + Suffix + "Y" == Suffix + (Suffix + "Y");
    RemoveLeadingMarker(Suffix + "Y");
    assert Snoozed(Suffix + Suffix + "Y") == Suffix + "Y" + Suffix;
    SnoozeMovesTrailingText();
    assert ("Y" + Suffix + Suffix)[0] != (Suffix + "Y" + Suffix)[0];
  }

  /** A label with a single marker that splits the text " (Snoozed)" in two. */
  const JoinedLabel: string := " (Sno" + Suffix + "ozed)Y"

  /** The only marker of JoinedLabel starts at index 5. */
  lemma JoinedLabelHasOneMarker()
    ensures MarkerAt(JoinedLabel, 5)
    ensures forall j: nat :: j != 5 ==> !MarkerAt(JoinedLabel, j)
  {
    var l := JoinedLabel;
    assert l[5..5 + |Suffix|] == Suffix;
    forall j: nat | j != 5
      ensures !MarkerAt(l, j)
    {
      if j + |Suffix| <= |l| {
        if j < 5 {
          assert l[5] == ' ';
          assert Suffix[5 - j] != ' ';
          assert l[j..j + |Suffix|][5 - j] != Suffix[5 - j];
        } else {
          assert l[j..j + |Suffix|][0] != Suffix[0];
        }
      }
    }
  }

  /** Cutting out that marker joins the text around it into a new one. */
  lemma JoinedLabelRemoval()
    ensures RemoveFirst(JoinedLabel) == Suffix + "Y"
  {
    var l := JoinedLabel;
    JoinedLabelHasOneMarker();
    assert HasMarker(l) by {
      if !HasMarker(l) {
        NoMarkerNowhere(l, 5);
      }
    }
    assert FirstMarker(l) == 5;
    assert l[..5] + l[5 + |Suffix|..] == Suffix + "Y";
  }

  /**
   * One marker is not enough for stability either: removing the only marker
   * of JoinedLabel creates a new one, and the second snooze then moves the
   * trailing text in front of the markers.
   */
  lemma SnoozeNotIdempotentOnJoinedMarker()
    ensures MarkerAt(JoinedLabel, 5)
    ensures forall j: nat :: j != 5 ==> !MarkerAt(JoinedLabel, j)
    ensures Snoozed(Snoozed(JoinedLabel)) != Snoozed(JoinedLabel)
  {
    JoinedLabelHasOneMarker();
    JoinedLabelRemoval();
    assert Snoozed(JoinedLabel) == Suffix + "Y" + Suffix;
    SnoozeMovesTrailingText();
    assert ("Y" + Suffix + Suffix)[0] != (Suffix + "Y" + Suffix)[0];
  }

}
