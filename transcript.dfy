/** Transcript aggregation of the result handler: JavaScript's `String.prototype.trim`
    and the concatenation of the final-flagged result slots. */
module Transcript {

  /** A character `trim` removes: the WhiteSpace and LineTerminator code points of the
      ECMAScript language specification (tab, line tab, form feed, space, no-break space,
      the byte order mark, every space separator of Unicode category Zs, and the four
      line terminators). */
  predicate IsJsWhitespace(c: char) {
    var n := c as int;
    n == 0x09 || n == 0x0A || n == 0x0B || n == 0x0C || n == 0x0D || n == 0x20
    || n == 0xA0 || n == 0x1680 || (0x2000 <= n <= 0x200A) || n == 0x2028 || n == 0x2029
    || n == 0x202F || n == 0x205F || n == 0x3000 || n == 0xFEFF
  }

  predicate AllWhitespace(s: string) {
    forall i :: 0 <= i < |s| ==> IsJsWhitespace(s[i])
  }

  /** `s` with its leading whitespace removed: the longest suffix that does not start with whitespace. */
  function TrimStart(s: string): (r: string)
    ensures |r| <= |s| && r == s[|s| - |r|..]
    ensures r == [] || !IsJsWhitespace(r[0])
    ensures forall i :: 0 <= i < |s| - |r| ==> IsJsWhitespace(s[i])
    decreases |s|
  {
    if |s| > 0 && IsJsWhitespace(s[0]) then TrimStart(s[1..]) else s
  }

  /** `s` with its trailing whitespace removed: the longest prefix that does not end with whitespace. */
  function TrimEnd(s: string): (r: string)
    ensures |r| <= |s| && r == s[..|r|]
    ensures r == [] || !IsJsWhitespace(r[|r| - 1])
    ensures forall i :: |r| <= i < |s| ==> IsJsWhitespace(s[i])
    decreases |s|
  {
    if |s| > 0 && IsJsWhitespace(s[|s| - 1]) then TrimEnd(s[..|s| - 1]) else s
  }

  /** JavaScript `s.trim()`. The result is empty exactly when `s` is all whitespace,
      and otherwise starts and ends with a non-whitespace character. */
  function Trim(s: string): (r: string)
    ensures |r| <= |s|
    ensures r == [] <==> AllWhitespace(s)
    ensures r != [] ==> !IsJsWhitespace(r[0]) && !IsJsWhitespace(r[|r| - 1])
  {
    var t := TrimStart(s);
    assert t != [] ==> s[|s| - |t|] == t[0];
    TrimEnd(t)
  }

  /** `trim` removes only leading and trailing whitespace: its result is a contiguous
      part of the input with nothing but whitespace on either side. */
  lemma TrimKeepsInterior(s: string)
    ensures exists i, j :: 0 <= i <= j <= |s| && Trim(s) == s[i..j] && AllWhitespace(s[..i]) && AllWhitespace(s[j..])
  {
    var t := TrimStart(s);
    var r := TrimEnd(t);
    var i := |s| - |t|;
    WhitespacePrefix(s, i);
    WhitespaceSuffix(t, |r|);
    assert r == s[i..i + |r|];
    assert s[i + |r|..] == t[|r|..];
  }

  lemma WhitespacePrefix(s: string, i: nat)
    requires i <= |s| && forall k :: 0 <= k < i ==> IsJsWhitespace(s[k])
    ensures AllWhitespace(s[..i])
  {
    forall k | 0 <= k < i ensures IsJsWhitespace(s[..i][k]) { assert s[..i][k] == s[k]; }
  }

  lemma WhitespaceSuffix(s: string, j: nat)
    requires j <= |s| && forall k :: j <= k < |s| ==> IsJsWhitespace(s[k])
    ensures AllWhitespace(s[j..])
  {
    forall k | 0 <= k < |s| - j ensures IsJsWhitespace(s[j..][k]) { assert s[j..][k] == s[j + k]; }
  }

  /** Trimming twice is trimming once. */
  lemma TrimIdempotent(s: string)
    ensures Trim(Trim(s)) == Trim(s)
  {
    var r := Trim(s);
    if r != [] {
      assert TrimStart(r) == r;
      assert TrimEnd(r) == r;
    }
  }

  /** A space appended to a string makes no difference once it is trimmed. */
  lemma {:induction false} TrimStartAppendSpace(s: string)
    ensures TrimStart(s + " ") == if AllWhitespace(s) then "" else TrimStart(s) + " "
    decreases |s|
  {
    if |s| == 0 {
      assert s + " " == " ";
      assert TrimStart(" "[1..]) == "";
    } else if IsJsWhitespace(s[0]) {
      assert (s + " ")[1..] == s[1..] + " ";
      TrimStartAppendSpace(s[1..]);
      AllWhitespaceAfterHead(s);
    } else {
      assert (s + " ")[0] == s[0];
      assert !AllWhitespace(s);
    }
  }

  lemma AllWhitespaceAfterHead(s: string)
    requires |s| > 0 && IsJsWhitespace(s[0])
    ensures AllWhitespace(s) <==> AllWhitespace(s[1..])
  {
    if AllWhitespace(s[1..]) {
      forall i | 0 <= i < |s| ensures IsJsWhitespace(s[i]) {
        if i > 0 { assert s[i] == s[1..][i - 1]; }
      }
    }
    if AllWhitespace(s) {
      forall i | 0 <= i < |s[1..]| ensures IsJsWhitespace(s[1..][i]) {
        assert s[1..][i] == s[i + 1];
      }
    }
  }

  lemma TrimIgnoresTrailingSpace(s: string)
    ensures Trim(s + " ") == Trim(s)
  {
    TrimStartAppendSpace(s);
    if !AllWhitespace(s) {
      var t := TrimStart(s);
      assert (t + " ")[..|t + " "| - 1] == t;
    }
  }

  /** One slot of a recognition result event: the transcript of its first
      alternative and whether the engine has finalised it. */
  datatype Slot = Slot(transcript: string, isFinal: bool)

  /** What one slot adds to the running transcript of the result handler. */
  function Piece(slot: Slot): string {
    if slot.isFinal then slot.transcript + " " else ""
  }

  /** The untrimmed transcript the handler builds from `slots`, in order. */
  function Joined(slots: seq<Slot>): string {
    if slots == [] then "" else Joined(slots[..|slots| - 1]) + Piece(slots[|slots| - 1])
  }

  /** The slots of `slots` that are final, in their order. */
  function FinalSlots(slots: seq<Slot>): (r: seq<Slot>)
    ensures forall k :: 0 <= k < |r| ==> r[k].isFinal
    ensures |r| <= |slots|
    // exactly the final slots are kept
    ensures forall x :: x in r <==> x in slots && x.isFinal
  {
    if slots == [] then []
    else
      assert slots == slots[..|slots| - 1] + [slots[|slots| - 1]];
      FinalSlots(slots[..|slots| - 1]) + (if slots[|slots| - 1].isFinal then [slots[|slots| - 1]] else [])
  }

  /** Filtering keeps the order: the final slots of two runs are those of the first, then
      those of the second. */
  lemma {:induction false} FinalSlotsAppend(a: seq<Slot>, b: seq<Slot>)
    ensures FinalSlots(a + b) == FinalSlots(a) + FinalSlots(b)
    decreases |b|
  {
    if b == [] {
      assert a + b == a;
    } else {
      var b' := b[..|b| - 1];
      assert (a + b)[..|a + b| - 1] == a + b';
      var last := b[|b| - 1];
      var tail := if last.isFinal then [last] else [];
      assert (a + b)[|a + b| - 1] == last;
      assert b[..|b| - 1] == b';
      FinalSlotsAppend(a, b');
      calc {
        FinalSlots(a + b);
        FinalSlots(a + b') + tail;
        FinalSlots(a) + FinalSlots(b') + tail;
        FinalSlots(a) + (FinalSlots(b') + tail);
        FinalSlots(a) + FinalSlots(b);
      }
    }
  }

  /** Aggregation distributes over splitting the slot sequence. */
  lemma {:induction false} JoinedAppend(a: seq<Slot>, b: seq<Slot>)
    ensures Joined(a + b) == Joined(a) + Joined(b)
    decreases |b|
  {
    if b == [] {
      assert a + b == a;
    } else {
      var b' := b[..|b| - 1];
      assert (a + b)[..|a + b| - 1] == a + b';
      assert (a + b)[|a + b| - 1] == b[|b| - 1];
      JoinedAppend(a, b');
    }
  }

  /** Non-final slots never contribute: aggregating only the final slots gives the same text. */
  lemma {:induction false} JoinedIgnoresInterim(slots: seq<Slot>)
    ensures Joined(slots) == Joined(FinalSlots(slots))
    decreases |slots|
  {
    if slots != [] {
      var init := slots[..|slots| - 1];
      var last := slots[|slots| - 1];
      JoinedIgnoresInterim(init);
      assert Joined(slots) == Joined(init) + Piece(last);
      if last.isFinal {
        assert FinalSlots(slots) == FinalSlots(init) + [last];
        JoinedAppend(FinalSlots(init), [last]);
        assert [last][..0] == [];
        assert Joined([last]) == "" + Piece(last);
      } else {
        assert FinalSlots(slots) == FinalSlots(init) + [];
        assert FinalSlots(init) + [] == FinalSlots(init);
        assert Joined(init) + "" == Joined(init);
      }
    }
  }

  /** Interim slots may say anything: replacing the transcript of a non-final slot
      leaves the aggregated text unchanged. */
  lemma InterimTextIrrelevant(slots: seq<Slot>, k: nat, t: string)
    requires k < |slots| && !slots[k].isFinal
    ensures Joined(slots[k := Slot(t, false)]) == Joined(slots)
  {
    var changed := slots[k := Slot(t, false)];
    assert slots == slots[..k] + [slots[k]] + slots[k + 1..];
    assert changed == slots[..k] + [Slot(t, false)] + slots[k + 1..];
    JoinedAppend(slots[..k] + [slots[k]], slots[k + 1..]);
    JoinedAppend(slots[..k], [slots[k]]);
    JoinedAppend(slots[..k] + [Slot(t, false)], slots[k + 1..]);
    JoinedAppend(slots[..k], [Slot(t, false)]);
    assert [slots[k]][..0] == [];
    assert [Slot(t, false)][..0] == [];
  }

  /** The aggregated text is all whitespace exactly when every final slot's transcript is. */
  lemma {:induction false} JoinedWhitespaceIff(slots: seq<Slot>)
    ensures AllWhitespace(Joined(slots)) <==>
            forall k :: 0 <= k < |slots| && slots[k].isFinal ==> AllWhitespace(slots[k].transcript)
    decreases |slots|
  {
    if slots != [] {
      var init := slots[..|slots| - 1];
      var last := slots[|slots| - 1];
      JoinedWhitespaceIff(init);
      var j, p := Joined(init), Piece(last);
      assert Joined(slots) == j + p;
      assert AllWhitespace(j + p) <==> AllWhitespace(j) && AllWhitespace(p) by {
        if AllWhitespace(j + p) {
          forall i | 0 <= i < |j| ensures IsJsWhitespace(j[i]) { assert j[i] == (j + p)[i]; }
          forall i | 0 <= i < |p| ensures IsJsWhitespace(p[i]) { assert p[i] == (j + p)[|j| + i]; }
        }
      }
      if last.isFinal {
        assert AllWhitespace(p) <==> AllWhitespace(last.transcript) by {
          assert p == last.transcript + " ";
          if AllWhitespace(p) {
            forall i | 0 <= i < |last.transcript| ensures IsJsWhitespace(last.transcript[i]) {
              assert last.transcript[i] == p[i];
            }
          }
          assert p[|p| - 1] == ' ';
        }
      }
      forall k | 0 <= k < |init| ensures init[k] == slots[k] { }
    }
  }

  /** The result handler forwards nothing exactly when every final slot is blank
      (in particular, when no slot is final). */
  lemma TranscriptEmptyIff(slots: seq<Slot>)
    ensures Trim(Joined(slots)) == "" <==>
            forall k :: 0 <= k < |slots| && slots[k].isFinal ==> AllWhitespace(slots[k].transcript)
  {
    JoinedWhitespaceIff(slots);
  }

  /** A single final slot forwards its own transcript, trimmed. */
  lemma SingleFinalSlot(t: string)
    ensures Trim(Joined([Slot(t, true)])) == Trim(t)
  {
    assert [Slot(t, true)][..0] == [];
    assert Joined([Slot(t, true)]) == "" + (t + " ");
    assert "" + (t + " ") == t + " ";
    TrimIgnoresTrailingSpace(t);
  }
}
