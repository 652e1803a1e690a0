/** The one-time-code dialog that gates a transfer or a bill payment: six
    entry slots, a cursor over them, and the code drawn when the dialog opens. */
module Otp {
  import opened Numerals

  const SlotCount: nat := 6

  /** The typed slots (each "" or one key) and the active slot. */
  datatype Entry = Entry(slots: seq<string>, cursor: int)

  /** What the dialog keeps true: six slots of at most one character each and
      a cursor on one of them. It is why the guards `activeIdx > 5` and
      `activeIdx < 0` never fire. */
  predicate WellFormed(e: Entry) {
    |e.slots| == SlotCount && 0 <= e.cursor < SlotCount &&
    forall i :: 0 <= i < SlotCount ==> |e.slots[i]| <= 1
  }

  /** The entry a freshly opened dialog, or a failed verification, leaves. */
  function Cleared(): (e: Entry)
    ensures WellFormed(e) && e.cursor == 0
    ensures forall i :: 0 <= i < SlotCount ==> e.slots[i] == ""
  {
    Entry(["", "", "", "", "", ""], 0)
  }

  /** A key press writes the key into the active slot and moves on, except
      from the last slot, where the cursor stays and the next press overwrites. */
  function KeyPress(e: Entry, key: char): (r: Entry)
    requires WellFormed(e)
    ensures WellFormed(r)
    ensures r.slots[e.cursor] == [key]
    ensures forall i :: 0 <= i < SlotCount && i != e.cursor ==> r.slots[i] == e.slots[i]
    ensures e.cursor < SlotCount - 1 ==> r.cursor == e.cursor + 1
    ensures e.cursor == SlotCount - 1 ==> r.cursor == e.cursor
  {
    Entry(e.slots[e.cursor := [key]], if e.cursor < 5 then e.cursor + 1 else e.cursor)
  }

  /** Backspace clears the active slot when it holds a key; when it is empty
      it clears the slot before it (if any) and moves the cursor there. */
  function Delete(e: Entry): (r: Entry)
    requires WellFormed(e)
    ensures WellFormed(r)
    ensures e.slots[e.cursor] != "" ==> r == Entry(e.slots[e.cursor := ""], e.cursor)
    ensures e.slots[e.cursor] == "" && e.cursor > 0 ==>
      r == Entry(e.slots[e.cursor - 1 := ""], e.cursor - 1)
    ensures e.slots[e.cursor] == "" && e.cursor == 0 ==> r == e
  {
    var target := if e.slots[e.cursor] == "" then Max(0, e.cursor - 1) else e.cursor;
    Entry(e.slots[target := ""], target)
  }

  function Max(a: int, b: int): int {
    if a >= b then a else b
  }

  /** Tapping a slot makes it the active one and changes no slot. */
  function Tap(e: Entry, idx: int): (r: Entry)
    requires WellFormed(e) && 0 <= idx < SlotCount
    ensures WellFormed(r) && r.slots == e.slots && r.cursor == idx
  {
    e.(cursor := idx)
  }

  /** `isComplete`: no slot is empty. */
  predicate IsComplete(slots: seq<string>) {
    forall i :: 0 <= i < |slots| ==> slots[i] != ""
  }

  /** `code.join('')`. */
  function Join(slots: seq<string>): string {
    if slots == [] then "" else Join(slots[..|slots| - 1]) + slots[|slots| - 1]
  }

  datatype Verdict = Verdict(confirmed: bool, entry: Entry)

  /** `verify`: confirm when the joined slots spell the expected code, and
      otherwise clear the entry for a retry against the same code. */
  function VerifyEntry(e: Entry, expected: string): (r: Verdict)
    requires WellFormed(e)
    ensures r.confirmed <==> Join(e.slots) == expected
    ensures r.confirmed ==> r.entry == e
    ensures !r.confirmed ==> r.entry == Cleared()
  {
    if Join(e.slots) == expected then Verdict(true, e) else Verdict(false, Cleared())
  }

  /** The code shown to the user: `Math.floor(100000 + Math.random() * 900000)`
      rendered in decimal; the random draw is the parameter. Every such code
      is six decimal digits with a non-zero first digit, and reads back as
      the number drawn. */
  function GeneratedCode(drawn: nat): (code: string)
    requires 100000 <= drawn <= 999999
    ensures |code| == SlotCount && AllDigits(code)
    ensures code[0] != '0'
    ensures DigitsValue(code) == drawn
  {
    assert Pow10(5) == 100000 && Pow10(6) == 1000000;
    NatToStringLength(drawn, 5);
    DigitsValueOfNatToString(drawn);
    NatToString(drawn)
  }

  /** The slots hold at most one character each, so an entry joins to one
      character per slot exactly when it is complete, and to fewer otherwise. */
  lemma {:induction false} JoinLength(slots: seq<string>)
    requires forall i :: 0 <= i < |slots| ==> |slots[i]| <= 1
    ensures |Join(slots)| <= |slots|
    ensures IsComplete(slots) <==> |Join(slots)| == |slots|
  {
    if slots != [] {
      var init := slots[..|slots| - 1];
      JoinLength(init);
      if !IsComplete(slots) && IsComplete(init) {
        assert slots[|slots| - 1] == "";
      }
    }
  }

  /** An incomplete entry never confirms against a six-character code. */
  lemma IncompleteNeverConfirms(e: Entry, expected: string)
    requires WellFormed(e) && !IsComplete(e.slots) && |expected| == SlotCount
    ensures !VerifyEntry(e, expected).confirmed
    ensures VerifyEntry(e, expected).entry == Cleared()
  {
    JoinLength(e.slots);
  }

  /** The entry after pressing `keys` one after the other. */
  function PressAll(e: Entry, keys: seq<char>): (r: Entry)
    requires WellFormed(e)
    ensures WellFormed(r)
    decreases |keys|
  {
    if keys == [] then e else PressAll(KeyPress(e, keys[0]), keys[1..])
  }

  /** Pressing up to six keys into a fresh dialog fills the first slots in
      order and leaves the rest empty; the cursor stops at the last slot. */
  lemma {:induction false} PressFromClearedUpToSix(keys: seq<char>)
    requires |keys| <= SlotCount
    ensures PressAll(Cleared(), keys).slots ==
      seq(SlotCount, i requires 0 <= i < SlotCount => if i < |keys| then [keys[i]] else "")
    ensures PressAll(Cleared(), keys).cursor == if |keys| < SlotCount then |keys| else SlotCount - 1
  {
    PressPrefix(keys, |keys|);
    PrefixState(keys, |keys|);
  }

  /** Pressing all the keys is pressing the first k of them, then the rest:
      one half of the induction behind PressFromClearedUpToSix. */
  lemma {:induction false} PressPrefix(keys: seq<char>, k: nat)
    requires k <= |keys| <= SlotCount
    ensures PressAll(Cleared(), keys) == PressAll(AfterPrefix(keys, k), keys[k..])
    decreases k
  {
    if k > 0 {
      PressPrefix(keys, k - 1);
      assert keys[k - 1..][1..] == keys[k..];
    }
  }

  /** After the first k keys, those keys fill the first k slots in order and
      the cursor sits right after them: the other half of that induction. */
  lemma {:induction false} PrefixState(keys: seq<char>, k: nat)
    requires k <= |keys| <= SlotCount
    ensures AfterPrefix(keys, k).slots ==
      seq(SlotCount, i requires 0 <= i < SlotCount => if i < k then [keys[i]] else "")
    ensures AfterPrefix(keys, k).cursor == if k < SlotCount then k else SlotCount - 1
    decreases k
  {
    if k > 0 {
      PrefixState(keys, k - 1);
    }
  }

  function AfterPrefix(keys: seq<char>, k: nat): (r: Entry)
    requires k <= |keys| <= SlotCount
    ensures WellFormed(r)
    decreases k
  {
    if k == 0 then Cleared() else KeyPress(AfterPrefix(keys, k - 1), keys[k - 1])
  }

  /** Pressing a + b is pressing a, then b. */
  lemma {:induction false} PressAllAppend(e: Entry, a: seq<char>, b: seq<char>)
    requires WellFormed(e)
    ensures PressAll(e, a + b) == PressAll(PressAll(e, a), b)
    decreases |a|
  {
    if a != [] {
      assert (a + b)[1..] == a[1..] + b;
      PressAllAppend(KeyPress(e, a[0]), a[1..], b);
    } else {
      assert a + b == b;
    }
  }

  /** A seventh press does not go past the last slot: it overwrites it, and
      the first five keys stay where they were. */
  lemma SeventhPressOverwritesLastSlot(keys: seq<char>)
    requires |keys| == SlotCount + 1
    ensures PressAll(Cleared(), keys).slots ==
      [[keys[0]], [keys[1]], [keys[2]], [keys[3]], [keys[4]], [keys[6]]]
    ensures PressAll(Cleared(), keys).cursor == SlotCount - 1
  {
    var six := keys[..6];
    assert keys == six + [keys[6]];
    PressAllAppend(Cleared(), six, [keys[6]]);
    SixPressesFill(six);
    PressOne(PressAll(Cleared(), six), keys[6]);
    assert six[0] == keys[0] && six[1] == keys[1] && six[2] == keys[2];
    assert six[3] == keys[3] && six[4] == keys[4];
  }

  /** Six presses into a fresh entry fill every slot and leave the cursor on
      the last one. */
  lemma SixPressesFill(six: seq<char>)
    requires |six| == SlotCount
    ensures PressAll(Cleared(), six).slots ==
      [[six[0]], [six[1]], [six[2]], [six[3]], [six[4]], [six[5]]]
    ensures PressAll(Cleared(), six).cursor == SlotCount - 1
  {
    PressFromClearedUpToSix(six);
    FullSlots(PressAll(Cleared(), six).slots, six);
  }

  lemma FullSlots(sl: seq<string>, six: seq<char>)
    requires |six| == SlotCount
    requires sl == seq(SlotCount, i requires 0 <= i < SlotCount => if i < |six| then [six[i]] else "")
    ensures sl == [[six[0]], [six[1]], [six[2]], [six[3]], [six[4]], [six[5]]]
  {
    assert sl[0] == [six[0]] && sl[1] == [six[1]] && sl[2] == [six[2]];
    assert sl[3] == [six[3]] && sl[4] == [six[4]] && sl[5] == [six[5]];
  }

  lemma PressOne(e: Entry, key: char)
    requires WellFormed(e)
    ensures PressAll(e, [key]) == KeyPress(e, key)
  {
    assert [key][1..] == [];
  }

  /** Joining one-character slots spells the characters in order. */
  lemma {:induction false} JoinOfSingletons(s: string)
    ensures Join(seq(|s|, i requires 0 <= i < |s| => [s[i]])) == s
    decreases |s|
  {
    if s != [] {
      var init := s[..|s| - 1];
      JoinOfSingletons(init);
      var slots := seq(|s|, i requires 0 <= i < |s| => [s[i]]);
      assert slots[..|s| - 1] == seq(|init|, i requires 0 <= i < |init| => [init[i]]);
      assert s == init + [s[|s| - 1]];
    }
  }

  /** Typing the code that was sent, digit by digit, confirms. */
  lemma TypingTheCodeConfirms(drawn: nat)
    requires 100000 <= drawn <= 999999
    ensures VerifyEntry(PressAll(Cleared(), GeneratedCode(drawn)), GeneratedCode(drawn)).confirmed
  {
    var code := GeneratedCode(drawn);
    PressFromClearedUpToSix(code);
    JoinOfSingletons(code);
    assert PressAll(Cleared(), code).slots == seq(|code|, i requires 0 <= i < |code| => [code[i]]);
  }

  /** The dialog as the component holds it: the slot array it copies and
      writes one slot at a time, the active index, and the code drawn when it
      opened (never redrawn while it stays open). */
  class OtpModal {
    const code: array<string>
    var activeIdx: int
    const generatedCode: string

    ghost predicate Valid()
      reads this, code
    {
      WellFormed(State())
    }

    function State(): Entry
      reads this, code
    {
      Entry(code[..], activeIdx)
    }

    constructor (drawn: nat)
      requires 100000 <= drawn <= 999999
      ensures Valid() && fresh(code)
      ensures State() == Cleared() && generatedCode == GeneratedCode(drawn)
    {
      code := new string[] ["", "", "", "", "", ""];
      activeIdx := 0;
      generatedCode := GeneratedCode(drawn);
    }

    /** `handleKeyPress` */
    method HandleKeyPress(key: char)
      requires Valid()
      modifies this`activeIdx, code
      ensures Valid() && State() == KeyPress(old(State()), key)
    {
      code[activeIdx] := [key];
      if activeIdx < 5 {
        activeIdx := activeIdx + 1;
      }
    }

    /** `handleDelete` */
    method HandleDelete()
      requires Valid()
      modifies this`activeIdx, code
      ensures Valid() && State() == Delete(old(State()))
    {
      var targetIdx := if code[activeIdx] == "" then Max(0, activeIdx - 1) else activeIdx;
      code[targetIdx] := "";
      activeIdx := targetIdx;
    }

    /** The click handler of slot `idx`. */
    method TapSlot(idx: int)
      requires Valid() && 0 <= idx < SlotCount
      modifies this`activeIdx
      ensures Valid() && State() == Tap(old(State()), idx)
    {
      activeIdx := idx;
    }

    /** `verify`: true is the call to `onConfirm`; on a mismatch the slots and
        the cursor are reset and the same code stays expected. */
    method Verify() returns (confirmed: bool)
      requires Valid()
      modifies this`activeIdx, code
      ensures Valid()
      ensures confirmed == VerifyEntry(old(State()), generatedCode).confirmed
      ensures State() == VerifyEntry(old(State()), generatedCode).entry
    {
      if Join(code[..]) == generatedCode {
        confirmed := true;
      } else {
        confirmed := false;
        forall i | 0 <= i < code.Length {
          code[i] := "";
        }
        activeIdx := 0;
      }
    }
  }
}
